/** `RAGTool`: the nutrition knowledge search offered to the agent, over
    its own knowledge store. */
module RagTool {
  import opened Wrappers
  import opened Text
  import Listing
  import Seqs
  import KnowledgeStore

  const NoResults := "No relevant nutrition information found in the knowledge base."
  const Header := "**Nutrition Knowledge:**\n\n"

  function ErrorText(e: string): string {
    "Error searching knowledge base: " + e
  }

  /** `enumerate(results, 1)` */
  function Numbered(results: seq<string>): (r: seq<(nat, string)>)
    ensures |r| == |results|
    ensures forall i :: 0 <= i < |r| ==> r[i] == (i + 1, results[i])
  {
    seq(|results|, i requires 0 <= i < |results| => (i + 1, results[i]))
  }

  function ResultLine(entry: (nat, string)): string {
    NatToStr(entry.0) + ". " + entry.1 + "\n\n"
  }

  /** `execute`'s reply, given what the search returned or the message of
      the exception it raised. */
  function Reply(outcome: Result<seq<string>, string>): string {
    match outcome
    case Err(e) => ErrorText(e)
    case Ok(results) =>
      if |results| == 0 then NoResults
      else Header + Concat(Listing.Lines(ResultLine, Numbered(results), |results|))
  }

  // ---------------------------------------------------------------------
  // Properties

  /** Every result is listed, numbered from 1, in the order the search
      ranked them. */
  lemma ReplyLists(results: seq<string>, i: nat)
    requires i < |results|
    ensures var lines := Listing.Lines(ResultLine, Numbered(results), |results|);
      && |lines| == |results|
      && Reply(Ok(results)) == Header + (Concat(lines[..i]) + (NatToStr(i + 1) + ". " + results[i] + "\n\n") + Concat(lines[i + 1..]))
  {
    Listing.LineAt(ResultLine, Numbered(results), |results|, i);
  }

  // ---------------------------------------------------------------------
  // The tool

  class RagTool {
    const store: KnowledgeStore.NutritionVectorStore

    /** The tool opens the store in the `data` directory. */
    constructor (file: KnowledgeStore.StoreFile)
      ensures fresh(store) && store.persistent
      ensures !file.Missing? ==> store.Current() == KnowledgeStore.Loaded(file, KnowledgeStore.Contents([], [], map[]))
      ensures file.Missing? ==> store.Current() == KnowledgeStore.Seeded()
    {
      store := new KnowledgeStore.NutritionVectorStore(true, file);
    }

    /** `execute`: at most three results, each sharing a keyword with the
        query, listed best first. */
    method Execute(query: string) returns (response: string)
      ensures var results := KnowledgeStore.SearchResults(query, store.documents, 3);
        && response == Reply(Ok(results))
        && |results| <= 3
        && forall d :: d in results ==> d in store.documents && KnowledgeStore.Score(KnowledgeStore.Keywords(query), d) > 0
    {
      var results := store.Search(query, 3);
      KnowledgeStore.SearchResultsMatch(query, store.documents, 3);
      if |results| == 0 {
        return NoResults;
      }
      ghost var lines := Listing.Lines(ResultLine, Numbered(results), |results|);
      response := Header;
      var i := 0;
      while i < |results|
        invariant 0 <= i <= |results|
        invariant response == Header + Concat(lines[..i])
      {
        var line := NatToStr(i + 1) + ". " + results[i] + "\n\n";
        assert line == lines[i];
        Listing.ConcatStep(lines, i);
        Seqs.AppendAssoc(Header, Concat(lines[..i]), line);
        response := response + line;
        i := i + 1;
      }
      assert lines[..i] == lines;
    }
  }
}
