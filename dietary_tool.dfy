/** `DietaryTool`: recommended daily values looked up in the dietary store. */
module DietaryTool {
  import opened Wrappers
  import opened Text
  import Json
  import Listing
  import Seqs
  import DietaryStore

  const SourceNote := "*(Source: UK Government Dietary Recommendations)*"

  function NotFound(nutrient: string): string {
    "I couldn't find specific dietary advice for '" + nutrient + "'."
  }

  function Header(nutrient: string): string {
    "**Dietary Recommendations for '" + nutrient + "'**:\n"
  }

  /** The bullet of one record; a missing field prints as `None`. */
  function RecordLine(doc: DietaryStore.Record): string {
    "- **" + Json.Show(doc.ageGroup) + " years (" + Json.Show(doc.gender) + ")**: " + Json.Show(doc.value) + "\n"
  }

  /** `execute`'s reply once the search results are known. */
  function Reply(nutrient: string, results: seq<DietaryStore.Record>): string {
    if |results| == 0 then NotFound(nutrient)
    else Header(nutrient) + Concat(Listing.Lines(RecordLine, results, 3)) + SourceNote
  }

  // ---------------------------------------------------------------------
  // Properties

  /** The `i`-th of the first three records is listed after those before
      it, and a non-empty reply always ends with the source note. */
  lemma ReplyLists(nutrient: string, results: seq<DietaryStore.Record>, i: nat)
    requires i < |results| && i < 3
    ensures var lines := Listing.Lines(RecordLine, results, 3);
      && |lines| == (if |results| < 3 then |results| else 3)
      && Reply(nutrient, results) == Header(nutrient) + (Concat(lines[..i]) + RecordLine(results[i]) + Concat(lines[i + 1..])) + SourceNote
      && EndsWith(Reply(nutrient, results), SourceNote)
  {
    Listing.LineAt(RecordLine, results, 3, i);
    var r := Reply(nutrient, results);
    assert r[|r| - |SourceNote|..] == SourceNote;
  }

  /** A record without age group, gender or value is still listed. */
  lemma RecordLineOfEmpty(name: Option<string>, sourceFile: Option<string>)
    ensures RecordLine(DietaryStore.Record(name, None, None, None, sourceFile)) == "- **None years (None)**: None\n"
  {
  }

  // ---------------------------------------------------------------------
  // The tool

  class DietaryTool {
    const store: DietaryStore.DietaryVectorStore

    constructor (directory: Option<seq<DietaryStore.DirEntry>>)
      ensures fresh(store)
      ensures store.documents == (if directory.Some? then DietaryStore.DirectoryRecords(directory.value) else [])
    {
      store := new DietaryStore.DietaryVectorStore(directory);
    }

    /** `execute`: the three best-scoring records for the nutrient. A
        scoring record is left out only when three came back, none scoring
        less than it. */
    method Execute(nutrient: string) returns (response: string)
      ensures var results := DietaryStore.SearchResults(nutrient, store.documents, 3);
        && response == Reply(nutrient, results)
        && (forall d :: d in results ==> d in store.documents && DietaryStore.RecordScore(Lower(nutrient), d) > 0)
        && forall d :: d in store.documents && DietaryStore.RecordScore(Lower(nutrient), d) > 0 && d !in results ==>
             && |results| == 3
             && forall i :: 0 <= i < 3 ==> DietaryStore.RecordScore(Lower(nutrient), results[i]) >= DietaryStore.RecordScore(Lower(nutrient), d)
    {
      var results := store.Search(nutrient, 3);
      DietaryStore.SearchResultsScorePositive(nutrient, store.documents, 3);
      forall d | d in store.documents && DietaryStore.RecordScore(Lower(nutrient), d) > 0
        ensures d !in results ==>
          && |results| == 3
          && forall i :: 0 <= i < 3 ==> DietaryStore.RecordScore(Lower(nutrient), results[i]) >= DietaryStore.RecordScore(Lower(nutrient), d)
      {
        DietaryStore.SearchResultsTopK(nutrient, store.documents, 3, d);
      }
      if |results| == 0 {
        return NotFound(nutrient);
      }
      var header := Header(nutrient);
      ghost var lines := Listing.Lines(RecordLine, results, 3);
      response := header;
      var i := 0;
      while i < |results| && i < 3
        invariant 0 <= i <= |lines|
        invariant response == header + Concat(lines[..i])
      {
        var doc := results[i];
        var val := doc.value;
        var gender := doc.gender;
        var age := doc.ageGroup;
        var line := "- **" + Json.Show(age) + " years (" + Json.Show(gender) + ")**: " + Json.Show(val) + "\n";
        assert line == lines[i];
        Listing.ConcatStep(lines, i);
        Seqs.AppendAssoc(header, Concat(lines[..i]), line);
        response := response + line;
        i := i + 1;
      }
      assert lines[..i] == lines;
      response := response + SourceNote;
    }
  }
}
