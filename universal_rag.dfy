/** `UniversalNutritionRag`: one answer per nutrition question, taken from
    the first of three tiers that has one: the dietary tables, then the
    learned-knowledge cache, then a web search summarised by a language
    model and written back to the cache. The web search and the language
    model are parameters of the operations that call them. */
module UniversalRag {
  import opened Wrappers
  import opened Text
  import Json
  import KnowledgeStore
  import DietaryStore
  import Seqs

  /** `query.lower().strip()` */
  function Normalize(query: string): string {
    Strip(Lower(query))
  }

  /** The dietary tier keeps its top record only when the record's
      lower-cased name and the query contain one another. A record without
      a name has the empty name, which every query contains. */
  predicate Relevant(q: string, doc: DietaryStore.Record) {
    var name := Lower(doc.name.GetOr(""));
    IsSubstring(name, q) || IsSubstring(q, name)
  }

  /** The tier that answers the normalised query `q`. */
  datatype Tier = FromDietary(doc: DietaryStore.Record) | FromCache(hit: string) | FromWeb

  function TierOf(q: string, dietaryDocs: seq<DietaryStore.Record>, knowledgeDocs: seq<string>): Tier {
    match DietaryHit(q, dietaryDocs)
    case Some(doc) => FromDietary(doc)
    case None =>
      match CacheHit(q, knowledgeDocs)
      case Some(hit) => FromCache(hit)
      case None => FromWeb
  }

  /** The dietary tier: the top record for the query, when it is relevant. */
  function DietaryHit(q: string, dietaryDocs: seq<DietaryStore.Record>): Option<DietaryStore.Record> {
    var top := DietaryStore.SearchResults(q, dietaryDocs, 1);
    if |top| > 0 && Relevant(q, top[0]) then Some(top[0]) else None
  }

  /** The cache tier: the top stored fact for the query. */
  function CacheHit(q: string, knowledgeDocs: seq<string>): Option<string> {
    var hits := KnowledgeStore.SearchResults(q, knowledgeDocs, 1);
    if |hits| > 0 then Some(hits[0]) else None
  }

  const DietaryTag := "\n*(Source: Official Dietary Guidelines)*"
  const CacheTag := "\n*(Source: Learned Knowledge)*"
  const WebTag := "\n*(Learned from Web)*"

  /** `_format_dietary_response`: a missing name or value prints as `None`. */
  function FormatDietary(doc: DietaryStore.Record): string {
    "**" + Json.Show(doc.name) + "**: " + Json.Show(doc.value) + DietaryTag
  }

  /** The reply opens with the record's name in bold and closes with its
      value and the guidelines tag; a missing field reads `None`. */
  lemma FormatDietaryShows(doc: DietaryStore.Record)
    ensures var r := FormatDietary(doc);
      && StartsWith(r, "**" + Json.Show(doc.name) + "**: ")
      && EndsWith(r, "**: " + Json.Show(doc.value) + DietaryTag)
      && (doc.name.None? ==> StartsWith(r, "**None**: "))
      && (doc.value.None? ==> EndsWith(r, "**: None" + DietaryTag))
  {
    var name, value := Json.Show(doc.name), Json.Show(doc.value);
    var front, back := "**" + name + "**: ", "**: " + value + DietaryTag;
    assert FormatDietary(doc) == front + (value + DietaryTag) by {
      Seqs.AppendAssoc(front, value, DietaryTag);
    }
    PrefixOf(front, value + DietaryTag);
    assert FormatDietary(doc) == "**" + name + back by {
      Seqs.AppendAssoc("**" + name, "**: " + value, DietaryTag);
      Seqs.AppendAssoc("**" + name, "**: ", value);
    }
    SuffixOf("**" + name, back);
  }

  /** The text sent to the web search service. */
  function SearchQuery(q: string): string {
    q + " nutrition facts health benefits"
  }

  function NotFound(q: string): string {
    "I couldn't find information on '" + q + "'."
  }

  /** The context line of the `i`-th web result (numbered from 1). */
  function SourceLine(i: nat, result: Json.Object): string {
    "Source " + NatToStr(i + 1) + " (" + Json.Show(Json.Get(result, "title")) + "): "
    + Json.Show(Json.Get(result, "snippet")) + "\n"
  }

  /** One context line for each of the first three results. */
  function SourceLines(results: seq<Json.Object>): (lines: seq<string>)
    ensures |lines| == if |results| < 3 then |results| else 3
    ensures forall i :: 0 <= i < |lines| ==> lines[i] == SourceLine(i, results[i])
  {
    var n := if |results| < 3 then |results| else 3;
    seq(n, i requires 0 <= i < n => SourceLine(i, results[i]))
  }

  function Context(results: seq<Json.Object>): string {
    Concat(SourceLines(results))
  }

  /** The summarising prompt around the query and the context. */
  function Prompt(q: string, context: string): string {
    "\n        You are an expert Dietitian. Summarize the following information about \"" + q + "\".\n"
    + "        Focus on:\n"
    + "        1. Key Nutrients (Calories, Protein, Vitamins)\n"
    + "        2. Health Benefits\n"
    + "        3. Any dietary warnings\n"
    + "        \n"
    + "        Keep it concise (bullet points).\n"
    + "        \n"
    + "        Sources:\n"
    + "        " + context + "\n"
    + "        "
  }

  /** `learned_<query>` with spaces replaced by `_`. */
  function LearnedId(q: string): string {
    "learned_" + Replace(q, " ", "_")
  }

  /** The summary the web tier writes back to the knowledge store, if any:
      there is one when the web search found something and the language
      model answered (`None` from `llm` stands for a raised exception). */
  function Learned(q: string, results: seq<Json.Object>, llm: string -> Option<string>): Option<string> {
    if |results| == 0 then None else llm(Prompt(q, Context(results)))
  }

  /** `_learn_from_web`'s answer; `None` when the language model raised. */
  function WebAnswer(q: string, results: seq<Json.Object>, llm: string -> Option<string>): Option<string> {
    if |results| == 0 then Some(NotFound(q))
    else match Learned(q, results, llm)
      case None => None
      case Some(summary) => Some(summary + WebTag)
  }

  /** `search`'s answer once the tier is known. */
  function Answer(q: string, tier: Tier, results: seq<Json.Object>, llm: string -> Option<string>): Option<string> {
    match tier
    case FromDietary(doc) => Some(FormatDietary(doc))
    case FromCache(hit) => Some(hit + CacheTag)
    case FromWeb => WebAnswer(q, results, llm)
  }

  // ---------------------------------------------------------------------
  // Properties

  /** Normalising twice is normalising once, so a query that is already
      lower-cased and stripped is answered as it stands. */
  lemma NormalizeIdempotent(query: string)
    ensures Normalize(Normalize(query)) == Normalize(query)
  {
    var t := Lower(query);
    var s := Strip(t);
    LStripLower(t);
    RStripLower(LStrip(t));
    LowerIdempotent(query);
    assert Lower(s) == s;
    StripSpec(t);
    StripStripped(s);
  }

  /** A dietary answer is a relevant record of the tables with the best
      score of all of them. */
  lemma DietaryTierIsBest(q: string, dietaryDocs: seq<DietaryStore.Record>, knowledgeDocs: seq<string>)
    requires TierOf(q, dietaryDocs, knowledgeDocs).FromDietary?
    ensures var doc := TierOf(q, dietaryDocs, knowledgeDocs).doc;
      && doc in dietaryDocs && Relevant(q, doc)
      && forall d :: d in dietaryDocs ==> DietaryStore.RecordScore(Lower(q), d) <= DietaryStore.RecordScore(Lower(q), doc)
  {
    var doc := TierOf(q, dietaryDocs, knowledgeDocs).doc;
    DietaryStore.SearchResultsScorePositive(q, dietaryDocs, 1);
    forall d | d in dietaryDocs && DietaryStore.RecordScore(Lower(q), d) > 0
      ensures DietaryStore.RecordScore(Lower(q), d) <= DietaryStore.RecordScore(Lower(q), doc)
    {
      DietaryStore.SearchResultsTopIsBest(q, dietaryDocs, 1, d);
    }
  }

  /** A cache answer is a stored fact containing a keyword of the query. */
  lemma CacheTierMatches(q: string, dietaryDocs: seq<DietaryStore.Record>, knowledgeDocs: seq<string>)
    requires TierOf(q, dietaryDocs, knowledgeDocs).FromCache?
    ensures var hit := TierOf(q, dietaryDocs, knowledgeDocs).hit;
      hit in knowledgeDocs && exists kw :: kw in KnowledgeStore.Keywords(q) && IsSubstring(kw, Lower(hit))
  {
    KnowledgeStore.SearchResultsMatch(q, knowledgeDocs, 1);
  }

  /** The web is asked only when no stored fact contains a keyword of the
      query. */
  lemma WebTierMeansNoMatch(q: string, dietaryDocs: seq<DietaryStore.Record>, knowledgeDocs: seq<string>, d: string)
    requires TierOf(q, dietaryDocs, knowledgeDocs).FromWeb? && d in knowledgeDocs
    ensures KnowledgeStore.Score(KnowledgeStore.Keywords(q), d) == 0
  {
    if KnowledgeStore.Score(KnowledgeStore.Keywords(q), d) > 0 {
      KnowledgeStore.SearchResultsComplete(q, knowledgeDocs, 1, d);
    }
  }

  /** Only the first three web results reach the language model. */
  lemma ContextIgnoresRest(results: seq<Json.Object>, more: seq<Json.Object>)
    requires |results| >= 3
    ensures Context(results + more) == Context(results)
  {
    assert SourceLines(results + more) == SourceLines(results);
  }

  /** The context lines are numbered from 1 in result order. */
  lemma ContextLines(results: seq<Json.Object>, i: nat)
    requires i < |results| && i < 3
    ensures SourceLines(results)[i] == "Source " + NatToStr(i + 1) + " (" + Json.Show(Json.Get(results[i], "title")) + "): "
      + Json.Show(Json.Get(results[i], "snippet")) + "\n"
    ensures Context(results) == Concat(SourceLines(results)[..i]) + SourceLines(results)[i] + Concat(SourceLines(results)[i + 1..])
  {
    var lines := SourceLines(results);
    assert lines == lines[..i] + [lines[i]] + lines[i + 1..];
    ConcatAppend(lines[..i] + [lines[i]], lines[i + 1..]);
    ConcatAppend(lines[..i], [lines[i]]);
    assert Concat([lines[i]]) == lines[i] by {
      assert [lines[i]][..0] == [];
    }
  }

  /** Learning is what makes the cache answer: once a query fell through to
      the web and its summary contains a keyword of the query, asking again
      gets that summary from the cache. */
  lemma LearnedIsCached(q: string, dietaryDocs: seq<DietaryStore.Record>, knowledgeDocs: seq<string>, summary: string)
    requires TierOf(q, dietaryDocs, knowledgeDocs).FromWeb?
    requires KnowledgeStore.Score(KnowledgeStore.Keywords(q), summary) > 0
    ensures TierOf(q, dietaryDocs, knowledgeDocs + [summary]) == FromCache(summary)
  {
    var docs := knowledgeDocs + [summary];
    var hits := KnowledgeStore.SearchResults(q, docs, 1);
    if |hits| == 0 {
      KnowledgeStore.SearchResultsComplete(q, docs, 1, summary);
    }
    KnowledgeStore.SearchResultsMatch(q, docs, 1);
    assert hits[0] in docs;
    if hits[0] != summary {
      assert hits[0] in knowledgeDocs;
      WebTierMeansNoMatch(q, dietaryDocs, knowledgeDocs, hits[0]);
    }
  }

  // ---------------------------------------------------------------------
  // The aggregator

  class UniversalNutritionRag {
    const dietary: DietaryStore.DietaryVectorStore
    const knowledge: KnowledgeStore.NutritionVectorStore
    /** The texts sent to the web search service, oldest first. */
    var webQueries: seq<string>

    /** Loads the dietary tables from `directory` and the knowledge store
        from its file in the `data` directory. */
    constructor (directory: Option<seq<DietaryStore.DirEntry>>, file: KnowledgeStore.StoreFile)
      ensures fresh(dietary) && fresh(knowledge)
      ensures dietary.documents == (if directory.Some? then DietaryStore.DirectoryRecords(directory.value) else [])
      ensures knowledge.persistent
      ensures !file.Missing? ==> knowledge.Current() == KnowledgeStore.Loaded(file, KnowledgeStore.Contents([], [], map[]))
      ensures file.Missing? ==> knowledge.Current() == KnowledgeStore.Seeded()
      ensures webQueries == []
    {
      dietary := new DietaryStore.DietaryVectorStore(directory);
      knowledge := new KnowledgeStore.NutritionVectorStore(true, file);
      webQueries := [];
    }

    /** `search`: `web` is the web search service and `llm` the language
        model (`None` for a raised exception). The web is asked only when
        neither store answers, and only a web summary changes the
        knowledge store. */
    method Search(query: string, web: string -> seq<Json.Object>, llm: string -> Option<string>)
      returns (answer: Option<string>)
      modifies this, knowledge
      ensures var q := Normalize(query);
        var tier := TierOf(q, dietary.documents, old(knowledge.documents));
        && answer == Answer(q, tier, web(SearchQuery(q)), llm)
        && webQueries == old(webQueries) + (if tier.FromWeb? then [SearchQuery(q)] else [])
        && var learned := if tier.FromWeb? then Learned(q, web(SearchQuery(q)), llm) else None;
          Stored(learned, LearnedId(q), old(knowledge.Current()), old(knowledge.file))
    {
      var q := Lower(query);
      q := Strip(q);
      var dietaryHit := FindDietary(q);
      if dietaryHit.Some? {
        return Some(FormatDietary(dietaryHit.value));
      }
      var cacheHit := FindCached(q);
      if cacheHit.Some? {
        return Some(cacheHit.value + CacheTag);
      }
      answer := LearnFromWeb(q, web, llm);
    }

    /** Step 1 of `search`: one record from the dietary store, kept when relevant. */
    method FindDietary(q: string) returns (hit: Option<DietaryStore.Record>)
      ensures hit == DietaryHit(q, dietary.documents)
    {
      var dietaryResults := dietary.Search(q, 1);
      if |dietaryResults| > 0 {
        var topDoc := dietaryResults[0];
        var name := Lower(topDoc.name.GetOr(""));
        if IsSubstring(name, q) || IsSubstring(q, name) {
          return Some(topDoc);
        }
      }
      return None;
    }

    /** Step 2 of `search`: one fact from the knowledge store. */
    method FindCached(q: string) returns (hit: Option<string>)
      ensures hit == CacheHit(q, knowledge.documents)
    {
      var cacheHits := knowledge.Search(q, 1);
      if |cacheHits| > 0 {
        return Some(cacheHits[0]);
      }
      return None;
    }

    /** What the knowledge store holds after a call that wrote back
        `learned` under `id`, given what it held before. */
    ghost predicate Stored(learned: Option<string>, id: string, before: KnowledgeStore.Contents, fileBefore: KnowledgeStore.StoreFile)
      reads this, knowledge
    {
      match learned
      case None => knowledge.Current() == before && knowledge.file == fileBefore
      case Some(summary) =>
        && knowledge.Current() == KnowledgeStore.Contents(before.documents + [summary], before.docIds + [id], before.structuredData)
        && knowledge.file == (if knowledge.persistent then KnowledgeStore.Written(KnowledgeStore.SnapshotOf(knowledge.Current())) else fileBefore)
    }

    /** `_learn_from_web`: searches the web, builds the context from at most
        three results, asks the language model and stores its summary. */
    method LearnFromWeb(q: string, web: string -> seq<Json.Object>, llm: string -> Option<string>)
      returns (answer: Option<string>)
      modifies this, knowledge
      ensures answer == WebAnswer(q, web(SearchQuery(q)), llm)
      ensures webQueries == old(webQueries) + [SearchQuery(q)]
      ensures Stored(Learned(q, web(SearchQuery(q)), llm), LearnedId(q), old(knowledge.Current()), old(knowledge.file))
    {
      var searchQuery := q + " nutrition facts health benefits";
      var results := web(searchQuery);
      webQueries := webQueries + [searchQuery];
      if |results| == 0 {
        return Some("I couldn't find information on '" + q + "'.");
      }
      var context := BuildContext(results);
      var response := llm(Prompt(q, context));
      if response.None? {
        return None;
      }
      knowledge.AddKnowledge(response.value, Some(LearnedId(q)));
      knowledge.Save();
      answer := Some(response.value + WebTag);
    }

    /** The context loop over `results[:3]`. */
    static method BuildContext(results: seq<Json.Object>) returns (context: string)
      ensures context == Context(results)
    {
      var lines := SourceLines(results);
      context := "";
      var i := 0;
      while i < |results| && i < 3
        invariant 0 <= i <= |lines|
        invariant context == Concat(lines[..i])
      {
        context := context + SourceLine(i, results[i]);
        assert lines[..i + 1][..i] == lines[..i];
        i := i + 1;
      }
      assert lines[..i] == lines;
    }
  }
}
