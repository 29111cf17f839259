/** The nutrition knowledge store: an append-only list of fact texts with a
    parallel list of ids, a map of structured food entries, a lexical
    keyword search, and a JSON snapshot in `nutrition_store.json`. */
module KnowledgeStore {
  import opened Wrappers
  import opened Text
  import Ranking
  import StableSort
  import Seqs

  /** One entry of a food's `nutrients` list. `amount` is held as the text
      Python's f-string renders for it. */
  datatype Nutrient = Nutrient(name: string, amount: string, unit: string)

  /** The structured entry of a food; both keys may be absent. */
  datatype FoodInfo = FoodInfo(description: Option<string>, nutrients: Option<seq<Nutrient>>)

  /** The three fields the store keeps in memory. */
  datatype Contents = Contents(documents: seq<string>, docIds: seq<string>, structuredData: map<string, FoodInfo>)

  /** The JSON object in the store file; any of its three keys may be absent. */
  datatype Snapshot = Snapshot(
    documents: Option<seq<string>>,
    docIds: Option<seq<string>>,
    structuredData: Option<map<string, FoodInfo>>)

  /** The store file: not there, there but not loadable JSON, or a snapshot. */
  datatype StoreFile = Missing | Unreadable | Written(snapshot: Snapshot)

  // ---------------------------------------------------------------------
  // Snapshots

  /** The object `save` writes. */
  function SnapshotOf(c: Contents): Snapshot {
    Snapshot(Some(c.documents), Some(c.docIds), Some(c.structuredData))
  }

  /** What `load` keeps from a snapshot: each key, or an empty default. */
  function Restored(s: Snapshot): Contents {
    Contents(s.documents.GetOr([]), s.docIds.GetOr([]), s.structuredData.GetOr(map[]))
  }

  /** The in-memory contents after `load` on a store whose contents were
      `current`: a missing or unreadable file changes nothing. */
  function Loaded(file: StoreFile, current: Contents): (c: Contents)
    ensures !file.Written? ==> c == current
  {
    match file
    case Written(s) => Restored(s)
    case _ => current
  }

  /** Loading what `save` wrote gives back exactly the saved contents,
      whatever was in memory before. */
  lemma LoadAfterSave(saved: Contents, current: Contents)
    ensures Loaded(Written(SnapshotOf(saved)), current) == saved
  {
  }

  // ---------------------------------------------------------------------
  // Seeding and ids

  /** The `i`-th of the sixteen facts a store without a snapshot starts from. */
  function SeedFact(i: nat): string
    requires i < 16
  {
    match i
    case 0 => "Proteins are essential macronutrients that help build and repair muscles. Good sources include chicken, fish, eggs, beans, and tofu. Adults need about 0.8g of protein per kg of body weight daily."
    case 1 => "Carbohydrates are the body's main energy source. Complex carbs (whole grains, vegetables) are healthier than simple carbs (sugar, white bread). About 45-65% of daily calories should come from carbs."
    case 2 => "Healthy fats are essential for brain function and hormone production. Sources include avocados, nuts, olive oil, and fatty fish. Limit saturated and trans fats."
    case 3 => "Fiber aids digestion and helps maintain healthy blood sugar levels. Good sources include whole grains, fruits, vegetables, and legumes. Adults need 25-38g daily."
    case 4 => "Vitamin C boosts immune function and helps absorb iron. Found in citrus fruits, strawberries, bell peppers, and broccoli. Daily need: 65-90mg."
    case 5 => "Vitamin D is essential for bone health and immune function. Sources include sunlight, fatty fish, and fortified foods. Many people are deficient."
    case 6 => "Vitamin B12 is crucial for nerve function and red blood cell formation. Found mainly in animal products. Vegans should supplement."
    case 7 => "Vitamin A supports vision and immune health. Found in carrots, sweet potatoes, spinach, and liver."
    case 8 => "Calcium is essential for strong bones and teeth. Found in dairy, leafy greens, and fortified foods. Adults need 1000-1200mg daily."
    case 9 => "Iron carries oxygen in the blood. Found in red meat, beans, spinach, and fortified cereals. Women need more iron than men."
    case 10 => "Potassium helps regulate blood pressure and muscle function. Found in bananas, potatoes, and leafy greens."
    case 11 => "Magnesium supports muscle and nerve function. Found in nuts, seeds, whole grains, and dark chocolate."
    case 12 => "A balanced diet includes fruits, vegetables, whole grains, lean proteins, and healthy fats. Limit processed foods, added sugars, and sodium."
    case 13 => "Hydration is essential. Adults should drink about 8 glasses (2 liters) of water daily, more during exercise or hot weather."
    case 14 => "Eating a variety of colorful vegetables ensures you get different nutrients. Each color represents different beneficial compounds."
    case _ => "Portion control is key for weight management. Use smaller plates and be mindful of serving sizes."
  }

  /** The seed facts, in order. */
  function SeedFacts(): (facts: seq<string>)
    ensures |facts| == 16
  {
    seq(16, i requires 0 <= i < 16 => SeedFact(i))
  }

  /** `f"knowledge_{i}"` */
  function KnowledgeId(i: nat): string {
    "knowledge_" + NatToStr(i)
  }

  /** `knowledge_0` .. `knowledge_{n-1}`, in order. */
  function KnowledgeIds(n: nat): (ids: seq<string>)
    ensures |ids| == n
    ensures forall i :: 0 <= i < n ==> ids[i] == KnowledgeId(i)
  {
    seq(n, i requires 0 <= i < n => KnowledgeId(i))
  }

  /** The contents of a freshly seeded store. */
  function Seeded(): Contents {
    Contents(SeedFacts(), KnowledgeIds(16), map[])
  }

  /** The id `add_structured_food` gives a food's text. */
  function FoodId(name: string): string {
    "food_" + Replace(Lower(name), " ", "_")
  }

  /** The `"{name}: {amount}{unit}. "` fragment of one nutrient. */
  function NutrientText(n: Nutrient): string {
    n.name + ": " + n.amount + n.unit + ". "
  }

  /** The searchable text `add_structured_food` stores for a food. */
  function FoodText(name: string, info: FoodInfo): string {
    var nutrients := info.nutrients.GetOr([]);
    "Nutrition for " + name + ": " + info.description.GetOr("") + ". "
      + Concat(seq(|nutrients|, i requires 0 <= i < |nutrients| => NutrientText(nutrients[i])))
  }

  /** A food's text names the food. */
  lemma FoodTextNamesFood(name: string, info: FoodInfo)
    ensures StartsWith(FoodText(name, info), "Nutrition for " + name + ": ")
  {
    var head := "Nutrition for " + name + ": ";
    var text := FoodText(name, info);
    assert text == head + (text[|head|..]);
  }

  /** The id of a food's text has no spaces. */
  lemma FoodIdHasNoSpace(name: string)
    ensures ' ' !in FoodId(name)
  {
    ReplaceCharRemovesIt(Lower(name), ' ', '_');
  }

  // ---------------------------------------------------------------------
  // Search

  /** The stop words `search` removes from a query. */
  const StopWords: set<string> := {
    "what", "is", "a", "an", "the", "in", "of", "for", "to", "and", "or",
    "are", "do", "does", "how", "much", "many", "good", "bad", "source", "sources"
  }

  /** `set(query.lower().split()) - stop_words` */
  function Keywords(query: string): (k: set<string>)
    ensures forall w :: w in k <==> w in Split(Lower(query)) && w !in StopWords
  {
    Tokens(Lower(query)) - StopWords
  }

  /** The query's case does not matter: it is lower-cased before it is
      split. */
  lemma KeywordsIgnoreCase(query: string)
    ensures Keywords(Lower(query)) == Keywords(query)
  {
    LowerIdempotent(query);
  }

  /** The keywords that occur in the lower-cased document. */
  function Matched(keywords: set<string>, doc: string): (m: set<string>)
    ensures m <= keywords
    ensures forall kw :: kw in m <==> kw in keywords && IsSubstring(kw, Lower(doc))
  {
    set kw | kw in keywords && IsSubstring(kw, Lower(doc))
  }

  /** A document's score: how many keywords it contains. */
  function Score(keywords: set<string>, doc: string): nat {
    |Matched(keywords, doc)|
  }

  /** Adding a keyword adds one to the score exactly when the document
      contains it. */
  lemma MatchedAdd(keywords: set<string>, kw: string, doc: string)
    requires kw !in keywords
    ensures Score(keywords + {kw}, doc) == Score(keywords, doc) + if IsSubstring(kw, Lower(doc)) then 1 else 0
  {
    if IsSubstring(kw, Lower(doc)) {
      assert Matched(keywords + {kw}, doc) == Matched(keywords, doc) + {kw};
    } else {
      assert Matched(keywords + {kw}, doc) == Matched(keywords, doc);
    }
  }

  /** The `(score, doc)` list `search` builds, in document order. */
  function Scored(keywords: set<string>, docs: seq<string>): (r: seq<(nat, string)>)
    ensures |r| == |docs|
    ensures forall i :: 0 <= i < |docs| ==> r[i] == (Score(keywords, docs[i]), docs[i])
  {
    if |docs| == 0 then []
    else Scored(keywords, docs[..|docs| - 1]) + [(Score(keywords, docs[|docs| - 1]), docs[|docs| - 1])]
  }

  /** The documents `search` returns for the keyword set `keywords`: rank
      by score, keep the first `n`, drop those with score 0. */
  function Ranked(keywords: set<string>, docs: seq<string>, n: nat): seq<string> {
    Ranking.PositiveItems(Ranking.Take(Ranking.Rank(Scored(keywords, docs)), n))
  }

  /** The documents `search(query, n)` returns: nothing when the query has
      no keywords, else the ranked documents. */
  function SearchResults(query: string, docs: seq<string>, n: nat): seq<string> {
    var keywords := Keywords(query);
    if keywords == {} then [] else Ranked(keywords, docs, n)
  }

  /** A query made of stop words only finds nothing. */
  lemma StopWordsFindNothing(query: string, docs: seq<string>, n: nat)
    requires forall w :: w in Split(Lower(query)) ==> w in StopWords
    ensures SearchResults(query, docs, n) == []
  {
    assert Keywords(query) == {};
  }

  /** Every pair in the ranked list is a document with its own score. */
  lemma InScored(keywords: set<string>, docs: seq<string>, p: (nat, string))
    requires p in multiset(Ranking.Rank(Scored(keywords, docs)))
    ensures p.1 in docs && p.0 == Score(keywords, p.1)
  {
    var scored := Scored(keywords, docs);
    assert p in scored;
    var i :| 0 <= i < |scored| && scored[i] == p;
  }

  lemma RankedMatch(keywords: set<string>, docs: seq<string>, n: nat)
    ensures |Ranked(keywords, docs, n)| <= n
    ensures forall d :: d in Ranked(keywords, docs, n) ==> d in docs && Score(keywords, d) > 0
  {
    var sorted := Ranking.Rank(Scored(keywords, docs));
    var top := Ranking.Take(sorted, n);
    forall d | d in Ranked(keywords, docs, n)
      ensures d in docs && Score(keywords, d) > 0
    {
      var p :| p in top && p.0 > 0 && p.1 == d;
      var j :| 0 <= j < |top| && top[j] == p;
      assert sorted[j] == p;
      InScored(keywords, docs, p);
    }
  }

  /** At most `n` results, each a document that contains a keyword. */
  lemma SearchResultsMatch(query: string, docs: seq<string>, n: nat)
    ensures |SearchResults(query, docs, n)| <= n
    ensures forall d :: d in SearchResults(query, docs, n) ==>
      d in docs && Score(Keywords(query), d) > 0
      && exists kw :: kw in Keywords(query) && IsSubstring(kw, Lower(d))
  {
    var keywords := Keywords(query);
    if keywords != {} {
      RankedMatch(keywords, docs, n);
      forall d | d in SearchResults(query, docs, n)
        ensures exists kw :: kw in keywords && IsSubstring(kw, Lower(d))
      {
        var kw :| kw in Matched(keywords, d);
      }
    }
  }

  /** The ranked documents are the positive prefix of the ranked list. */
  lemma RankedArePrefix(keywords: set<string>, docs: seq<string>, n: nat)
    ensures Ranking.TopPositive(Ranking.Rank(Scored(keywords, docs)), n, Ranked(keywords, docs, n))
  {
    var sorted := Ranking.Rank(Scored(keywords, docs));
    Ranking.RankSorted(Scored(keywords, docs));
    Ranking.PositiveTake(sorted, n);
  }

  lemma RankedDescending(keywords: set<string>, docs: seq<string>, n: nat)
    ensures var r := Ranked(keywords, docs, n);
      forall i, j :: 0 <= i < j < |r| ==> Score(keywords, r[i]) >= Score(keywords, r[j])
  {
    RankedArePrefix(keywords, docs, n);
    var sorted := Ranking.Rank(Scored(keywords, docs));
    var r := Ranked(keywords, docs, n);
    forall i, j | 0 <= i < j < |r|
      ensures Score(keywords, r[i]) >= Score(keywords, r[j])
    {
      InScored(keywords, docs, sorted[i]);
      InScored(keywords, docs, sorted[j]);
      assert Ranking.ByScore(sorted[i], sorted[j]);
    }
  }

  /** Results come in descending score order. */
  lemma SearchResultsDescending(query: string, docs: seq<string>, n: nat)
    ensures var r := SearchResults(query, docs, n);
      forall i, j :: 0 <= i < j < |r| ==> Score(Keywords(query), r[i]) >= Score(Keywords(query), r[j])
  {
    if Keywords(query) != {} {
      RankedDescending(Keywords(query), docs, n);
    }
  }

  lemma RankedStable(keywords: set<string>, docs: seq<string>, n: nat, k: nat)
    ensures Ranking.IsPrefix(
      Ranking.WithScore(Scored(keywords, Ranked(keywords, docs, n)), k),
      Ranking.WithScore(Scored(keywords, docs), k))
  {
    RankedArePrefix(keywords, docs, n);
    var r := Ranked(keywords, docs, n);
    var scored := Scored(keywords, docs);
    var sorted := Ranking.Rank(scored);
    var head := sorted[..|r|];
    assert Scored(keywords, r) == head by {
      forall i | 0 <= i < |r|
        ensures Scored(keywords, r)[i] == head[i]
      {
        InScored(keywords, docs, sorted[i]);
      }
    }
    Ranking.WithScoreOfPrefix(sorted, |r|, k);
    Ranking.RankKeepsTieOrder(scored, k, "");
  }

  /** Documents with equal scores keep their document order: for every
      score `k`, the results scoring `k` are the first few documents that
      score `k`, in order. */
  lemma SearchResultsStable(query: string, docs: seq<string>, n: nat, k: nat)
    ensures Ranking.IsPrefix(
      Ranking.WithScore(Scored(Keywords(query), SearchResults(query, docs, n)), k),
      Ranking.WithScore(Scored(Keywords(query), docs), k))
  {
    if Keywords(query) == {} {
      assert Scored(Keywords(query), []) == [];
    } else {
      RankedStable(Keywords(query), docs, n, k);
    }
  }

  lemma RankedComplete(keywords: set<string>, docs: seq<string>, n: nat, d: string)
    requires d in docs && Score(keywords, d) > 0
    requires |Ranked(keywords, docs, n)| < n
    ensures d in Ranked(keywords, docs, n)
  {
    var scored := Scored(keywords, docs);
    var i :| 0 <= i < |docs| && docs[i] == d;
    assert scored[i] == (Score(keywords, d), d);
    var sorted := Ranking.Rank(scored);
    assert scored[i] in multiset(sorted);
    var j :| 0 <= j < |sorted| && sorted[j] == scored[i];
    RankedArePrefix(keywords, docs, n);
    var r := Ranked(keywords, docs, n);
    assert j < |r|;
    assert r[j] == Ranking.Items(sorted[..|r|])[j] == d;
  }

  /** When fewer than `n` documents come back, every document that contains
      a keyword is among them; in particular a search with `n >= 1` finds
      something whenever some document contains a keyword. */
  lemma SearchResultsComplete(query: string, docs: seq<string>, n: nat, d: string)
    requires d in docs && Score(Keywords(query), d) > 0
    requires |SearchResults(query, docs, n)| < n
    ensures d in SearchResults(query, docs, n)
  {
    var kw :| kw in Matched(Keywords(query), d);
    RankedComplete(Keywords(query), docs, n, d);
  }

  // ---------------------------------------------------------------------
  // The store

  class NutritionVectorStore {
    var documents: seq<string>
    var docIds: seq<string>
    var structuredData: map<string, FoodInfo>
    /** Whether a persist directory was given, i.e. `persist_file` is set. */
    const persistent: bool
    /** The contents of `nutrition_store.json` in that directory. */
    var file: StoreFile

    function Current(): Contents
      reads this
    {
      Contents(documents, docIds, structuredData)
    }

    /** A persistent store with a file loads it; any other store is seeded,
        and a persistent one then writes its first snapshot. */
    constructor (persistent: bool, file: StoreFile)
      ensures this.persistent == persistent
      ensures persistent && !file.Missing? ==>
        Current() == Loaded(file, Contents([], [], map[])) && this.file == file
      ensures !persistent || file.Missing? ==>
        && Current() == Seeded()
        && this.file == (if persistent then Written(SnapshotOf(Seeded())) else file)
    {
      this.persistent := persistent;
      this.file := file;
      documents, docIds, structuredData := [], [], map[];
      new;
      if persistent && !file.Missing? {
        Load();
      } else {
        SeedInitialKnowledge();
        Save();
      }
    }

    /** Writes the snapshot when the store is persistent. */
    method Save()
      modifies this
      ensures Current() == old(Current())
      ensures file == if persistent then Written(SnapshotOf(Current())) else old(file)
    {
      if persistent {
        file := Written(SnapshotOf(Current()));
      }
    }

    /** Reads the snapshot back; a missing or unreadable file keeps the
        current contents. */
    method Load()
      modifies this
      ensures Current() == if persistent then Loaded(file, old(Current())) else old(Current())
      ensures file == old(file)
    {
      if !persistent || file.Missing? {
        return;
      }
      match file
      case Written(s) =>
        documents := s.documents.GetOr([]);
        docIds := s.docIds.GetOr([]);
        structuredData := s.structuredData.GetOr(map[]);
      case Unreadable =>
    }

    /** Appends a text and its id; the default id numbers the text by its
        position. Nothing is checked for uniqueness. */
    method AddKnowledge(text: string, docId: Option<string>)
      modifies this
      ensures documents == old(documents) + [text]
      ensures docIds == old(docIds) + [docId.GetOr(KnowledgeId(|old(documents)|))]
      ensures structuredData == old(structuredData) && file == old(file)
    {
      var id := if docId.None? then KnowledgeId(|documents|) else docId.value;
      documents := documents + [text];
      docIds := docIds + [id];
    }

    /** Appends the sixteen seed facts with ids `knowledge_0`..`knowledge_15`. */
    method SeedInitialKnowledge()
      modifies this
      ensures documents == old(documents) + SeedFacts()
      ensures docIds == old(docIds) + KnowledgeIds(16)
      ensures structuredData == old(structuredData) && file == old(file)
    {
      AddNumbered(SeedFacts());
    }

    /** The seeding loop: appends each fact under the id numbered by its
        position in `facts`. */
    method AddNumbered(facts: seq<string>)
      modifies this
      ensures documents == old(documents) + facts
      ensures docIds == old(docIds) + KnowledgeIds(|facts|)
      ensures structuredData == old(structuredData) && file == old(file)
    {
      var i := 0;
      while i < |facts|
        invariant 0 <= i <= |facts|
        invariant documents == old(documents) + facts[..i]
        invariant docIds == old(docIds) + KnowledgeIds(i)
        invariant structuredData == old(structuredData) && file == old(file)
      {
        AddKnowledge(facts[i], Some(KnowledgeId(i)));
        assert facts[..i + 1] == facts[..i] + [facts[i]];
        assert KnowledgeIds(i + 1) == KnowledgeIds(i) + [KnowledgeId(i)];
        Seqs.AppendAssoc(old(documents), facts[..i], [facts[i]]);
        Seqs.AppendAssoc(old(docIds), KnowledgeIds(i), [KnowledgeId(i)]);
        i := i + 1;
      }
      assert facts[..i] == facts;
    }

    /** Stores a food under its lower-cased name, appends its text under the
        id `food_<name>`, and saves. */
    method AddStructuredFood(name: string, info: FoodInfo)
      modifies this
      ensures structuredData == old(structuredData)[Lower(name) := info]
      ensures documents == old(documents) + [FoodText(name, info)]
      ensures docIds == old(docIds) + [FoodId(name)]
      ensures file == if persistent then Written(SnapshotOf(Current())) else old(file)
      ensures forall other :: Lower(other) == Lower(name) ==> GetStructuredFood(other) == Some(info)
    {
      structuredData := structuredData[Lower(name) := info];
      var text := "Nutrition for " + name + ": " + info.description.GetOr("") + ". ";
      var nutrients := info.nutrients.GetOr([]);
      ghost var parts := seq(|nutrients|, i requires 0 <= i < |nutrients| => NutrientText(nutrients[i]));
      ghost var head := text;
      var i := 0;
      while i < |nutrients|
        invariant 0 <= i <= |nutrients|
        invariant text == head + Concat(parts[..i])
      {
        text := text + NutrientText(nutrients[i]);
        assert parts[..i + 1][..i] == parts[..i];
        i := i + 1;
      }
      assert parts[..i] == parts;
      AddKnowledge(text, Some(FoodId(name)));
      Save();
    }

    /** `structured_data.get(name.lower())` */
    function GetStructuredFood(name: string): (r: Option<FoodInfo>)
      reads this
      ensures r.Some? <==> Lower(name) in structuredData
      ensures r.Some? ==> r.value == structuredData[Lower(name)]
    {
      if Lower(name) in structuredData then Some(structuredData[Lower(name)]) else None
    }

    /** The inner loop of `search`: how many keywords occur in the
        lower-cased document. */
    static method CountMatches(keywords: set<string>, doc: string) returns (score: nat)
      ensures score == Score(keywords, doc)
    {
      var docLower := Lower(doc);
      score := 0;
      var rest := keywords;
      ghost var done: set<string> := {};
      while rest != {}
        invariant rest <= keywords && done == keywords - rest
        invariant score == Score(done, doc)
        decreases |rest|
      {
        var kw :| kw in rest;
        MatchedAdd(done, kw, doc);
        if IsSubstring(kw, docLower) {
          score := score + 1;
        }
        rest := rest - {kw};
        done := done + {kw};
      }
      assert done == keywords;
    }

    /** Keyword search: score each document by the keywords it contains, sort
        stably by score, keep the first `n` with a positive score. */
    method Search(query: string, n: nat) returns (results: seq<string>)
      ensures results == SearchResults(query, documents, n)
    {
      var keywords := Keywords(query);
      if keywords == {} {
        return [];
      }
      var scores: seq<(nat, string)> := [];
      var i := 0;
      while i < |documents|
        invariant 0 <= i <= |documents|
        invariant scores == Scored(keywords, documents[..i])
      {
        var doc := documents[i];
        var score := CountMatches(keywords, doc);
        scores := scores + [(score, doc)];
        assert documents[..i + 1][..i] == documents[..i];
        i := i + 1;
      }
      assert documents[..i] == documents;
      var ranked := Ranking.Rank(scores);
      results := Ranking.PositiveItems(Ranking.Take(ranked, n));
    }
  }
}
