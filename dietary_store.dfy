/** The dietary recommendation store: nested `age -> gender -> nutrient ->
    value` tables read from the JSON files of a directory, flattened into
    records with readable nutrient names, and ranked against a query by a
    fixed 20/10/5 score. */
module DietaryStore {
  import opened Wrappers
  import opened Text
  import Ranking
  import StableSort
  import Seqs

  /** One searchable entry. Records read from a table have every field;
      entries of a list-shaped file are kept as they are, so any key may be
      missing. Values are held as the text Python renders for them. */
  datatype Record = Record(
    name: Option<string>,
    value: Option<string>,
    ageGroup: Option<string>,
    gender: Option<string>,
    sourceFile: Option<string>)

  /** What a gender key of a table maps to: a nutrient table, or some other
      JSON value, which is skipped. */
  datatype GenderEntry = NutrientTable(nutrients: seq<(string, string)>) | NotATable

  /** What an age key maps to: a gender table, or some other JSON value,
      on which `.items()` raises and the rest of the file is abandoned. */
  datatype AgeEntry = GenderTable(genders: seq<(string, GenderEntry)>) | NotAGenderTable

  /** A file's content: a JSON object (its items in order), a JSON list,
      any other JSON value, or something `json.load` rejects. */
  datatype DataFile = DictFile(ages: seq<(string, AgeEntry)>) | ListFile(entries: seq<Record>) | OtherJson | Unparsable

  /** One directory entry, in the order `os.listdir` returns them. */
  datatype DirEntry = DirEntry(filename: string, content: DataFile)

  // ---------------------------------------------------------------------
  // Name normalisation

  /** `s[:-len(suffix)]` when `s` ends with `suffix`. */
  function DropSuffix(s: string, suffix: string): string {
    if EndsWith(s, suffix) then s[..|s| - |suffix|] else s
  }

  /** A nutrient key made readable: `_` becomes a space, the words are
      title-cased, a unit suffix is cut off (" Mg", " Mcg", " G" and " Iu",
      each checked in turn on what the previous check left), and the
      result is stripped. */
  function PrettyName(key: string): string {
    Strip(CutUnits(Title(Replace(key, "_", " "))))
  }

  function CutUnits(s: string): string {
    DropSuffix(DropSuffix(DropSuffix(DropSuffix(s, " Mg"), " Mcg"), " G"), " Iu")
  }

  /** Cutting a suffix keeps a prefix. */
  lemma DropSuffixIsPrefix(s: string, suffix: string)
    ensures var r := DropSuffix(s, suffix); |r| <= |s| && r == s[..|r|]
  {
  }

  lemma CutUnitsIsPrefix(s: string)
    ensures var r := CutUnits(s); |r| <= |s| && r == s[..|r|]
  {
    var mg := DropSuffix(s, " Mg");
    var mcg := DropSuffix(mg, " Mcg");
    var g := DropSuffix(mcg, " G");
    var r := DropSuffix(g, " Iu");
    DropSuffixIsPrefix(s, " Mg");
    DropSuffixIsPrefix(mg, " Mcg");
    DropSuffixIsPrefix(mcg, " G");
    DropSuffixIsPrefix(g, " Iu");
    assert r == g[..|r|] == mcg[..|r|] == mg[..|r|] == s[..|r|];
  }

  const UnitSuffixes: seq<string> := [" Mg", " Mcg", " G", " Iu"]

  /** The suffix checks, applied in turn. */
  function DropSuffixes(s: string, suffixes: seq<string>): string {
    if |suffixes| == 0 then s
    else DropSuffix(DropSuffixes(s, suffixes[..|suffixes| - 1]), suffixes[|suffixes| - 1])
  }

  /** A readable name has no `_` and no surrounding whitespace. */
  lemma PrettyNameIsClean(key: string)
    ensures '_' !in PrettyName(key)
    ensures var p := PrettyName(key); p == "" || (!IsSpace(p[0]) && !IsSpace(p[|p| - 1]))
  {
    TitledHasNoUnderscore(key);
    CutAndStripIsClean(Title(Replace(key, "_", " ")));
  }

  lemma CutAndStripIsClean(titled: string)
    requires '_' !in titled
    ensures '_' !in Strip(CutUnits(titled))
    ensures var p := Strip(CutUnits(titled)); p == "" || (!IsSpace(p[0]) && !IsSpace(p[|p| - 1]))
  {
    var cut := CutUnits(titled);
    CutUnitsIsPrefix(titled);
    assert '_' !in cut by {
      forall i | 0 <= i < |cut| ensures cut[i] != '_' {
        assert cut[i] == titled[i];
      }
    }
    StripSpec(cut);
    var i, j :| 0 <= i <= j <= |cut| && Strip(cut) == cut[i..j];
    assert forall k :: 0 <= k < j - i ==> cut[i..j][k] == cut[i + k];
  }

  lemma TitledHasNoUnderscore(key: string)
    ensures '_' !in Title(Replace(key, "_", " "))
  {
    var spaced := Replace(key, "_", " ");
    ReplaceCharRemovesIt(key, '_', ' ');
    var titled := Title(spaced);
    TitleKeepsNonLetters(spaced, false);
    forall i | 0 <= i < |titled| ensures titled[i] != '_' {
      assert spaced[i] != '_';
    }
  }

  lemma FourSuffixes(s: string, a: string, b: string, c: string, d: string)
    ensures DropSuffixes(s, [a, b, c, d]) == DropSuffix(DropSuffix(DropSuffix(DropSuffix(s, a), b), c), d)
  {
    assert [a, b, c, d][..3] == [a, b, c];
    assert [a, b, c][..2] == [a, b];
    assert [a, b][..1] == [a];
    assert [a][..0] == [];
    assert DropSuffixes(s, [a]) == DropSuffix(s, a);
    assert DropSuffixes(s, [a, b]) == DropSuffix(DropSuffixes(s, [a]), b);
    assert DropSuffixes(s, [a, b, c]) == DropSuffix(DropSuffixes(s, [a, b]), c);
  }

  /** The example the loader's comment gives: `vitamin_c_mg` reads "Vitamin C". */
  lemma VitaminCName()
    ensures PrettyName("vitamin_c_mg") == "Vitamin C"
  {
    assert "vitamin_c_mg" == "vitamin" + ("_" + ("c" + ("_" + "mg")));
    ReplaceCharConcat("vitamin", "_" + ("c" + ("_" + "mg")), '_', " ");
    ReplaceCharConcat("_", "c" + ("_" + "mg"), '_', " ");
    ReplaceCharConcat("c", "_" + "mg", '_', " ");
    ReplaceCharConcat("_", "mg", '_', " ");
    ReplaceCharAbsent("vitamin", '_', " ");
    ReplaceCharAbsent("c", '_', " ");
    ReplaceCharAbsent("mg", '_', " ");
    TitleVitaminC("vitamin", "c", "mg", " ");
    CutVitaminC("Vitamin C Mg", "Vitamin C");
  }

  lemma TitleVitaminC(v: string, c: string, mg: string, sp: string)
    requires v == "vitamin" && c == "c" && mg == "mg" && sp == " "
    ensures Title(v + (sp + (c + (sp + mg)))) == "Vitamin C Mg"
  {
    TitleConcat(v, sp + (c + (sp + mg)), false);
    TitleConcat(sp, c + (sp + mg), true);
    TitleConcat(c, sp + mg, false);
    TitleConcat(sp, mg, true);
    TitleLowerWord(v, false);
    TitleLowerWord(c, false);
    TitleLowerWord(mg, false);
  }

  lemma CutVitaminC(titled: string, name: string)
    requires titled == "Vitamin C Mg" && name == "Vitamin C"
    ensures Strip(CutUnits(titled)) == name
  {
    assert titled == name + " Mg";
    assert DropSuffix(titled, " Mg") == name;
    assert !EndsWith(name, " Mcg") && !EndsWith(name, " G") && !EndsWith(name, " Iu");
    StripStripped(name);
  }

  // ---------------------------------------------------------------------
  // Flattening

  /** One `nutrient -> value` leaf of a table, with the age and gender keys
      it sits under. */
  datatype Leaf = Leaf(age: string, gender: string, key: string, value: string)

  /** The record a leaf of the file `filename` becomes. */
  function LeafRecord(filename: string, leaf: Leaf): Record {
    Record(Some(PrettyName(leaf.key)), Some(leaf.value), Some(leaf.age), Some(leaf.gender), Some(filename))
  }

  /** The records of a file's leaves, one per leaf, in order. */
  function Render(filename: string, leaves: seq<Leaf>): seq<Record> {
    Seqs.Map(RecordOf(filename), leaves)
  }

  function RecordOf(filename: string): Leaf -> Record {
    (leaf: Leaf) => LeafRecord(filename, leaf)
  }

  lemma RenderAppend(filename: string, leaves: seq<Leaf>, more: seq<Leaf>)
    ensures Render(filename, leaves + more) == Render(filename, leaves) + Render(filename, more)
  {
    Seqs.MapAppend(RecordOf(filename), leaves, more);
  }

  /** A record comes from a leaf list exactly when it is the record of one
      of its leaves. */
  lemma RenderHas(filename: string, leaves: seq<Leaf>, r: Record)
    ensures r in Render(filename, leaves) <==> exists l :: l in leaves && r == LeafRecord(filename, l)
  {
    Seqs.MapHas(RecordOf(filename), leaves, r);
    assert forall l :: RecordOf(filename)(l) == LeafRecord(filename, l);
  }

  function NutrientLeaves(age: string, gender: string, nutrients: seq<(string, string)>): seq<Leaf> {
    seq(|nutrients|, i requires 0 <= i < |nutrients| => Leaf(age, gender, nutrients[i].0, nutrients[i].1))
  }

  /** The leaves of one gender entry: those of a nutrient table, none for
      anything else. */
  function EntryLeaves(age: string, entry: (string, GenderEntry)): seq<Leaf> {
    match entry.1
    case NutrientTable(ns) => NutrientLeaves(age, entry.0, ns)
    case NotATable => []
  }

  function GenderLeaves(age: string, genders: seq<(string, GenderEntry)>): seq<Leaf> {
    if |genders| == 0 then []
    else GenderLeaves(age, genders[..|genders| - 1]) + EntryLeaves(age, genders[|genders| - 1])
  }

  function AgeEntryLeaves(entry: (string, AgeEntry)): seq<Leaf> {
    match entry.1
    case GenderTable(gs) => GenderLeaves(entry.0, gs)
    case NotAGenderTable => []
  }

  function TableLeaves(ages: seq<(string, AgeEntry)>): seq<Leaf> {
    if |ages| == 0 then []
    else TableLeaves(ages[..|ages| - 1]) + AgeEntryLeaves(ages[|ages| - 1])
  }

  /** The leaves of a JSON object file that are read: those of its age
      entries in order, up to the first entry that is not a gender table. */
  function AgeLeaves(ages: seq<(string, AgeEntry)>): seq<Leaf> {
    TableLeaves(ages[..ReadAges(ages)])
  }

  function FileRecords(f: DirEntry): seq<Record> {
    match f.content
    case DictFile(ages) => Render(f.filename, AgeLeaves(ages))
    case ListFile(entries) => entries
    case OtherJson => []
    case Unparsable => []
  }

  /** The records of the `.json` files of a directory, file by file. */
  function DirectoryRecords(entries: seq<DirEntry>): seq<Record> {
    if |entries| == 0 then [] else JsonRecords(entries[0]) + DirectoryRecords(entries[1..])
  }

  /** Only files whose name ends in `.json` are read. */
  function JsonRecords(f: DirEntry): seq<Record> {
    if EndsWith(f.filename, ".json") then FileRecords(f) else []
  }

  /** The number of leading age entries that are gender tables: the part of
      a JSON object file that is read. */
  function ReadAges(ages: seq<(string, AgeEntry)>): (n: nat)
    ensures n <= |ages|
  {
    if |ages| == 0 || ages[0].1.NotAGenderTable? then 0 else 1 + ReadAges(ages[1..])
  }

  /** Below the read count, reading goes on exactly at gender tables. */
  lemma {:induction false} ReadAgesAt(ages: seq<(string, AgeEntry)>, a: nat)
    requires a < |ages| && a <= ReadAges(ages)
    ensures a < ReadAges(ages) <==> ages[a].1.GenderTable?
  {
    if a > 0 {
      ReadAgesAt(ages[1..], a - 1);
      assert ages[1..][a - 1] == ages[a];
    }
  }

  lemma TableLeavesStep(filename: string, ages: seq<(string, AgeEntry)>, a: nat)
    requires a < |ages|
    ensures Render(filename, TableLeaves(ages[..a + 1]))
      == Render(filename, TableLeaves(ages[..a])) + Render(filename, AgeEntryLeaves(ages[a]))
  {
    assert ages[..a + 1][..a] == ages[..a];
    RenderAppend(filename, TableLeaves(ages[..a]), AgeEntryLeaves(ages[a]));
  }

  lemma GenderLeavesStep(filename: string, age: string, genders: seq<(string, GenderEntry)>, g: nat)
    requires g < |genders|
    ensures Render(filename, GenderLeaves(age, genders[..g + 1]))
      == Render(filename, GenderLeaves(age, genders[..g])) + Render(filename, EntryLeaves(age, genders[g]))
  {
    assert genders[..g + 1][..g] == genders[..g];
    RenderAppend(filename, GenderLeaves(age, genders[..g]), EntryLeaves(age, genders[g]));
  }

  lemma NutrientLeavesStep(filename: string, age: string, gender: string, nutrients: seq<(string, string)>, m: nat)
    requires m < |nutrients|
    ensures Render(filename, NutrientLeaves(age, gender, nutrients[..m + 1]))
      == Render(filename, NutrientLeaves(age, gender, nutrients[..m])) + Render(filename, [Leaf(age, gender, nutrients[m].0, nutrients[m].1)])
  {
    var leaf := Leaf(age, gender, nutrients[m].0, nutrients[m].1);
    assert NutrientLeaves(age, gender, nutrients[..m + 1]) == NutrientLeaves(age, gender, nutrients[..m]) + [leaf];
    RenderAppend(filename, NutrientLeaves(age, gender, nutrients[..m]), [leaf]);
  }

  /** `(a, g, m)` names a nutrient leaf of a JSON object file. */
  predicate IsLeaf(ages: seq<(string, AgeEntry)>, a: int, g: int, m: int) {
    && 0 <= a < |ages| && ages[a].1.GenderTable?
    && IsGenderLeaf(ages[a].1.genders, g, m)
  }

  function LeafAt(ages: seq<(string, AgeEntry)>, a: int, g: int, m: int): Leaf
    requires IsLeaf(ages, a, g, m)
  {
    GenderLeafAt(ages[a].0, ages[a].1.genders, g, m)
  }

  /** `(g, m)` names a nutrient leaf under one age key. */
  predicate IsGenderLeaf(genders: seq<(string, GenderEntry)>, g: int, m: int) {
    0 <= g < |genders| && genders[g].1.NutrientTable? && 0 <= m < |genders[g].1.nutrients|
  }

  function GenderLeafAt(age: string, genders: seq<(string, GenderEntry)>, g: int, m: int): Leaf
    requires IsGenderLeaf(genders, g, m)
  {
    var nutrient := genders[g].1.nutrients[m];
    Leaf(age, genders[g].0, nutrient.0, nutrient.1)
  }

  lemma {:induction false} GenderLeavesAreLeaves(age: string, gs: seq<(string, GenderEntry)>, l: Leaf)
    ensures l in GenderLeaves(age, gs) <==> exists g, m :: IsGenderLeaf(gs, g, m) && l == GenderLeafAt(age, gs, g, m)
  {
    if |gs| > 0 {
      var n := |gs| - 1;
      var init := gs[..n];
      GenderLeavesAreLeaves(age, init, l);
      var here := EntryLeaves(age, gs[n]);
      if l in GenderLeaves(age, gs) {
        if l in here {
          var m :| 0 <= m < |here| && here[m] == l;
          assert IsGenderLeaf(gs, n, m) && l == GenderLeafAt(age, gs, n, m);
        } else {
          var g, m :| IsGenderLeaf(init, g, m) && l == GenderLeafAt(age, init, g, m);
          assert init[g] == gs[g];
          assert IsGenderLeaf(gs, g, m) && l == GenderLeafAt(age, gs, g, m);
        }
      }
      if exists g, m :: IsGenderLeaf(gs, g, m) && l == GenderLeafAt(age, gs, g, m) {
        var g, m :| IsGenderLeaf(gs, g, m) && l == GenderLeafAt(age, gs, g, m);
        if g < n {
          assert init[g] == gs[g];
          assert IsGenderLeaf(init, g, m) && l == GenderLeafAt(age, init, g, m);
        } else {
          assert here[m] == l;
        }
      }
    }
  }

  lemma TableLeavesAreLeaves(ages: seq<(string, AgeEntry)>, l: Leaf)
    ensures l in TableLeaves(ages) <==> exists a, g, m :: IsLeaf(ages, a, g, m) && l == LeafAt(ages, a, g, m)
  {
    if l in TableLeaves(ages) {
      TableLeavesSound(ages, l);
    }
    if exists a, g, m :: IsLeaf(ages, a, g, m) && l == LeafAt(ages, a, g, m) {
      var a, g, m :| IsLeaf(ages, a, g, m) && l == LeafAt(ages, a, g, m);
      TableLeavesComplete(ages, a, g, m);
    }
  }

  lemma {:induction false} TableLeavesSound(ages: seq<(string, AgeEntry)>, l: Leaf)
    requires l in TableLeaves(ages)
    ensures exists a, g, m :: IsLeaf(ages, a, g, m) && l == LeafAt(ages, a, g, m)
  {
    var n := |ages| - 1;
    var init := ages[..n];
    if l in AgeEntryLeaves(ages[n]) {
      var gs := ages[n].1.genders;
      GenderLeavesAreLeaves(ages[n].0, gs, l);
      var g, m :| IsGenderLeaf(gs, g, m) && l == GenderLeafAt(ages[n].0, gs, g, m);
      assert IsLeaf(ages, n, g, m) && l == LeafAt(ages, n, g, m);
    } else {
      TableLeavesSound(init, l);
      var a, g, m :| IsLeaf(init, a, g, m) && l == LeafAt(init, a, g, m);
      assert init[a] == ages[a];
      assert IsLeaf(ages, a, g, m) && l == LeafAt(ages, a, g, m);
    }
  }

  lemma {:induction false} TableLeavesComplete(ages: seq<(string, AgeEntry)>, a: int, g: int, m: int)
    requires IsLeaf(ages, a, g, m)
    ensures LeafAt(ages, a, g, m) in TableLeaves(ages)
  {
    var n := |ages| - 1;
    var init := ages[..n];
    if a < n {
      assert init[a] == ages[a];
      assert IsLeaf(init, a, g, m) && LeafAt(ages, a, g, m) == LeafAt(init, a, g, m);
      TableLeavesComplete(init, a, g, m);
    } else {
      var l := LeafAt(ages, a, g, m);
      assert l in AgeEntryLeaves(ages[n]) by {
        GenderLeavesAreLeaves(ages[n].0, ages[n].1.genders, l);
      }
    }
  }

  /** Flattening a JSON object file: a leaf is read from it exactly when it
      is a nutrient leaf under one of the age entries before the first that
      is not a gender table; gender entries that are not tables give
      nothing. */
  lemma AgeLeavesAreLeaves(ages: seq<(string, AgeEntry)>, l: Leaf)
    ensures l in AgeLeaves(ages) <==>
      exists a, g, m :: IsLeaf(ages, a, g, m) && a < ReadAges(ages) && l == LeafAt(ages, a, g, m)
  {
    var n := ReadAges(ages);
    var read := ages[..n];
    assert |read| == n;
    TableLeavesAreLeaves(read, l);
    if l in AgeLeaves(ages) {
      var a, g, m :| IsLeaf(read, a, g, m) && l == LeafAt(read, a, g, m);
      assert read[a] == ages[a];
      assert IsLeaf(ages, a, g, m) && l == LeafAt(ages, a, g, m);
    }
    forall a, g, m | IsLeaf(ages, a, g, m) && a < n && l == LeafAt(ages, a, g, m)
      ensures l in AgeLeaves(ages)
    {
      assert read[a] == ages[a];
      assert IsLeaf(read, a, g, m) && l == LeafAt(read, a, g, m);
    }
  }

  /** The records of a JSON object file are the records of its leaves that
      are read. */
  lemma TableFileRecords(filename: string, ages: seq<(string, AgeEntry)>, r: Record)
    ensures r in FileRecords(DirEntry(filename, DictFile(ages))) <==>
      exists a, g, m :: IsLeaf(ages, a, g, m) && a < ReadAges(ages) && r == LeafRecord(filename, LeafAt(ages, a, g, m))
  {
    RenderHas(filename, AgeLeaves(ages), r);
    if r in FileRecords(DirEntry(filename, DictFile(ages))) {
      var l :| l in AgeLeaves(ages) && r == LeafRecord(filename, l);
      AgeLeavesAreLeaves(ages, l);
    }
    if exists a, g, m :: IsLeaf(ages, a, g, m) && a < ReadAges(ages) && r == LeafRecord(filename, LeafAt(ages, a, g, m)) {
      var a, g, m :| IsLeaf(ages, a, g, m) && a < ReadAges(ages) && r == LeafRecord(filename, LeafAt(ages, a, g, m));
      AgeLeavesAreLeaves(ages, LeafAt(ages, a, g, m));
    }
  }

  // ---------------------------------------------------------------------
  // Scoring and ranking

  /** The 20/10/5 score of a record against a lower-cased query: 20 when
      the lower-cased name occurs in the query; 10 when the query and name
      share two words, or share one and the name has no "vitamin"; 5 when
      the record's gender (as written) occurs in the query. */
  function RecordScore(query: string, d: Record): nat {
    var name := Lower(d.name.GetOr(""));
    NameBonus(query, name) + OverlapBonus(query, name) + GenderBonus(query, d.gender.GetOr(""))
  }

  function NameBonus(query: string, name: string): nat {
    if IsSubstring(name, query) then 20 else 0
  }

  function OverlapBonus(query: string, name: string): nat {
    var shared := Tokens(query) * Tokens(name);
    if |shared| >= 2 || (!IsSubstring("vitamin", name) && |shared| >= 1) then 10 else 0
  }

  function GenderBonus(query: string, gender: string): nat {
    if IsSubstring(gender, query) then 5 else 0
  }

  /** The `(score, record)` pairs with a positive score, in record order. */
  function PositiveScored(query: string, docs: seq<Record>): seq<(nat, Record)> {
    if |docs| == 0 then []
    else
      var d := docs[|docs| - 1];
      PositiveScored(query, docs[..|docs| - 1]) + (if RecordScore(query, d) > 0 then [(RecordScore(query, d), d)] else [])
  }

  /** Exactly the records with a positive score are kept, each with its score. */
  lemma {:induction false} PositiveScoredPairs(query: string, docs: seq<Record>)
    ensures forall p :: p in PositiveScored(query, docs) ==> p.1 in docs && p.0 == RecordScore(query, p.1) > 0
    ensures forall d :: d in docs && RecordScore(query, d) > 0 ==> (RecordScore(query, d), d) in PositiveScored(query, docs)
  {
    if |docs| > 0 {
      var init := docs[..|docs| - 1];
      PositiveScoredPairs(query, init);
      assert docs == init + [docs[|docs| - 1]];
    }
  }

  /** The records `search(query, k)` returns. */
  function SearchResults(query: string, docs: seq<Record>, k: nat): seq<Record> {
    Ranking.Items(Ranking.Take(Ranking.Rank(PositiveScored(Lower(query), docs)), k))
  }

  /** At most `k` results, each a record with a positive score. */
  lemma SearchResultsScorePositive(query: string, docs: seq<Record>, k: nat)
    ensures |SearchResults(query, docs, k)| <= k
    ensures forall d :: d in SearchResults(query, docs, k) ==> d in docs && RecordScore(Lower(query), d) > 0
  {
    var q := Lower(query);
    var sorted := Ranking.Rank(PositiveScored(q, docs));
    PositiveScoredPairs(q, docs);
    var r := SearchResults(query, docs, k);
    forall d | d in r
      ensures d in docs && RecordScore(q, d) > 0
    {
      var j :| 0 <= j < |r| && r[j] == d;
      InRanked(q, docs, sorted[j]);
    }
  }

  lemma InRanked(q: string, docs: seq<Record>, p: (nat, Record))
    requires p in Ranking.Rank(PositiveScored(q, docs))
    ensures p in PositiveScored(q, docs)
    ensures p.1 in docs && p.0 == RecordScore(q, p.1) > 0
  {
    assert p in multiset(Ranking.Rank(PositiveScored(q, docs)));
    PositiveScoredPairs(q, docs);
  }

  /** Results come in descending score order. */
  lemma SearchResultsDescending(query: string, docs: seq<Record>, k: nat)
    ensures var r := SearchResults(query, docs, k);
      forall i, j :: 0 <= i < j < |r| ==> RecordScore(Lower(query), r[i]) >= RecordScore(Lower(query), r[j])
  {
    var q := Lower(query);
    var scored := PositiveScored(q, docs);
    var sorted := Ranking.Rank(scored);
    var r := SearchResults(query, docs, k);
    Ranking.RankSorted(scored);
    forall i, j | 0 <= i < j < |r|
      ensures RecordScore(q, r[i]) >= RecordScore(q, r[j])
    {
      InRanked(q, docs, sorted[i]);
      InRanked(q, docs, sorted[j]);
      assert Ranking.ByScore(sorted[i], sorted[j]);
    }
  }

  /** With `k >= 1`, a search finds something whenever some record scores,
      and its first result has the best score of all records. */
  lemma SearchResultsTopIsBest(query: string, docs: seq<Record>, k: nat, d: Record)
    requires d in docs && RecordScore(Lower(query), d) > 0 && k > 0
    ensures var r := SearchResults(query, docs, k);
      |r| > 0 && RecordScore(Lower(query), r[0]) >= RecordScore(Lower(query), d)
  {
    var q := Lower(query);
    var scored := PositiveScored(q, docs);
    var sorted := Ranking.Rank(scored);
    Ranking.RankSorted(scored);
    PositiveScoredPairs(q, docs);
    assert (RecordScore(q, d), d) in multiset(sorted);
    var j :| 0 <= j < |sorted| && sorted[j] == (RecordScore(q, d), d);
    Ranking.FirstIsLargest(sorted, j);
    InRanked(q, docs, sorted[0]);
  }

  /** The search returns the top `k`: a positively scoring record is left
      out only when `k` results came back, each scoring at least as much as
      it. So fewer than `k` results means every scoring record is there. */
  lemma SearchResultsTopK(query: string, docs: seq<Record>, k: nat, d: Record)
    requires d in docs && RecordScore(Lower(query), d) > 0
    ensures var r := SearchResults(query, docs, k);
      d !in r ==>
        && |r| == k
        && forall i :: 0 <= i < |r| ==> RecordScore(Lower(query), r[i]) >= RecordScore(Lower(query), d)
  {
    var q := Lower(query);
    var scored := PositiveScored(q, docs);
    var sorted := Ranking.Rank(scored);
    var r := SearchResults(query, docs, k);
    PositiveScoredPairs(q, docs);
    assert (RecordScore(q, d), d) in multiset(sorted);
    var j :| 0 <= j < |sorted| && sorted[j] == (RecordScore(q, d), d);
    assert r == Ranking.Items(sorted[..|r|]);
    if j < |r| {
      assert r[j] == d;
    } else {
      Ranking.RankSorted(scored);
      forall i | 0 <= i < |r|
        ensures RecordScore(q, r[i]) >= RecordScore(q, d)
      {
        assert Ranking.ByScore(sorted[i], sorted[j]);
        InRanked(q, docs, sorted[i]);
      }
    }
  }

  /** Records with equal scores keep their load order: for every score `s`,
      the results scoring `s` are the first few records scoring `s`. */
  lemma SearchResultsStable(query: string, docs: seq<Record>, k: nat, s: nat)
    ensures Ranking.IsPrefix(
      Ranking.WithScore(PositiveScored(Lower(query), SearchResults(query, docs, k)), s),
      Ranking.WithScore(PositiveScored(Lower(query), docs), s))
  {
    var q := Lower(query);
    var scored := PositiveScored(q, docs);
    var sorted := Ranking.Rank(scored);
    var r := SearchResults(query, docs, k);
    var head := sorted[..|r|];
    assert r == Ranking.Items(head);
    forall p | p in head
      ensures p.0 == RecordScore(q, p.1) > 0
    {
      InRanked(q, docs, p);
    }
    RescoreItems(q, head);
    Ranking.WithScoreOfPrefix(sorted, |r|, s);
    Ranking.RankKeepsTieOrder(scored, s, Record(None, None, None, None, None));
  }

  /** Scoring the records of a list of correctly scored positive pairs gives
      that list back. */
  lemma {:induction false} RescoreItems(q: string, ps: seq<(nat, Record)>)
    requires forall p :: p in ps ==> p.0 == RecordScore(q, p.1) > 0
    ensures PositiveScored(q, Ranking.Items(ps)) == ps
  {
    if |ps| > 0 {
      var init, last := ps[..|ps| - 1], ps[|ps| - 1];
      var items := Ranking.Items(ps);
      assert items[..|ps| - 1] == Ranking.Items(init);
      assert last in ps;
      forall p | p in init
        ensures p.0 == RecordScore(q, p.1) > 0
      {
        assert p in ps;
      }
      RescoreItems(q, init);
      assert PositiveScored(q, items) == PositiveScored(q, Ranking.Items(init)) + [(last.0, last.1)];
      assert ps == init + [last];
    }
  }

  /** The words of "vitamin c" and "vitamin a". */
  lemma VitaminTokens(q: string, v: string, c: string)
    requires v == "vitamin" && (c == "c" || c == "a") && q == v + " " + c
    ensures Tokens(q) == {v, c}
  {
    SplitWordFirst(v, " " + c);
    SplitSpaceFirst(' ', c);
    SplitWordFirst(c, "");
    assert q == v + (" " + c) && c + "" == c;
  }

  lemma VitaminCBonuses(q: string, n: string)
    requires q == "vitamin c" && n == "vitamin c"
    ensures NameBonus(q, n) == 20 && OverlapBonus(q, n) == 10
  {
    VitaminTokens(q, "vitamin", "c");
    assert Tokens(q) * Tokens(n) == {"vitamin", "c"};
    assert |{"vitamin", "c"}| == 2;
    SubstringOfSelf(q);
  }

  lemma VitaminABonuses(q: string, n: string)
    requires q == "vitamin c" && n == "vitamin a"
    ensures NameBonus(q, n) == 0 && OverlapBonus(q, n) == 0
  {
    VitaminTokens(q, "vitamin", "c");
    VitaminTokens(n, "vitamin", "a");
    assert {"vitamin", "c"} * {"vitamin", "a"} == {"vitamin"};
    SubstringAt("vitamin", n, 0);
    assert !IsSubstring(n, q) by {
      assert !OccursAt(n, q, 0) by {
        assert q[8] != n[8];
      }
    }
  }

  lemma LowerName(name: string, lowered: string)
    requires name == "Vitamin C" || name == "vitamin c" || name == "Vitamin A"
    requires lowered == if name == "Vitamin A" then "vitamin a" else "vitamin c"
    ensures Lower(name) == lowered
  {
  }

  /** The query "vitamin c" gives a "Vitamin C" record at least 30 points. */
  lemma VitaminCScore(c: Record)
    requires c.name == Some("Vitamin C")
    ensures RecordScore("vitamin c", c) >= 30
  {
    LowerName("Vitamin C", "vitamin c");
    VitaminCBonuses("vitamin c", "vitamin c");
  }

  /** ... and a "Vitamin A" record at most the 5-point gender bonus. */
  lemma VitaminAScore(a: Record)
    requires a.name == Some("Vitamin A")
    ensures RecordScore("vitamin c", a) <= 5
  {
    LowerName("Vitamin A", "vitamin a");
    VitaminABonuses("vitamin c", "vitamin a");
  }

  /** When some record scores more than the 5-point gender bonus, no record
      that can score at most that bonus comes first. */
  lemma BestBeatsGenderOnly(query: string, docs: seq<Record>, k: nat, c: Record, weak: string)
    requires c in docs && RecordScore(Lower(query), c) > 5 && k > 0
    requires forall d: Record :: d.name == Some(weak) ==> RecordScore(Lower(query), d) <= 5
    ensures var r := SearchResults(query, docs, k); |r| > 0 && r[0].name != Some(weak)
  {
    SearchResultsTopIsBest(query, docs, k, c);
  }

  /** So for "vitamin c", a store holding a "Vitamin C" record never puts a
      "Vitamin A" record first. */
  lemma VitaminCRanksFirst(docs: seq<Record>, c: Record, k: nat)
    requires c in docs && c.name == Some("Vitamin C") && k > 0
    ensures var r := SearchResults("vitamin c", docs, k); |r| > 0 && r[0].name != Some("Vitamin A")
  {
    VitaminCScore(c);
    LowerName("vitamin c", "vitamin c");
    VitaminAAtMostGender();
    BestBeatsGenderOnly("vitamin c", docs, k, c, "Vitamin A");
  }

  lemma VitaminAAtMostGender()
    ensures forall d: Record :: d.name == Some("Vitamin A") ==> RecordScore(Lower("vitamin c"), d) <= 5
  {
    LowerName("vitamin c", "vitamin c");
    forall d: Record | d.name == Some("Vitamin A")
      ensures RecordScore("vitamin c", d) <= 5
    {
      VitaminAScore(d);
    }
  }

  // ---------------------------------------------------------------------
  // The store

  class DietaryVectorStore {
    var documents: seq<Record>

    /** Loads the `.json` files of the directory, if it exists. */
    constructor (directory: Option<seq<DirEntry>>)
      ensures documents == (if directory.Some? then DirectoryRecords(directory.value) else [])
    {
      documents := [];
      new;
      if directory.Some? {
        LoadData(directory.value);
      }
    }

    /** Appends the records of every `.json` file, in directory order. A file
        that does not parse contributes nothing; a JSON object file stops at
        its first age entry that is not a table, keeping what it appended
        before. */
    method LoadData(entries: seq<DirEntry>)
      modifies this
      ensures documents == old(documents) + DirectoryRecords(entries)
    {
      var i := 0;
      while i < |entries|
        invariant 0 <= i <= |entries|
        invariant documents + DirectoryRecords(entries[i..]) == old(documents) + DirectoryRecords(entries)
      {
        assert entries[i..][1..] == entries[i + 1..];
        ghost var before := documents;
        LoadFile(entries[i]);
        Seqs.AppendAssoc(before, JsonRecords(entries[i]), DirectoryRecords(entries[i + 1..]));
        i := i + 1;
      }
      assert entries[i..] == [];
    }

    /** The body of the loop over the directory: one file. */
    method LoadFile(f: DirEntry)
      modifies this
      ensures documents == old(documents) + JsonRecords(f)
    {
      if EndsWith(f.filename, ".json") {
        match f.content {
          case DictFile(ages) =>
            LoadTable(f.filename, ages);
          case ListFile(list) =>
            documents := documents + list;
          case OtherJson =>
          case Unparsable =>
        }
      }
    }

    /** The outer loop over the age entries of one JSON object file. */
    method LoadTable(filename: string, ages: seq<(string, AgeEntry)>)
      modifies this
      ensures documents == old(documents) + Render(filename, AgeLeaves(ages))
    {
      var a := 0;
      while a < |ages| && ages[a].1.GenderTable?
        invariant a <= ReadAges(ages)
        invariant documents == old(documents) + Render(filename, TableLeaves(ages[..a]))
      {
        ReadAgesAt(ages, a);
        LoadAge(filename, ages[a]);
        TableLeavesStep(filename, ages, a);
        Seqs.AppendAssoc(old(documents), Render(filename, TableLeaves(ages[..a])), Render(filename, AgeEntryLeaves(ages[a])));
        a := a + 1;
      }
      if a < |ages| {
        ReadAgesAt(ages, a);
      }
    }

    /** One age entry that is a gender table. */
    method LoadAge(filename: string, entry: (string, AgeEntry))
      requires entry.1.GenderTable?
      modifies this
      ensures documents == old(documents) + Render(filename, AgeEntryLeaves(entry))
    {
      LoadGenders(filename, entry.0, entry.1.genders);
    }

    /** The middle loop over the gender entries of one age group. */
    method LoadGenders(filename: string, age: string, genders: seq<(string, GenderEntry)>)
      modifies this
      ensures documents == old(documents) + Render(filename, GenderLeaves(age, genders))
    {
      var g := 0;
      while g < |genders|
        invariant 0 <= g <= |genders|
        invariant documents == old(documents) + Render(filename, GenderLeaves(age, genders[..g]))
      {
        LoadEntry(filename, age, genders[g]);
        GenderLeavesStep(filename, age, genders, g);
        Seqs.AppendAssoc(old(documents), Render(filename, GenderLeaves(age, genders[..g])), Render(filename, EntryLeaves(age, genders[g])));
        g := g + 1;
      }
      assert genders[..g] == genders;
    }

    /** One gender entry: a nutrient table is loaded, anything else skipped. */
    method LoadEntry(filename: string, age: string, entry: (string, GenderEntry))
      modifies this
      ensures documents == old(documents) + Render(filename, EntryLeaves(age, entry))
    {
      if entry.1.NutrientTable? {
        LoadNutrients(filename, age, entry.0, entry.1.nutrients);
      } else {
        assert Render(filename, EntryLeaves(age, entry)) == [];
      }
    }

    /** The inner loop over one nutrient table. */
    method LoadNutrients(filename: string, age: string, gender: string, nutrients: seq<(string, string)>)
      modifies this
      ensures documents == old(documents) + Render(filename, NutrientLeaves(age, gender, nutrients))
    {
      var m := 0;
      while m < |nutrients|
        invariant 0 <= m <= |nutrients|
        invariant documents == old(documents) + Render(filename, NutrientLeaves(age, gender, nutrients[..m]))
      {
        var leaf := Leaf(age, gender, nutrients[m].0, nutrients[m].1);
        AppendLeaf(filename, leaf);
        NutrientLeavesStep(filename, age, gender, nutrients, m);
        Seqs.AppendAssoc(old(documents), Render(filename, NutrientLeaves(age, gender, nutrients[..m])), Render(filename, [leaf]));
        m := m + 1;
      }
      assert nutrients[..m] == nutrients;
    }

    /** The body of the inner loop: one leaf becomes one record. */
    method AppendLeaf(filename: string, leaf: Leaf)
      modifies this
      ensures documents == old(documents) + Render(filename, [leaf])
    {
      var prettyName := CleanName(leaf.key);
      var doc := Record(Some(prettyName), Some(leaf.value), Some(leaf.age), Some(leaf.gender), Some(filename));
      documents := documents + [doc];
    }

    /** The name cleaning of the inner loop. */
    static method CleanName(key: string) returns (name: string)
      ensures name == PrettyName(key)
    {
      var prettyName := Title(Replace(key, "_", " "));
      var suffixes := UnitSuffixes;
      var t := 0;
      while t < |suffixes|
        invariant 0 <= t <= |suffixes|
        invariant prettyName == DropSuffixes(Title(Replace(key, "_", " ")), suffixes[..t])
      {
        if EndsWith(prettyName, suffixes[t]) {
          prettyName := prettyName[..|prettyName| - |suffixes[t]|];
        }
        assert suffixes[..t + 1][..t] == suffixes[..t];
        t := t + 1;
      }
      assert suffixes[..t] == suffixes;
      FourSuffixes(Title(Replace(key, "_", " ")), " Mg", " Mcg", " G", " Iu");
      name := Strip(prettyName);
    }

    /** Scores every record against the lower-cased query, keeps the positive
        ones, sorts them stably by score and returns the first `k`. The
        records are not changed. */
    method Search(query: string, k: nat) returns (results: seq<Record>)
      ensures results == SearchResults(query, documents, k)
    {
      var q := Lower(query);
      var scored: seq<(nat, Record)> := [];
      var i := 0;
      while i < |documents|
        invariant 0 <= i <= |documents|
        invariant scored == PositiveScored(q, documents[..i])
      {
        var doc := documents[i];
        var score := RecordScore(q, doc);
        if score > 0 {
          scored := scored + [(score, doc)];
        }
        assert documents[..i + 1][..i] == documents[..i];
        i := i + 1;
      }
      assert documents[..i] == documents;
      results := Ranking.Items(Ranking.Take(Ranking.Rank(scored), k));
    }
  }
}
