/**
 * `getStats` (src/context/DataContext.js): key counts, resource and video
 * totals, and a three-language breakdown.
 *
 * The specification lists the language tag of every counted item, in the
 * order the source visits them: a textbook is tagged with its medium key,
 * a paper or a video with its `language` field. Notes are not counted.
 */
module Stats {
  import opened Wrappers
  import opened Dicts
  import opened Seqs
  import opened Catalog
  import opened Reducer

  /** The language tag of one counted item; `None` for a missing `language`. */
  type Tag = Option<Value>

  datatype Breakdown = Breakdown(sinhala: nat, tamil: nat, english: nat)

  const NoLanguages := Breakdown(0, 0, 0)

  function BreakdownSum(b: Breakdown): nat {
    b.sinhala + b.tamil + b.english
  }

  datatype StatsView = StatsView(totalGrades: nat, totalSubjects: nat, totalResources: nat, totalVideos: nat,
                                 languageBreakdown: Breakdown)

  /**
   * `if (tag && stats.languageBreakdown[tag] !== undefined) stats.languageBreakdown[tag]++`:
   * only a truthy tag naming one of the three counters moves one of them.
   */
  function Bump(b: Breakdown, t: Tag): (r: Breakdown)
    ensures BreakdownSum(r) <= BreakdownSum(b) + 1
    ensures t !in [Some(Str("sinhala")), Some(Str("tamil")), Some(Str("english"))] ==> r == b
  {
    if Falsy(t) || !t.value.Str? then b
    else if t.value.s == "sinhala" then b.(sinhala := b.sinhala + 1)
    else if t.value.s == "tamil" then b.(tamil := b.tamil + 1)
    else if t.value.s == "english" then b.(english := b.english + 1)
    else b
  }

  /** The counters after visiting `tags` in order. */
  function Tally(b: Breakdown, tags: seq<Tag>): Breakdown
    decreases |tags|
  {
    if tags == [] then b else Bump(Tally(b, tags[..|tags| - 1]), tags[|tags| - 1])
  }

  /** The concatenation of `f(key, value)` over the entries of `d`, in key order. */
  function Flatten<V>(d: seq<(string, V)>, f: (string, V) -> seq<Tag>): seq<Tag>
    decreases |d|
  {
    if d == [] then [] else Flatten(d[..|d| - 1], f) + f(d[|d| - 1].0, d[|d| - 1].1)
  }

  /** The `language` tags of a list of papers or videos. */
  function ItemTags(items: seq<Record>): (r: seq<Tag>)
    ensures |r| == |items|
    ensures forall i :: 0 <= i < |items| ==> r[i] == LanguageOf(items[i])
    decreases |items|
  {
    if items == [] then [] else ItemTags(items[..|items| - 1]) + [LanguageOf(items[|items| - 1])]
  }

  /** A textbook counts under its medium key. */
  function MediumTag(medium: string, textbook: Record): seq<Tag> {
    [Some(Str(medium))]
  }

  /** An entry of `terms` or `chapters`: each paper of an array, nothing otherwise. */
  function EntryTags(key: string, e: Entry): seq<Tag> {
    if e.Arr? then ItemTags(e.items) else []
  }

  /** The counted items of one bundle: textbooks, then term papers, then chapter papers. */
  function BundleTags(b: Bundle): seq<Tag> {
    (if b.textbooks.Some? then Flatten(b.textbooks.value, MediumTag) else [])
    + (if b.papers.Some? then
         (if b.papers.value.terms.Some? then Flatten(b.papers.value.terms.value, EntryTags) else [])
         + (if b.papers.value.chapters.Some? then Flatten(b.papers.value.chapters.value, EntryTags) else [])
       else [])
  }

  function SubjectBundleTags(sub: string, b: Bundle): seq<Tag> {
    BundleTags(b)
  }

  function GradeResourceTags(g: string, bundles: Dict<Bundle>): seq<Tag> {
    Flatten(bundles, SubjectBundleTags)
  }

  /** Every counted resource of the catalog, grade by grade and subject by subject. */
  function ResourceTags(resources: Dict<Dict<Bundle>>): seq<Tag> {
    Flatten(resources, GradeResourceTags)
  }

  function SubjectVideoTags(sub: string, videos: seq<Record>): seq<Tag> {
    ItemTags(videos)
  }

  function GradeVideoTags(g: string, videos: Dict<seq<Record>>): seq<Tag> {
    Flatten(videos, SubjectVideoTags)
  }

  /** Every video of the catalog, grade by grade and subject by subject. */
  function VideoTags(videos: Dict<Dict<seq<Record>>>): seq<Tag> {
    Flatten(videos, GradeVideoTags)
  }

  /** The specification of `getStats`. */
  function StatsOf(s: State): StatsView {
    var rt := ResourceTags(s.resources);
    var vt := VideoTags(s.videos);
    StatsView(|s.grades|, |s.subjects|, |rt|, |vt|, Tally(NoLanguages, rt + vt))
  }

  // ---------------------------------------------------------------- the loops

  /** A running total and the language counters. */
  datatype Counts = Counts(total: nat, breakdown: Breakdown)

  /** The counts after visiting `tags`. */
  function Add(c: Counts, tags: seq<Tag>): Counts {
    Counts(c.total + |tags|, Tally(c.breakdown, tags))
  }

  lemma {:induction false} TallyConcat(b: Breakdown, x: seq<Tag>, y: seq<Tag>)
    ensures Tally(b, x + y) == Tally(Tally(b, x), y)
    decreases |y|
  {
    if y == [] {
      assert x + y == x;
    } else {
      assert (x + y)[..|x + y| - 1] == x + y[..|y| - 1];
      TallyConcat(b, x, y[..|y| - 1]);
    }
  }

  lemma AddConcat(c: Counts, x: seq<Tag>, y: seq<Tag>)
    ensures Add(Add(c, x), y) == Add(c, x + y)
  {
    TallyConcat(c.breakdown, x, y);
  }

  lemma FlattenStep<V>(d: seq<(string, V)>, i: nat, f: (string, V) -> seq<Tag>)
    requires i < |d|
    ensures Flatten(d[..i + 1], f) == Flatten(d[..i], f) + f(d[i].0, d[i].1)
  {
    assert d[..i + 1][..i] == d[..i];
  }

  /** Visit a list of papers or videos: one more item each, and its `language` tag. */
  method CountItems(items: seq<Record>, c: Counts) returns (r: Counts)
    ensures r == Add(c, ItemTags(items))
  {
    r := c;
    var i := 0;
    while i < |items|
      invariant 0 <= i <= |items|
      invariant r == Add(c, ItemTags(items[..i]))
    {
      assert items[..i + 1][..i] == items[..i];
      AddConcat(c, ItemTags(items[..i]), [LanguageOf(items[i])]);
      r := Counts(r.total + 1, Bump(r.breakdown, LanguageOf(items[i])));
      i := i + 1;
    }
    assert items[..i] == items;
  }

  /** Visit `Object.keys(textbooks)`: one more resource for each medium, counted under the medium key. */
  method CountTextbooks(textbooks: Dict<Record>, c: Counts) returns (r: Counts)
    ensures r == Add(c, Flatten(textbooks, MediumTag))
  {
    r := c;
    var i := 0;
    while i < |textbooks|
      invariant 0 <= i <= |textbooks|
      invariant r == Add(c, Flatten(textbooks[..i], MediumTag))
    {
      var (medium, _) := textbooks[i];
      FlattenStep(textbooks, i, MediumTag);
      AddConcat(c, Flatten(textbooks[..i], MediumTag), [Some(Str(medium))]);
      r := Counts(r.total + 1, Bump(r.breakdown, Some(Str(medium))));
      i := i + 1;
    }
    assert textbooks[..i] == textbooks;
  }

  /** Visit the entries of `terms` or `chapters`, skipping the ones that are not arrays. */
  method CountGroup(group: Dict<Entry>, c: Counts) returns (r: Counts)
    ensures r == Add(c, Flatten(group, EntryTags))
  {
    r := c;
    var i := 0;
    while i < |group|
      invariant 0 <= i <= |group|
      invariant r == Add(c, Flatten(group[..i], EntryTags))
    {
      FlattenStep(group, i, EntryTags);
      AddConcat(c, Flatten(group[..i], EntryTags), EntryTags(group[i].0, group[i].1));
      if group[i].1.Arr? {
        r := CountItems(group[i].1.items, r);
      }
      i := i + 1;
    }
    assert group[..i] == group;
  }

  /** Visit one bundle: its textbooks when present, then its term and chapter papers when present. */
  method CountBundle(b: Bundle, c: Counts) returns (r: Counts)
    ensures r == Add(c, BundleTags(b))
  {
    r := c;
    var textbookTags := if b.textbooks.Some? then Flatten(b.textbooks.value, MediumTag) else [];
    if b.textbooks.Some? {
      r := CountTextbooks(b.textbooks.value, r);
    }
    var termTags: seq<Tag> := [];
    var chapterTags: seq<Tag> := [];
    if b.papers.Some? {
      if b.papers.value.terms.Some? {
        termTags := Flatten(b.papers.value.terms.value, EntryTags);
        r := CountGroup(b.papers.value.terms.value, r);
      }
      if b.papers.value.chapters.Some? {
        chapterTags := Flatten(b.papers.value.chapters.value, EntryTags);
        r := CountGroup(b.papers.value.chapters.value, r);
      }
    }
    AddConcat(c, textbookTags, termTags);
    AddConcat(c, textbookTags + termTags, chapterTags);
    assert BundleTags(b) == textbookTags + (termTags + chapterTags);
    ConcatAssoc(textbookTags, termTags, chapterTags);
  }

  /** Visit every bundle of the catalog, grade by grade and subject by subject. */
  method CountResources(resources: Dict<Dict<Bundle>>, c: Counts) returns (r: Counts)
    ensures r == Add(c, ResourceTags(resources))
  {
    r := c;
    var i := 0;
    while i < |resources|
      invariant 0 <= i <= |resources|
      invariant r == Add(c, Flatten(resources[..i], GradeResourceTags))
    {
      var (g, bundles) := resources[i];
      var before := Flatten(resources[..i], GradeResourceTags);
      var j := 0;
      assert before + Flatten(bundles[..0], SubjectBundleTags) == before;
      while j < |bundles|
        invariant 0 <= j <= |bundles|
        invariant r == Add(c, before + Flatten(bundles[..j], SubjectBundleTags))
      {
        FlattenStep(bundles, j, SubjectBundleTags);
        var next := CountBundle(bundles[j].1, r);
        AddConcat(c, before + Flatten(bundles[..j], SubjectBundleTags), BundleTags(bundles[j].1));
        ConcatAssoc(before, Flatten(bundles[..j], SubjectBundleTags), BundleTags(bundles[j].1));
        r := next;
        j := j + 1;
      }
      assert bundles[..j] == bundles;
      FlattenStep(resources, i, GradeResourceTags);
      i := i + 1;
    }
    assert resources[..i] == resources;
  }

  /** Visit every list of videos of the catalog, grade by grade and subject by subject. */
  method CountVideos(videos: Dict<Dict<seq<Record>>>, c: Counts) returns (r: Counts)
    ensures r == Add(c, VideoTags(videos))
  {
    r := c;
    var i := 0;
    while i < |videos|
      invariant 0 <= i <= |videos|
      invariant r == Add(c, Flatten(videos[..i], GradeVideoTags))
    {
      var (g, lists) := videos[i];
      var before := Flatten(videos[..i], GradeVideoTags);
      var j := 0;
      assert before + Flatten(lists[..0], SubjectVideoTags) == before;
      while j < |lists|
        invariant 0 <= j <= |lists|
        invariant r == Add(c, before + Flatten(lists[..j], SubjectVideoTags))
      {
        FlattenStep(lists, j, SubjectVideoTags);
        var next := CountItems(lists[j].1, r);
        AddConcat(c, before + Flatten(lists[..j], SubjectVideoTags), ItemTags(lists[j].1));
        ConcatAssoc(before, Flatten(lists[..j], SubjectVideoTags), ItemTags(lists[j].1));
        r := next;
        j := j + 1;
      }
      assert lists[..j] == lists;
      FlattenStep(videos, i, GradeVideoTags);
      i := i + 1;
    }
    assert videos[..i] == videos;
  }

  /** `getStats()`: the resource loops feed `totalResources`, the video loops `totalVideos`; both feed the breakdown. */
  method GetStats(s: State) returns (st: StatsView)
    ensures st == StatsOf(s)
  {
    var resources := CountResources(s.resources, Counts(0, NoLanguages));
    var videos := CountVideos(s.videos, Counts(0, resources.breakdown));
    TallyConcat(NoLanguages, ResourceTags(s.resources), VideoTags(s.videos));
    st := StatsView(|s.grades|, |s.subjects|, resources.total, videos.total, videos.breakdown);
  }

  // --------------------------------------------------------------- properties

  /** The three languages the breakdown counts. */
  const Languages := ["sinhala", "tamil", "english"]

  /** `languageBreakdown[lang]` for one of the three languages. */
  function CounterOf(b: Breakdown, lang: string): nat {
    if lang == "sinhala" then b.sinhala else if lang == "tamil" then b.tamil else b.english
  }

  /** Whether a tag names `lang`. */
  function Names(lang: string): Tag -> bool {
    (t: Tag) => t == Some(Str(lang))
  }

  lemma BumpCounter(b: Breakdown, t: Tag, lang: string)
    requires lang in Languages
    ensures CounterOf(Bump(b, t), lang) == CounterOf(b, lang) + (if t == Some(Str(lang)) then 1 else 0)
  {
  }

  /** Each counter is the number of tags naming its language. */
  lemma {:induction false} TallyCounts(tags: seq<Tag>, lang: string)
    requires lang in Languages
    ensures CounterOf(Tally(NoLanguages, tags), lang) == |Filter(tags, Names(lang))|
    decreases |tags|
  {
    if tags != [] {
      var front := tags[..|tags| - 1];
      var last := tags[|tags| - 1];
      TallyCounts(front, lang);
      BumpCounter(Tally(NoLanguages, front), last, lang);
      assert tags == front + [last];
      FilterConcat(front, [last], Names(lang));
    }
  }

  /** The counters never move by more than the number of tags visited. */
  lemma {:induction false} TallyBound(b: Breakdown, tags: seq<Tag>)
    ensures BreakdownSum(Tally(b, tags)) <= BreakdownSum(b) + |tags|
    decreases |tags|
  {
    if tags != [] {
      TallyBound(b, tags[..|tags| - 1]);
    }
  }

  /** The three language counters add up to at most `totalResources + totalVideos`. */
  lemma BreakdownAtMostTotals(s: State)
    ensures var st := StatsOf(s);
            BreakdownSum(st.languageBreakdown) <= st.totalResources + st.totalVideos
  {
    TallyBound(NoLanguages, ResourceTags(s.resources) + VideoTags(s.videos));
  }

  /** Grades and subjects with nothing filed: every count but the key counts is zero. */
  lemma EmptyCatalog(s: State)
    requires s.resources == [] && s.videos == []
    ensures StatsOf(s) == StatsView(|s.grades|, |s.subjects|, 0, 0, NoLanguages)
  {
    assert ResourceTags(s.resources) + VideoTags(s.videos) == [];
  }

  /** The seeded catalog: 7 grades, 10 subjects, nothing filed. */
  lemma DefaultCatalogStats(s: State, now: string)
    ensures StatsOf(Overlay(s, DefaultData(now))) == StatsView(7, 10, 0, 0, NoLanguages)
  {
    EmptyCatalog(Overlay(s, DefaultData(now)));
  }

  /** Notes never count: replacing a bundle's notes leaves its counted items alone. */
  lemma NotesNotCounted(b: Bundle, notes: Option<Dict<Record>>)
    ensures BundleTags(b.(notes := notes)) == BundleTags(b)
  {
  }

  /** A catalog with textbooks filed in one place only. */
  function OnePlace(g: string, sub: string, tb: Dict<Record>): Dict<Dict<Bundle>> {
    [(g, [(sub, Bundle(Some(tb), None, None))])]
  }

  /** Two textbooks under two different mediums, in filing order. */
  function TwoMediums(m1: string, r1: Record, m2: string, r2: Record): Dict<Record>
    requires m1 != m2
  {
    [(m1, r1), (m2, r2)]
  }

  /** A first medium set in an empty catalog makes a one-place catalog. */
  lemma FirstInEmpty(g: string, sub: string, m: string, rec: Record)
    ensures var noGrades: Dict<Dict<Bundle>> := [];
            SetIn(noGrades, g, sub, WithTextbook(None, m, rec)) == OnePlace(g, sub, [(m, rec)])
  {
    var none: Dict<Record> := [];
    assert Set(none, m, rec) == [(m, rec)];
    var b := Bundle(Some([(m, rec)]), None, None);
    assert WithTextbook(None, m, rec) == b;
    var noBundles: Dict<Bundle> := [];
    var inner: Dict<Bundle> := [(sub, b)];
    assert Set(noBundles, sub, b) == inner;
    var noGrades: Dict<Dict<Bundle>> := [];
    assert Get(noGrades, g).GetOr([]) == noBundles;
    assert Set(noGrades, g, inner) == OnePlace(g, sub, [(m, rec)]);
  }

  /** The first textbook filed in an empty catalog. */
  lemma FirstTextbook(s: State, g: string, sub: string, m: string, f: Record, t: string)
    requires s.resources == []
    ensures AddTextbookTo(s, g, sub, m, f, t).resources == OnePlace(g, sub, [(m, TextbookRecord(f, m, t))])
  {
    assert GetIn(s.resources, g, sub) == None;
    FirstInEmpty(g, sub, m, TextbookRecord(f, m, t));
  }

  /** The only place of a one-place catalog holds its bundle. */
  lemma OnePlaceBundle(g: string, sub: string, tb: Dict<Record>)
    ensures GetIn(OnePlace(g, sub, tb), g, sub) == Some(Bundle(Some(tb), None, None))
  {
    var inner: Dict<Bundle> := [(sub, Bundle(Some(tb), None, None))];
    assert Find(OnePlace(g, sub, tb), g) == 0;
    assert Find(inner, sub) == 0;
  }

  /** A second medium set in the only place of a one-place catalog goes after the first. */
  lemma SecondInOnePlace(g: string, sub: string, m1: string, r1: Record, m2: string, rec: Record)
    requires m1 != m2
    ensures var tb: Dict<Record> := [(m1, r1)];
            SetIn(OnePlace(g, sub, tb), g, sub, WithTextbook(Some(Bundle(Some(tb), None, None)), m2, rec))
            == OnePlace(g, sub, TwoMediums(m1, r1, m2, rec))
  {
    var tb: Dict<Record> := [(m1, r1)];
    SetSecond(m1, r1, m2, rec);
    assert Set(tb, m2, rec) == TwoMediums(m1, r1, m2, rec);
    var b := Bundle(Some(TwoMediums(m1, r1, m2, rec)), None, None);
    assert WithTextbook(Some(Bundle(Some(tb), None, None)), m2, rec) == b;
    SetInOnly(g, sub, Bundle(Some(tb), None, None), b);
  }

  /** A second medium filed for the same place goes after the first. */
  lemma SecondTextbook(s: State, g: string, sub: string, m1: string, r1: Record, m2: string, f: Record, t: string)
    requires m1 != m2
    requires s.resources == OnePlace(g, sub, [(m1, r1)])
    ensures AddTextbookTo(s, g, sub, m2, f, t).resources == OnePlace(g, sub, TwoMediums(m1, r1, m2, TextbookRecord(f, m2, t)))
  {
    var tb: Dict<Record> := [(m1, r1)];
    var rec := TextbookRecord(f, m2, t);
    var prev := GetIn(s.resources, g, sub);
    OnePlaceBundle(g, sub, tb);
    assert prev == Some(Bundle(Some(tb), None, None));
    assert AddTextbookTo(s, g, sub, m2, f, t).resources == SetIn(s.resources, g, sub, WithTextbook(prev, m2, rec));
    SecondInOnePlace(g, sub, m1, r1, m2, rec);
  }

  /** `Flatten` of one entry and of two entries. */
  lemma FlattenSmall<V>(a: (string, V), b: (string, V), f: (string, V) -> seq<Tag>)
    ensures Flatten([a], f) == f(a.0, a.1)
    ensures Flatten([a, b], f) == f(a.0, a.1) + f(b.0, b.1)
  {
    assert [a][..0] == [];
    assert [a, b][..1] == [a];
  }

  /** The counted items of a catalog holding two textbooks in one place: their two mediums, in order. */
  lemma TwoTextbookTags(g: string, sub: string, m1: string, r1: Record, m2: string, r2: Record)
    requires m1 != m2
    ensures ResourceTags(OnePlace(g, sub, [(m1, r1), (m2, r2)])) == [Some(Str(m1)), Some(Str(m2))]
  {
    var tb: Dict<Record> := [(m1, r1), (m2, r2)];
    FlattenSmall((m1, r1), (m2, r2), MediumTag);
    var b := Bundle(Some(tb), None, None);
    assert BundleTags(b) == [Some(Str(m1)), Some(Str(m2))];
    FlattenSmall((sub, b), (sub, b), SubjectBundleTags);
    var inner: Dict<Bundle> := [(sub, b)];
    FlattenSmall((g, inner), (g, inner), GradeResourceTags);
  }

  /** An English tag moves the English counter. */
  lemma BumpEnglish(b: Breakdown)
    ensures Bump(b, Some(Str("english"))) == b.(english := b.english + 1)
  {
    assert "english" != "sinhala" by { assert "english"[0] != "sinhala"[0]; }
    assert "english" != "tamil" by { assert "english"[0] != "tamil"[0]; }
  }

  /** A Sinhala tag moves the Sinhala counter. */
  lemma BumpSinhala(b: Breakdown)
    ensures Bump(b, Some(Str("sinhala"))) == b.(sinhala := b.sinhala + 1)
  {
  }

  /** One English and one Sinhala tag. */
  lemma EnglishSinhalaTally()
    ensures Tally(NoLanguages, [Some(Str("english")), Some(Str("sinhala"))]) == Breakdown(1, 0, 1)
  {
    var e: Tag := Some(Str("english"));
    var h: Tag := Some(Str("sinhala"));
    var none: seq<Tag> := [];
    assert [e][..0] == none;
    BumpEnglish(NoLanguages);
    assert Tally(NoLanguages, [e]) == Breakdown(0, 0, 1);
    assert [e, h][..1] == [e];
    BumpSinhala(Breakdown(0, 0, 1));
  }

  /** The statistics of a catalog with no videos, from the counted items of its resources. */
  lemma StatsWithoutVideos(s: State, tags: seq<Tag>)
    requires s.videos == [] && ResourceTags(s.resources) == tags
    ensures StatsOf(s) == StatsView(|s.grades|, |s.subjects|, |tags|, 0, Tally(NoLanguages, tags))
  {
    assert VideoTags(s.videos) == [];
    assert tags + VideoTags(s.videos) == tags;
  }

  /** Two textbooks, English then Sinhala, filed in one place of a catalog with nothing filed. */
  lemma TwoTextbooksFrom(s0: State, g: string, sub: string, english: Record, sinhala: Record, t1: string, t2: string)
    requires s0.resources == [] && s0.videos == []
    ensures var s1 := AddTextbookTo(s0, g, sub, "english", english, t1);
            var s2 := AddTextbookTo(s1, g, sub, "sinhala", sinhala, t2);
            StatsOf(s2) == StatsView(|s0.grades|, |s0.subjects|, 2, 0, Breakdown(1, 0, 1))
  {
    var s1 := AddTextbookTo(s0, g, sub, "english", english, t1);
    var s2 := AddTextbookTo(s1, g, sub, "sinhala", sinhala, t2);
    var e := TextbookRecord(english, "english", t1);
    var h := TextbookRecord(sinhala, "sinhala", t2);
    FirstTextbook(s0, g, sub, "english", english, t1);
    SecondTextbook(s1, g, sub, "english", e, "sinhala", sinhala, t2);
    TwoTextbookTags(g, sub, "english", e, "sinhala", h);
    assert s1.videos == s0.videos && s1.grades == s0.grades && s1.subjects == s0.subjects;
    assert s2.videos == s1.videos && s2.grades == s1.grades && s2.subjects == s1.subjects;
    EnglishSinhalaTally();
    StatsWithoutVideos(s2, [Some(Str("english")), Some(Str("sinhala"))]);
  }

  /**
   * On the seeded catalog, an English and then a Sinhala textbook for grade 6
   * mathematics give two resources, one per language, and no videos.
   */
  lemma TwoTextbooksScenario(s: State, now: string, english: Record, sinhala: Record, t1: string, t2: string)
    ensures var s0 := Overlay(s, DefaultData(now));
            var s1 := AddTextbookTo(s0, "grade6", "mathematics", "english", english, t1);
            var s2 := AddTextbookTo(s1, "grade6", "mathematics", "sinhala", sinhala, t2);
            StatsOf(s2) == StatsView(7, 10, 2, 0, Breakdown(1, 0, 1))
  {
    TwoTextbooksFrom(Overlay(s, DefaultData(now)), "grade6", "mathematics", english, sinhala, t1, t2);
  }
}
