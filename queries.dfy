/**
 * The read-side helpers of the data provider (src/context/DataContext.js):
 * `getSubjectsForGrade`, `getResources`, `getVideos` and `generateGradePageData`.
 */
module Queries {
  import opened Wrappers
  import opened Dicts
  import opened Seqs
  import opened Catalog

  /** Whether a subject entry is taught in grade `g`: `subject.grades.includes(g)`. */
  function TaughtIn(g: string): ((string, Subject)) -> bool {
    (e: (string, Subject)) => g in e.1.grades
  }

  /** Filtering keeps the keys of a JS object distinct. */
  lemma {:induction false} FilterDistinct<V>(d: Dict<V>, p: ((string, V)) -> bool)
    ensures DistinctKeys(Filter(d, p))
  {
    if d != [] {
      var tail: Dict<V> := d[1..];
      FilterDistinct(tail, p);
      var rest := Filter(tail, p);
      forall i | 0 <= i < |rest| ensures rest[i].0 != d[0].0 {
        var j :| 0 <= j < |tail| && tail[j] == rest[i];
        assert d[j + 1] == rest[i];
      }
    }
  }

  /** Looking a key up in a filtered JS object: present exactly when it was present and its entry passed. */
  lemma FilterLookup<V>(d: Dict<V>, p: ((string, V)) -> bool, k: string)
    ensures DistinctKeys(Filter(d, p))
    ensures Get(Filter(d, p), k) == if Get(d, k).Some? && p((k, Get(d, k).value)) then Get(d, k) else None
  {
    FilterDistinct(d, p);
    var r := Filter(d, p);
    if Get(r, k).Some? {
      EntryGet(d, k, Get(r, k).value);
    }
  }

  /** One more entry of a JS object through the filter: it is appended, and its key is new. */
  lemma FilterStep<V>(d: Dict<V>, i: nat, p: ((string, V)) -> bool)
    requires i < |d|
    ensures Filter(d[..i + 1], p) == Filter(d[..i], p) + (if p(d[i]) then [d[i]] else [])
    ensures d[i].0 !in Keys(Filter(d[..i], p))
  {
    assert d[..i + 1] == d[..i] + [d[i]];
    FilterConcat(d[..i], [d[i]], p);
    PrefixKeys(d, i);
  }

  /** The subjects of grade `g`, in key order: the specification of `getSubjectsForGrade`. */
  function ForGrade(subjects: Dict<Subject>, g: string): (r: Dict<Subject>)
    ensures forall k :: Get(r, k) == if Get(subjects, k).Some? && g in Get(subjects, k).value.grades
                                    then Get(subjects, k) else None
  {
    FilterDistinct(subjects, TaughtIn(g));
    var r: Dict<Subject> := Filter(subjects, TaughtIn(g));
    forall k ensures Get(r, k) == if Get(subjects, k).Some? && g in Get(subjects, k).value.grades
                                 then Get(subjects, k) else None {
      if Get(r, k).Some? {
        EntryGet(subjects, k, Get(r, k).value);
      }
    }
    r
  }

  /** One more subject through the grade filter: set under its id when taught in `g`, skipped otherwise. */
  lemma TaughtStep(subjects: Dict<Subject>, g: string, i: nat, r: Dict<Subject>)
    requires i < |subjects| && r == Filter(subjects[..i], TaughtIn(g))
    ensures Filter(subjects[..i + 1], TaughtIn(g))
            == if g in subjects[i].1.grades then Set(r, subjects[i].0, subjects[i].1) else r
  {
    FilterStep(subjects, i, TaughtIn(g));
  }

  /** `getSubjectsForGrade(g)`: fill a fresh object with the subjects whose `grades` include `g`. */
  method GetSubjectsForGrade(subjects: Dict<Subject>, g: string) returns (r: Dict<Subject>)
    ensures r == ForGrade(subjects, g)
  {
    r := [];
    var i := 0;
    while i < |subjects|
      invariant 0 <= i <= |subjects|
      invariant r == Filter(subjects[..i], TaughtIn(g))
    {
      var (id, subject) := subjects[i];
      TaughtStep(subjects, g, i, r);
      if g in subject.grades {
        r := Set(r, id, subject);
      }
      i := i + 1;
    }
    assert subjects[..i] == subjects;
  }

  /** The bundle `getResources` returns when nothing is stored: empty textbooks, three empty terms, empty chapters and notes. */
  const EmptyBundle := Bundle(Some([]), Some(Papers(Some([("term1", Arr([])), ("term2", Arr([])), ("term3", Arr([]))]), Some([]))), Some([]))

  /** `getResources(g, sub)`: `resources[g]?.[sub] || default`; a stored bundle is an object and so never falsy. */
  function GetResources(s: State, g: string, sub: string): (b: Bundle)
    ensures GetIn(s.resources, g, sub).Some? ==> b == GetIn(s.resources, g, sub).value
    ensures GetIn(s.resources, g, sub).None? ==> b == EmptyBundle
  {
    GetIn(s.resources, g, sub).GetOr(EmptyBundle)
  }

  /** `getVideos(g, sub)`: `videos[g]?.[sub] || []`; an array, even an empty one, is never falsy. */
  function GetVideos(s: State, g: string, sub: string): (v: seq<Record>)
    ensures GetIn(s.videos, g, sub).Some? ==> v == GetIn(s.videos, g, sub).value
    ensures GetIn(s.videos, g, sub).None? ==> v == []
  {
    GetIn(s.videos, g, sub).GetOr([])
  }

  /** `{...subject, resources, videos}`: one subject of the grade page. */
  datatype SubjectView = SubjectView(subject: Subject, resources: Bundle, videos: seq<Record>)

  /** `generateGradePageData(g)`: the grade (`undefined` for an unknown id) and its subjects. */
  datatype PageData = PageData(grade: Option<Grade>, subjects: Dict<SubjectView>)

  /** The view of one subject of grade `g`. */
  function View(s: State, g: string, id: string, subject: Subject): SubjectView {
    SubjectView(subject, GetResources(s, g, id), GetVideos(s, g, id))
  }

  /** Each subject of `subs` with its resources and videos, in the same key order. */
  function ViewsOf(s: State, g: string, subs: Dict<Subject>): Dict<SubjectView> {
    MapValues(subs, ViewIn(s, g))
  }

  /** `View` as a function of the subject entry. */
  function ViewIn(s: State, g: string): (string, Subject) -> SubjectView {
    (id: string, subject: Subject) => View(s, g, id, subject)
  }

  /** The specification of `generateGradePageData`. */
  function GradePageData(s: State, g: string): PageData {
    PageData(Get(s.grades, g), ViewsOf(s, g, ForGrade(s.subjects, g)))
  }

  /** `generateGradePageData(g)`: look the subjects up, then fill `pageData.subjects` one subject at a time. */
  method GenerateGradePageData(s: State, g: string) returns (p: PageData)
    ensures p == GradePageData(s, g)
  {
    var subjects := GetSubjectsForGrade(s.subjects, g);
    var views: Dict<SubjectView> := [];
    var i := 0;
    while i < |subjects|
      invariant 0 <= i <= |subjects|
      invariant views == ViewsOf(s, g, subjects[..i])
    {
      var id := subjects[i].0;
      var subject := subjects[i].1;
      var resources := GetResources(s, g, id);
      var videos := GetVideos(s, g, id);
      ViewsStep(s, g, subjects, i);
      views := Set(views, id, SubjectView(subject, resources, videos));
      i := i + 1;
    }
    assert subjects[..i] == subjects;
    p := PageData(Get(s.grades, g), views);
  }

  /** One more subject viewed: its view is appended under its id. */
  lemma ViewsStep(s: State, g: string, subjects: Dict<Subject>, i: nat)
    requires i < |subjects|
    ensures var (id, subject) := subjects[i];
            Set(ViewsOf(s, g, subjects[..i]), id, View(s, g, id, subject)) == ViewsOf(s, g, subjects[..i + 1])
  {
    var f := ViewIn(s, g);
    MapValuesStep(subjects, i, f);
    var (id, subject) := subjects[i];
    assert f(id, subject) == View(s, g, id, subject);
  }

  /**
   * The grade page lists exactly the subjects taught in the grade, each with
   * its stored resources (or the empty bundle) and its videos (or none).
   */
  lemma GradePageSubjects(s: State, g: string, id: string)
    ensures var views := GradePageData(s, g).subjects;
            Get(views, id) == if Get(s.subjects, id).Some? && g in Get(s.subjects, id).value.grades
                              then Some(View(s, g, id, Get(s.subjects, id).value)) else None
  {
    var subs := ForGrade(s.subjects, g);
    var views := ViewsOf(s, g, subs);
    if Get(subs, id).Some? {
      var i := Find(subs, id);
      assert Keys(views)[i] == id;
      EntryGet(subs, id, Get(subs, id).value);
      GetAt(views, i);
      GetAt(subs, i);
    } else {
      assert id !in Keys(views);
    }
  }

  /** For an unknown grade id the page data has no grade. */
  lemma UnknownGrade(s: State, g: string)
    requires g !in Keys(s.grades)
    ensures GradePageData(s, g).grade.None?
  {
  }
}
