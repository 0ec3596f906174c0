/**
 * The rules the four resource pages (src/pages/PapersPage.js, NotesPage.js,
 * TextbooksPage.js and VideosPage.js) share: a language selection, a
 * per-item filter, the skipping of a subject section that a selection leaves
 * empty, and the grade-level "no results" message.
 *
 * The filter itself, `shouldShowResource` of src/context/LanguageContext.js,
 * is not part of this model: it is a parameter `show`, applied to the value
 * of a record's `language` field (which may be missing). The selection `sel`
 * is separate, because the pages test `selectedLanguage !== 'all'` themselves.
 */
module PageFilter {
  import opened Wrappers
  import opened Dicts
  import opened Seqs
  import opened Catalog
  import opened Queries

  /** `shouldShowResource(language)`. */
  type Show = Option<Value> -> bool

  /** The selection that shows every language. */
  const All := "all"

  /** A record passes the filter by its `language` field. */
  function Passes(show: Show): Record -> bool {
    (r: Record) => show(LanguageOf(r))
  }

  /** A subject section is skipped when a selection other than "all" leaves it with nothing to show. */
  predicate Skipped(sel: string, has: bool) {
    sel != All && !has
  }

  /** The entries of a page's subject list that survive the skip rule. */
  function KeepIn(sel: string, has: SubjectView -> bool): ((string, SubjectView)) -> bool {
    (e: (string, SubjectView)) => !Skipped(sel, has(e.1))
  }

  /**
   * The subjects a page renders, in key order: exactly those the skip rule
   * keeps (`return null` for the others, which React drops).
   */
  function Visible(subjects: Dict<SubjectView>, sel: string, has: SubjectView -> bool): (r: Dict<SubjectView>)
    ensures forall id :: Get(r, id) == if Get(subjects, id).Some? && !Skipped(sel, has(Get(subjects, id).value))
                                       then Get(subjects, id) else None
  {
    FilterDistinct(subjects, KeepIn(sel, has));
    var r: Dict<SubjectView> := Filter(subjects, KeepIn(sel, has));
    forall id ensures Get(r, id) == if Get(subjects, id).Some? && !Skipped(sel, has(Get(subjects, id).value))
                                    then Get(subjects, id) else None {
      FilterLookup(subjects, KeepIn(sel, has), id);
    }
    r
  }

  /** With the "all" selection no subject is skipped. */
  lemma AllKeepsEverySubject(subjects: Dict<SubjectView>, has: SubjectView -> bool)
    ensures Visible(subjects, All, has) == subjects
  {
    FilterKeepsAll(subjects, KeepIn(All, has));
  }

  /** The sections of a page: one per visible subject, built by `f`, keyed by the subject id. */
  function Sections<S>(subjects: Dict<SubjectView>, sel: string, has: SubjectView -> bool,
                       f: (string, SubjectView) -> S): Dict<S>
  {
    MapValues(Visible(subjects, sel, has), f)
  }

  /** A subject has a section exactly when the skip rule keeps it, and the section is built from that subject. */
  lemma SectionLookup<S>(subjects: Dict<SubjectView>, sel: string, has: SubjectView -> bool,
                         f: (string, SubjectView) -> S, id: string)
    ensures Get(Sections(subjects, sel, has, f), id)
            == if Get(subjects, id).Some? && !Skipped(sel, has(Get(subjects, id).value))
               then Some(f(id, Get(subjects, id).value)) else None
  {
    var vis := Visible(subjects, sel, has);
    var secs := Sections(subjects, sel, has, f);
    if Get(vis, id).Some? {
      var i := Find(vis, id);
      assert Keys(secs)[i] == id;
      GetAt(secs, i);
      GetAt(vis, i);
    } else {
      assert id !in Keys(secs);
    }
  }

  /**
   * The grade-level "no results" message: the grade has subjects, the
   * selection is not "all", and no subject has anything that passes.
   */
  predicate NoResults(subjects: Dict<SubjectView>, sel: string, has: SubjectView -> bool) {
    |subjects| > 0 && sel != All && !Any(Values(subjects), has)
  }

  /** The grade-level message shows exactly when there are subjects and the skip rule drops every one of them. */
  lemma NoResultsIffAllSkipped(subjects: Dict<SubjectView>, sel: string, has: SubjectView -> bool)
    ensures NoResults(subjects, sel, has)
            <==> subjects != [] && sel != All && Visible(subjects, sel, has) == []
  {
    var p := KeepIn(sel, has);
    FilterEmptyIffNone(subjects, p);
    if sel != All {
      if Any(Values(subjects), has) {
        var i :| 0 <= i < |subjects| && has(Values(subjects)[i]);
        assert p(subjects[i]);
      }
      if Any(subjects, p) {
        var i :| 0 <= i < |subjects| && p(subjects[i]);
        assert has(Values(subjects)[i]);
      }
    }
  }

  /**
   * An assumed concrete filter (the language context is not part of this
   * model): "all" shows every record, any other selection the records
   * whose `language` is that selection.
   */
  function ConcreteShow(sel: string): Show {
    (lang: Option<Value>) => sel == All || lang == Some(Str(sel))
  }

  /** Under the assumed filter, the "all" selection keeps every record. */
  lemma AllShowsEveryRecord(s: seq<Record>)
    ensures Filter(s, Passes(ConcreteShow(All))) == s
  {
    FilterKeepsAll(s, Passes(ConcreteShow(All)));
  }
}
