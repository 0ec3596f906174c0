/**
 * The short-notes page (src/pages/NotesPage.js): the chapter label of a note
 * (with the language suffix after '_' stripped), the language filtering of
 * `NotesGrid`, the rule that skips a subject, and the grade-level
 * "no notes found" message.
 */
module NotesPage {
  import opened Wrappers
  import opened Dicts
  import opened Seqs
  import opened Strings
  import opened Catalog
  import opened Queries
  import opened PageFilter
  import PapersPage

  /**
   * `formatChapterName` of the notes page: a key holding '_' is labelled by
   * its part before the first '_', with the same rules as the papers page.
   */
  function FormatChapterName(key: string): (r: string)
    ensures r == PapersPage.FormatChapterName(Split(key, '_')[0])
  {
    ContainsChar(key, '_');
    if Contains(key, "_") then
      var base := Split(key, '_')[0];
      if StartsWith(base, "ch") then "Chapter " + ReplaceFirst(base, "ch", "")
      else PapersPage.CapitalizeDashed(base)
    else if StartsWith(key, "ch") then "Chapter " + ReplaceFirst(key, "ch", "")
    else PapersPage.CapitalizeDashed(key)
  }

  /** A language suffix is dropped: `<base>_<suffix>` is labelled as `<base>` is. */
  lemma SuffixStripped(base: string, suffix: string)
    requires forall i :: 0 <= i < |base| ==> base[i] != '_'
    ensures FormatChapterName(base + "_" + suffix) == FormatChapterName(base)
  {
    var key := base + "_" + suffix;
    assert key[|base|] == '_';
    assert FirstChar(key, '_') == |base| by {
      assert forall i :: 0 <= i < |base| ==> key[i] == base[i];
    }
    assert key[..|base|] == base;
    assert FirstChar(base, '_') == |base|;
  }

  /** `note.chapter || noteKey`, formatted; a truthy number as the chapter throws, since numbers have no `includes`. */
  function NoteTitle(key: string, note: Record): (r: Result<string>)
    ensures Falsy(Get(note, "chapter")) ==> r == Ok(FormatChapterName(key))
    ensures !Falsy(Get(note, "chapter")) && Get(note, "chapter").value.Str? ==>
              r == Ok(FormatChapterName(Get(note, "chapter").value.s))
    ensures !Falsy(Get(note, "chapter")) && Get(note, "chapter").value.Num? ==> r.Err?
  {
    var chapter := Get(note, "chapter");
    if Falsy(chapter) then Ok(FormatChapterName(key))
    else match chapter.value
      case Str(c) => Ok(FormatChapterName(c))
      case Num(_) => Err("chapterKey.includes is not a function")
  }

  /** A note entry passes by its `language` field. */
  function NotePasses(show: Show): ((string, Record)) -> bool {
    (e: (string, Record)) => show(LanguageOf(e.1))
  }

  /** `filteredNotes`: the note entries that pass, in their stored order, as an object again. */
  function FilteredNotes(notes: Dict<Record>, show: Show): (r: Dict<Record>)
    ensures forall k :: Get(r, k) == if Get(notes, k).Some? && show(LanguageOf(Get(notes, k).value))
                                     then Get(notes, k) else None
  {
    FilterDistinct(notes, NotePasses(show));
    var r: Dict<Record> := Filter(notes, NotePasses(show));
    forall k ensures Get(r, k) == if Get(notes, k).Some? && show(LanguageOf(Get(notes, k).value))
                                  then Get(notes, k) else None {
      FilterLookup(notes, NotePasses(show), k);
    }
    r
  }

  function TitleIn(): (string, Record) -> Result<string> {
    (k: string, n: Record) => NoteTitle(k, n)
  }

  /** What `NotesGrid` shows: "No notes available", "No notes found", or one card title per passing note. */
  datatype Listing = NoNotes | NoMatch | Grid(cards: Dict<Result<string>>)

  /** `NotesGrid`: the empty object is caught before filtering; an empty filter result counts only under a selection. */
  function NotesGrid(notes: Dict<Record>, sel: string, show: Show): (l: Listing)
    ensures l.NoNotes? <==> notes == []
    ensures l.NoMatch? <==> notes != [] && sel != All && !Any(Values(notes), Passes(show))
    ensures l.Grid? ==> l.cards == MapValues(FilteredNotes(notes, show), TitleIn())
  {
    if notes == [] then NoNotes
    else
      var f := FilteredNotes(notes, show);
      FilterEmptyIffNone(notes, NotePasses(show));
      AnyValues(notes, show);
      if |f| == 0 && sel != All then NoMatch else Grid(MapValues(f, TitleIn()))
  }

  /** Some note entry passes exactly when some note value passes. */
  lemma AnyValues(notes: Dict<Record>, show: Show)
    ensures Any(notes, NotePasses(show)) <==> Any(Values(notes), Passes(show))
  {
    if Any(notes, NotePasses(show)) {
      var i :| 0 <= i < |notes| && NotePasses(show)(notes[i]);
      assert Passes(show)(Values(notes)[i]);
    }
    if Any(Values(notes), Passes(show)) {
      var i :| 0 <= i < |notes| && Passes(show)(Values(notes)[i]);
      assert NotePasses(show)(notes[i]);
    }
  }

  /** `subject.resources.notes || {}`. */
  function NotesOf(v: SubjectView): Dict<Record> {
    v.resources.notes.GetOr([])
  }

  /** `hasFilteredNotes`: some note of the subject passes. */
  function HasNotes(show: Show): SubjectView -> bool {
    (v: SubjectView) => Any(Values(NotesOf(v)), Passes(show))
  }

  /** One subject's section: its name and icon, and its notes grid. */
  datatype Section = Section(name: string, icon: string, notes: Listing)

  function SectionIn(sel: string, show: Show): (string, SubjectView) -> Section {
    (id: string, v: SubjectView) => Section(v.subject.name, v.subject.icon, NotesGrid(NotesOf(v), sel, show))
  }

  /**
   * Under a language selection a subject that is not skipped always renders
   * note cards: the skip rule and the grid's own checks never leave a
   * visible subject showing an empty-result message.
   */
  lemma KeptSubjectShowsCards(v: SubjectView, sel: string, show: Show)
    requires sel != All && !Skipped(sel, HasNotes(show)(v))
    ensures SectionIn(sel, show)("", v).notes.Grid?
    ensures SectionIn(sel, show)("", v).notes.cards != []
  {
    var notes := NotesOf(v);
    AnyValues(notes, show);
    FilterEmptyIffNone(notes, NotePasses(show));
  }

  /** The page: not found for an unknown grade, else the visible sections and the two grade-level messages. */
  datatype Screen = NotFound | Page(display: string, sections: Dict<Section>, noSubjects: bool, noResults: bool)

  function Render(p: PageData, sel: string, show: Show): (s: Screen)
    ensures s.NotFound? <==> p.grade.None?
    ensures s.Page? ==> s.display == p.grade.value.display && (s.noSubjects <==> p.subjects == [])
  {
    if p.grade.None? then NotFound
    else Page(p.grade.value.display, Sections(p.subjects, sel, HasNotes(show), SectionIn(sel, show)),
              p.subjects == [], NoResults(p.subjects, sel, HasNotes(show)))
  }

  /** A subject of the grade has a section exactly when the skip rule keeps it. */
  lemma RenderSections(p: PageData, sel: string, show: Show, id: string)
    requires p.grade.Some?
    ensures Get(Render(p, sel, show).sections, id)
            == if Get(p.subjects, id).Some? && !Skipped(sel, HasNotes(show)(Get(p.subjects, id).value))
               then Some(SectionIn(sel, show)(id, Get(p.subjects, id).value)) else None
  {
    SectionLookup(p.subjects, sel, HasNotes(show), SectionIn(sel, show), id);
  }

  /** "No notes found" for the grade shows exactly when the grade has subjects, a selection is made, and no section is rendered. */
  lemma NoResultsIffNoSections(p: PageData, sel: string, show: Show)
    requires p.grade.Some?
    ensures Render(p, sel, show).noResults <==> p.subjects != [] && sel != All && Render(p, sel, show).sections == []
  {
    NoResultsIffAllSkipped(p.subjects, sel, HasNotes(show));
  }
}
