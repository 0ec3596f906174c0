/**
 * The textbooks page (src/pages/TextbooksPage.js): textbooks are keyed by
 * their medium, so the language filter is applied to the keys; the count
 * label, the three per-medium cards, the rule that skips a subject and the
 * grade-level "no textbooks found" message.
 */
module TextbooksPage {
  import opened Wrappers
  import opened Dicts
  import opened Seqs
  import opened Strings
  import opened Catalog
  import opened Queries
  import opened PageFilter

  /** A textbook entry passes when its medium key does: `shouldShowResource(medium)`. */
  function MediumPasses(show: Show): ((string, Record)) -> bool {
    (e: (string, Record)) => show(Some(Str(e.0)))
  }

  /** `filteredTextbooks`: the entries whose medium passes, in their stored order. */
  function FilteredTextbooks(textbooks: Dict<Record>, show: Show): (r: Dict<Record>)
    ensures forall m :: Get(r, m) == if Get(textbooks, m).Some? && show(Some(Str(m))) then Get(textbooks, m) else None
  {
    FilterDistinct(textbooks, MediumPasses(show));
    var r: Dict<Record> := Filter(textbooks, MediumPasses(show));
    forall m ensures Get(r, m) == if Get(textbooks, m).Some? && show(Some(Str(m))) then Get(textbooks, m) else None {
      FilterLookup(textbooks, MediumPasses(show), m);
    }
    r
  }

  /** The count line under a subject's name: "N textbook", an 's' unless N is 1, then " available". */
  function CountLabel(n: nat): string {
    NatToString(n) + " textbook" + (if n != 1 then "s" else "") + " available"
  }

  /** The label starts with the count, which reads back as `n`, and the noun is plural exactly when `n` is not 1. */
  lemma CountLabelMeaning(n: nat)
    ensures var r := CountLabel(n);
            var w := FirstChar(r, ' ');
            && w < |r| && DecimalValue(r[..w]) == n
            && |r| >= 11 && (r[|r| - 11] == 's' <==> n != 1)
  {
    var digits := NatToString(n);
    NatToStringRoundTrip(n);
    var r := CountLabel(n);
    assert r == digits + (" textbook" + (if n != 1 then "s" else "") + " available");
    assert r[|digits|] == ' ';
    assert forall i :: 0 <= i < |digits| ==> r[i] == digits[i];
    assert FirstChar(r, ' ') == |digits| by {
      assert forall i :: 0 <= i < |digits| ==> r[i] != ' ';
    }
    assert r[..|digits|] == digits;
  }

  /** `subject.resources.textbooks || {}`. */
  function TextbooksOf(v: SubjectView): Dict<Record> {
    v.resources.textbooks.GetOr([])
  }

  /** The grade-level test `Object.keys(textbooks).some(medium => shouldShowResource(medium))`. */
  function HasTextbooks(show: Show): SubjectView -> bool {
    (v: SubjectView) => Any(Keys(TextbooksOf(v)), (m: string) => show(Some(Str(m))))
  }

  /** The subject's skip test `filteredTextbooks.length === 0 && selectedLanguage !== 'all'` agrees with the grade-level test. */
  lemma SkipTestsAgree(v: SubjectView, sel: string, show: Show)
    ensures (|FilteredTextbooks(TextbooksOf(v), show)| == 0 && sel != All) <==> Skipped(sel, HasTextbooks(show)(v))
  {
    var t := TextbooksOf(v);
    FilterEmptyIffNone(t, MediumPasses(show));
    var p := (m: string) => show(Some(Str(m)));
    if Any(Keys(t), p) {
      var i :| 0 <= i < |t| && p(Keys(t)[i]);
      assert MediumPasses(show)(t[i]);
    }
    if Any(t, MediumPasses(show)) {
      var i :| 0 <= i < |t| && MediumPasses(show)(t[i]);
      assert p(Keys(t)[i]);
    }
  }

  /** The three mediums, in the order of their cards. */
  const Mediums := ["sinhala", "tamil", "english"]

  /** One medium card: its medium, the textbook stored for it (`textbooks.sinhala`, ...) and whether it carries `d-none`. */
  datatype MediumCard = MediumCard(medium: string, textbook: Option<Record>, hidden: bool)

  function CardOf(textbooks: Dict<Record>, show: Show, medium: string): MediumCard {
    MediumCard(medium, Get(textbooks, medium), !show(Some(Str(medium))))
  }

  /** The three cards: rendered for every subject shown, each hidden exactly when the filter rejects its medium. */
  function MediumCards(textbooks: Dict<Record>, show: Show): (cards: seq<MediumCard>)
    ensures |cards| == 3
    ensures forall i :: 0 <= i < 3 ==> cards[i].medium == Mediums[i] && cards[i].textbook == Get(textbooks, Mediums[i])
                                       && (cards[i].hidden <==> !show(Some(Str(Mediums[i]))))
  {
    var cards := [CardOf(textbooks, show, Mediums[0]), CardOf(textbooks, show, Mediums[1]), CardOf(textbooks, show, Mediums[2])];
    assert forall i :: 0 <= i < 3 ==> cards[i] == CardOf(textbooks, show, Mediums[i]);
    cards
  }

  /**
   * A card and the filtered list agree: for a medium with a stored textbook,
   * its card is visible exactly when that textbook is among the filtered ones.
   */
  lemma CardVisibleIffFiltered(textbooks: Dict<Record>, show: Show, i: nat)
    requires i < 3 && Get(textbooks, Mediums[i]).Some?
    ensures !MediumCards(textbooks, show)[i].hidden
            <==> Get(FilteredTextbooks(textbooks, show), Mediums[i]).Some?
  {
  }

  /** One subject's section: its name and icon, the count label and the three cards. */
  datatype Section = Section(name: string, icon: string, countLine: string, cards: seq<MediumCard>)

  function SectionIn(show: Show): (string, SubjectView) -> Section {
    (id: string, v: SubjectView) =>
      Section(v.subject.name, v.subject.icon,
              CountLabel(|FilteredTextbooks(TextbooksOf(v), show)|),
              MediumCards(TextbooksOf(v), show))
  }

  /** Under a selection, a subject that is not skipped counts at least one textbook. */
  lemma KeptSubjectCountsTextbooks(v: SubjectView, sel: string, show: Show)
    requires sel != All && !Skipped(sel, HasTextbooks(show)(v))
    ensures |FilteredTextbooks(TextbooksOf(v), show)| >= 1
  {
    SkipTestsAgree(v, sel, show);
  }

  /** The page: not found for an unknown grade, else the visible sections and the two grade-level messages. */
  datatype Screen = NotFound | Page(display: string, sections: Dict<Section>, noSubjects: bool, noResults: bool)

  function Render(p: PageData, sel: string, show: Show): (s: Screen)
    ensures s.NotFound? <==> p.grade.None?
    ensures s.Page? ==> s.display == p.grade.value.display && (s.noSubjects <==> p.subjects == [])
  {
    if p.grade.None? then NotFound
    else Page(p.grade.value.display, Sections(p.subjects, sel, HasTextbooks(show), SectionIn(show)),
              p.subjects == [], NoResults(p.subjects, sel, HasTextbooks(show)))
  }

  /** A subject of the grade has a section exactly when its filtered textbooks are not empty or no selection is made. */
  lemma RenderSections(p: PageData, sel: string, show: Show, id: string)
    requires p.grade.Some?
    ensures Get(Render(p, sel, show).sections, id)
            == if Get(p.subjects, id).Some?
                  && !(|FilteredTextbooks(TextbooksOf(Get(p.subjects, id).value), show)| == 0 && sel != All)
               then Some(SectionIn(show)(id, Get(p.subjects, id).value)) else None
  {
    SectionLookup(p.subjects, sel, HasTextbooks(show), SectionIn(show), id);
    if Get(p.subjects, id).Some? {
      SkipTestsAgree(Get(p.subjects, id).value, sel, show);
    }
  }

  /** "No textbooks found" for the grade shows exactly when the grade has subjects, a selection is made, and no section is rendered. */
  lemma NoResultsIffNoSections(p: PageData, sel: string, show: Show)
    requires p.grade.Some?
    ensures Render(p, sel, show).noResults <==> p.subjects != [] && sel != All && Render(p, sel, show).sections == []
  {
    NoResultsIffAllSkipped(p.subjects, sel, HasTextbooks(show));
  }
}
