/**
 * The grade overview page (src/pages/GradePage.js): the not-found check,
 * the grade-number label, the four per-kind counters and the per-subject
 * resource count. Every counter is a `let count` accumulator in the source
 * and a loop here, proved equal to a sum over the subjects.
 */
module GradePage {
  import opened Wrappers
  import opened Dicts
  import opened Seqs
  import opened Strings
  import opened Catalog
  import opened Queries
  import opened Stats

  // ------------------------------------------------------- per-bundle counts

  /** An entry of `terms` or `chapters` contributes its length when it is an array. */
  function EntryLength(e: Entry): nat {
    if e.Arr? then |e.items| else 0
  }

  /** The papers of one grouping; a missing grouping holds none. */
  function GroupCount(group: Option<Dict<Entry>>): nat {
    if group.Some? then SumOver(group.value, EntryLength) else 0
  }

  function TextbookCount(b: Bundle): nat {
    if b.textbooks.Some? then |b.textbooks.value| else 0
  }

  function PaperCount(b: Bundle): nat {
    if b.papers.Some? then GroupCount(b.papers.value.terms) + GroupCount(b.papers.value.chapters) else 0
  }

  function NoteCount(b: Bundle): nat {
    if b.notes.Some? then |b.notes.value| else 0
  }

  /** The same counts for one subject of the page. */
  function SubjectTextbooks(v: SubjectView): nat { TextbookCount(v.resources) }
  function SubjectPapers(v: SubjectView): nat { PaperCount(v.resources) }
  function SubjectNotes(v: SubjectView): nat { NoteCount(v.resources) }
  function SubjectVideos(v: SubjectView): nat { |v.videos| }

  /** What `getSubjectResourceCount` promises: all four kinds of one subject. */
  function ResourceCount(v: SubjectView): nat {
    SubjectTextbooks(v) + SubjectPapers(v) + SubjectNotes(v) + SubjectVideos(v)
  }

  // ---------------------------------------------------------------- counters

  lemma SumOverStep<V>(d: seq<(string, V)>, i: nat, f: V -> nat)
    requires i < |d|
    ensures SumOver(d[..i + 1], f) == SumOver(d[..i], f) + f(d[i].1)
  {
    assert d[..i + 1][..i] == d[..i];
  }

  /** The `forEach` over `Object.keys(papers.terms)` or `papers.chapters`: add the length of each array. */
  method CountArrayEntries(group: Dict<Entry>) returns (count: nat)
    ensures count == SumOver(group, EntryLength)
  {
    count := 0;
    var i := 0;
    while i < |group|
      invariant 0 <= i <= |group|
      invariant count == SumOver(group[..i], EntryLength)
    {
      SumOverStep(group, i, EntryLength);
      if group[i].1.Arr? {
        count := count + |group[i].1.items|;
      }
      i := i + 1;
    }
    assert group[..i] == group;
  }

  /** `countTextbooks(subjects)`. */
  method CountTextbooks(subjects: Dict<SubjectView>) returns (count: nat)
    ensures count == SumOver(subjects, SubjectTextbooks)
  {
    count := 0;
    var i := 0;
    while i < |subjects|
      invariant 0 <= i <= |subjects|
      invariant count == SumOver(subjects[..i], SubjectTextbooks)
    {
      SumOverStep(subjects, i, SubjectTextbooks);
      var textbooks := subjects[i].1.resources.textbooks;
      if textbooks.Some? {
        count := count + |textbooks.value|;
      }
      i := i + 1;
    }
    assert subjects[..i] == subjects;
  }

  /** `countPapers(subjects)`: array-valued term and chapter entries only. */
  method CountPapers(subjects: Dict<SubjectView>) returns (count: nat)
    ensures count == SumOver(subjects, SubjectPapers)
  {
    count := 0;
    var i := 0;
    while i < |subjects|
      invariant 0 <= i <= |subjects|
      invariant count == SumOver(subjects[..i], SubjectPapers)
    {
      SumOverStep(subjects, i, SubjectPapers);
      var papers := subjects[i].1.resources.papers;
      if papers.Some? {
        if papers.value.terms.Some? {
          var n := CountArrayEntries(papers.value.terms.value);
          count := count + n;
        }
        if papers.value.chapters.Some? {
          var n := CountArrayEntries(papers.value.chapters.value);
          count := count + n;
        }
      }
      i := i + 1;
    }
    assert subjects[..i] == subjects;
  }

  /** `countNotes(subjects)`. */
  method CountNotes(subjects: Dict<SubjectView>) returns (count: nat)
    ensures count == SumOver(subjects, SubjectNotes)
  {
    count := 0;
    var i := 0;
    while i < |subjects|
      invariant 0 <= i <= |subjects|
      invariant count == SumOver(subjects[..i], SubjectNotes)
    {
      SumOverStep(subjects, i, SubjectNotes);
      var notes := subjects[i].1.resources.notes;
      if notes.Some? {
        count := count + |notes.value|;
      }
      i := i + 1;
    }
    assert subjects[..i] == subjects;
  }

  /** `countVideos(subjects)`; an array is never falsy, so every list counts. */
  method CountVideos(subjects: Dict<SubjectView>) returns (count: nat)
    ensures count == SumOver(subjects, SubjectVideos)
  {
    count := 0;
    var i := 0;
    while i < |subjects|
      invariant 0 <= i <= |subjects|
      invariant count == SumOver(subjects[..i], SubjectVideos)
    {
      SumOverStep(subjects, i, SubjectVideos);
      count := count + |subjects[i].1.videos|;
      i := i + 1;
    }
    assert subjects[..i] == subjects;
  }

  /** `getSubjectResourceCount(subject)`. */
  method GetSubjectResourceCount(v: SubjectView) returns (count: nat)
    ensures count == ResourceCount(v)
  {
    count := 0;
    var r := v.resources;
    if r.textbooks.Some? {
      count := count + |r.textbooks.value|;
    }
    if r.papers.Some? {
      if r.papers.value.terms.Some? {
        var n := CountArrayEntries(r.papers.value.terms.value);
        count := count + n;
      }
      if r.papers.value.chapters.Some? {
        var n := CountArrayEntries(r.papers.value.chapters.value);
        count := count + n;
      }
    }
    if r.notes.Some? {
      count := count + |r.notes.value|;
    }
    count := count + |v.videos|;
  }

  // ---------------------------------------------------------------- the label

  /** `display.includes('A/L') ? 'A/L' : display.split(' ')[1]`; `None` for `undefined`. */
  function GradeLabel(display: string): Option<string> {
    if Contains(display, "A/L") then Some("A/L")
    else
      var parts := Split(display, ' ');
      if |parts| >= 2 then Some(parts[1]) else None
  }

  /** The word after the first space, up to the next space or the end; `None` without a space. */
  function SecondWord(display: string): Option<string> {
    var i := FirstChar(display, ' ');
    if i == |display| then None
    else
      var rest := display[i + 1..];
      Some(rest[..FirstChar(rest, ' ')])
  }

  /** Without `A/L`, the label is the second space-separated word of the display. */
  lemma GradeLabelIsSecondWord(display: string)
    requires !Contains(display, "A/L")
    ensures GradeLabel(display) == SecondWord(display)
  {
    var i := FirstChar(display, ' ');
    if i < |display| {
      var rest := display[i + 1..];
      assert Split(display, ' ') == [display[..i]] + Split(rest, ' ');
      var j := FirstChar(rest, ' ');
      if j < |rest| {
        assert Split(rest, ' ') == [rest[..j]] + Split(rest[j + 1..], ' ');
      } else {
        assert Split(rest, ' ') == [rest];
        assert rest[..j] == rest;
      }
      assert Split(display, ' ')[1] == Split(rest, ' ')[0];
    }
  }

  /** A display "Grade N", for a word N without spaces or slashes, is labelled N. */
  lemma GradeNumberLabel(n: string)
    requires forall i :: 0 <= i < |n| ==> n[i] != ' ' && n[i] != '/'
    ensures GradeLabel("Grade " + n) == Some(n)
  {
    var d := "Grade " + n;
    AbsentCharNotContained(d, "A/L", 1);
    GradeLabelIsSecondWord(d);
    assert d[0] == 'G' && d[1] == 'r' && d[2] == 'a' && d[3] == 'd' && d[4] == 'e' && d[5] == ' ';
    assert FirstChar(d, ' ') == 5;
    assert d[6..] == n;
    assert FirstChar(n, ' ') == |n|;
    assert n[..|n|] == n;
    assert SecondWord(d) == Some(n);
  }

  /** A display containing "A/L", such as the seeded "A/L", is labelled "A/L". */
  lemma AdvancedLevelLabel(display: string, i: nat)
    requires i + 3 <= |display| && display[i..i + 3] == "A/L"
    ensures GradeLabel(display) == Some("A/L")
  {
    assert OccursAt(display, "A/L", i);
  }

  // ---------------------------------------------------------------- the page

  /** One subject card: its id, name and resource count. */
  datatype SubjectCard = SubjectCard(id: string, name: string, resources: nat)

  datatype GradeScreen =
    | NotFound
    | Overview(gradeNumber: Option<string>, textbooks: nat, papers: nat, notes: nat, videos: nat,
               cards: seq<SubjectCard>, noSubjects: bool)

  /** The page for a grade's data: not found without a grade, otherwise the four totals and one card per subject. */
  method RenderGradePage(p: PageData) returns (screen: GradeScreen)
    ensures screen.NotFound? <==> p.grade.None?
    ensures screen.Overview? ==>
              && screen.gradeNumber == GradeLabel(p.grade.value.display)
              && screen.textbooks == SumOver(p.subjects, SubjectTextbooks)
              && screen.papers == SumOver(p.subjects, SubjectPapers)
              && screen.notes == SumOver(p.subjects, SubjectNotes)
              && screen.videos == SumOver(p.subjects, SubjectVideos)
              && |screen.cards| == |p.subjects|
              && (forall i :: 0 <= i < |p.subjects| ==>
                    screen.cards[i] == SubjectCard(p.subjects[i].0, p.subjects[i].1.subject.name,
                                                   ResourceCount(p.subjects[i].1)))
              && (screen.noSubjects <==> p.subjects == [])
  {
    if p.grade.None? {
      return NotFound;
    }
    var textbooks := CountTextbooks(p.subjects);
    var papers := CountPapers(p.subjects);
    var notes := CountNotes(p.subjects);
    var videos := CountVideos(p.subjects);
    var cards: seq<SubjectCard> := [];
    var i := 0;
    while i < |p.subjects|
      invariant 0 <= i <= |p.subjects|
      invariant |cards| == i
      invariant forall j :: 0 <= j < i ==>
                  cards[j] == SubjectCard(p.subjects[j].0, p.subjects[j].1.subject.name, ResourceCount(p.subjects[j].1))
    {
      var n := GetSubjectResourceCount(p.subjects[i].1);
      cards := cards + [SubjectCard(p.subjects[i].0, p.subjects[i].1.subject.name, n)];
      i := i + 1;
    }
    screen := Overview(GradeLabel(p.grade.value.display), textbooks, papers, notes, videos, cards, |p.subjects| == 0);
  }

  // -------------------------------------------------------------- properties

  /** The subject cards' counts add up to the four totals. */
  lemma CardsAddUpToTotals(subjects: Dict<SubjectView>)
    ensures SumOver(subjects, ResourceCount)
            == SumOver(subjects, SubjectTextbooks) + SumOver(subjects, SubjectPapers)
               + SumOver(subjects, SubjectNotes) + SumOver(subjects, SubjectVideos)
  {
    SumOverFour(subjects, ResourceCount, SubjectTextbooks, SubjectPapers, SubjectNotes, SubjectVideos);
  }

  /** A subject with nothing stored (the empty bundle, no videos) shows 0 resources. */
  lemma EmptySubjectCountsZero(subject: Subject)
    ensures ResourceCount(SubjectView(subject, EmptyBundle, [])) == 0
  {
    SumOverZero(EmptyBundle.papers.value.terms.value, EntryLength);
  }

  lemma {:induction false} MediumTagsLength(textbooks: seq<(string, Record)>)
    ensures |Flatten(textbooks, MediumTag)| == |textbooks|
    decreases |textbooks|
  {
    if textbooks != [] {
      MediumTagsLength(textbooks[..|textbooks| - 1]);
    }
  }

  lemma {:induction false} EntryTagsLength(group: seq<(string, Entry)>)
    ensures |Flatten(group, EntryTags)| == SumOver(group, EntryLength)
    decreases |group|
  {
    if group != [] {
      EntryTagsLength(group[..|group| - 1]);
    }
  }

  /**
   * The page and `getStats` agree on a bundle: the items `getStats` counts
   * are its textbooks and papers as the page counts them (notes aside).
   */
  lemma StatsCountMatchesPage(b: Bundle)
    ensures |BundleTags(b)| == TextbookCount(b) + PaperCount(b)
  {
    if b.textbooks.Some? {
      MediumTagsLength(b.textbooks.value);
    }
    if b.papers.Some? {
      if b.papers.value.terms.Some? {
        EntryTagsLength(b.papers.value.terms.value);
      }
      if b.papers.value.chapters.Some? {
        EntryTagsLength(b.papers.value.chapters.value);
      }
    }
  }
}
