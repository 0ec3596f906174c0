/**
 * The exam-papers page (src/pages/PapersPage.js): the labels of term and
 * chapter keys, the per-group language filtering of `TermPapers` and
 * `ChapterPapers`, the placeholders, and the rule that skips a subject.
 */
module PapersPage {
  import opened Wrappers
  import opened Dicts
  import opened Seqs
  import opened Strings
  import opened Catalog
  import opened Queries
  import opened PageFilter

  /** `formatTermName`: the three school terms have fixed labels; any other key is capitalised. */
  function FormatTermName(key: string): (r: string)
    ensures key == "term1" ==> r == "1st Term"
    ensures key == "term2" ==> r == "2nd Term"
    ensures key == "term3" ==> r == "3rd Term"
    ensures key != "term1" && key != "term2" && key != "term3" ==>
              |r| == |key| && (key != [] ==> r[0] == Upper(key[0]) && r[1..] == key[1..])
  {
    if key == "term1" then "1st Term"
    else if key == "term2" then "2nd Term"
    else if key == "term3" then "3rd Term"
    else Capitalize(key)
  }

  /** `s` with its first `'-'`, if any, turned into a space. */
  function Dashed(s: string): string {
    var i := FirstChar(s, '-');
    if i < |s| then s[i := ' '] else s
  }

  /** `key.charAt(0).toUpperCase() + key.slice(1).replace('-', ' ')`. */
  function CapitalizeDashed(key: string): (r: string)
    ensures |r| == |key|
    ensures key != [] ==> r[0] == Upper(key[0]) && r[1..] == Dashed(key[1..])
  {
    if key == [] then []
    else
      ReplaceFirstChar(key[1..], '-', ' ');
      [Upper(key[0])] + ReplaceFirst(key[1..], "-", " ")
  }

  /**
   * `formatChapterName`: a key starting with "ch" becomes "Chapter " and the
   * rest of the key; any other key is capitalised, with its first '-' after
   * the first character turned into a space.
   */
  function FormatChapterName(key: string): (r: string)
    ensures StartsWith(key, "ch") ==> r == "Chapter " + key[2..]
    ensures !StartsWith(key, "ch") ==> r == CapitalizeDashed(key)
  {
    if StartsWith(key, "ch") then
      ReplacePrefix(key, "ch");
      "Chapter " + ReplaceFirst(key, "ch", "")
    else CapitalizeDashed(key)
  }

  /** Chapter keys `ch<n>` are labelled "Chapter <n>", so different chapter numbers get different labels. */
  lemma ChapterLabel(n: string, m: string)
    ensures FormatChapterName("ch" + n) == "Chapter " + n
    ensures n != m ==> FormatChapterName("ch" + n) != FormatChapterName("ch" + m)
  {
    assert StartsWith("ch" + n, "ch") && ("ch" + n)[2..] == n;
    assert StartsWith("ch" + m, "ch") && ("ch" + m)[2..] == m;
    if n != m {
      assert ("Chapter " + n)[8..] == n;
      assert ("Chapter " + m)[8..] == m;
    }
  }

  /** One rendered group: its key, its heading and the papers that passed the filter, in their stored order. */
  datatype Group = Group(key: string, title: string, papers: seq<Record>)

  /**
   * One entry of a term or chapter object: skipped when it is not an array
   * or is empty, and also when nothing passes and the selection is not "all".
   */
  function GroupOf(key: string, e: Entry, sel: string, show: Show, title: string -> string): (r: Option<Group>)
    ensures r.Some? <==> e.Arr? && e.items != [] && (sel == All || Any(e.items, Passes(show)))
    ensures r.Some? ==> r.value == Group(key, title(key), Filter(e.items, Passes(show)))
  {
    if !e.Arr? || e.items == [] then None
    else
      var shown := Filter(e.items, Passes(show));
      FilterEmptyIffNone(e.items, Passes(show));
      if shown == [] && sel != All then None else Some(Group(key, title(key), shown))
  }

  /** The groups of a term or chapter object, in key order, leaving out the skipped entries. */
  function GroupsOf(d: seq<(string, Entry)>, sel: string, show: Show, title: string -> string): (r: seq<Group>)
    ensures |r| <= |d|
  {
    if d == [] then []
    else
      var head := GroupOf(d[0].0, d[0].1, sel, show, title);
      (if head.Some? then [head.value] else []) + GroupsOf(d[1..], sel, show, title)
  }

  /**
   * The groups keep the entries' key order: the groups of two consecutive
   * runs of entries are the groups of the first run, then those of the second.
   */
  lemma {:induction false} GroupsOfConcat(d: seq<(string, Entry)>, e: seq<(string, Entry)>, sel: string, show: Show,
                                          title: string -> string)
    ensures GroupsOf(d + e, sel, show, title) == GroupsOf(d, sel, show, title) + GroupsOf(e, sel, show, title)
    decreases |d|
  {
    if d == [] {
      assert d + e == e;
    } else {
      assert (d + e)[0] == d[0];
      assert (d + e)[1..] == d[1..] + e;
      GroupsOfConcat(d[1..], e, sel, show, title);
      var head := GroupOf(d[0].0, d[0].1, sel, show, title);
      var h := if head.Some? then [head.value] else [];
      ConcatAssoc(h, GroupsOf(d[1..], sel, show, title), GroupsOf(e, sel, show, title));
    }
  }

  /** The rendered groups are exactly the groups of the entries that are not skipped. */
  lemma {:induction false} GroupsOfMembers(d: seq<(string, Entry)>, sel: string, show: Show, title: string -> string)
    ensures forall i :: 0 <= i < |d| && GroupOf(d[i].0, d[i].1, sel, show, title).Some? ==>
              GroupOf(d[i].0, d[i].1, sel, show, title).value in GroupsOf(d, sel, show, title)
    ensures forall gr :: gr in GroupsOf(d, sel, show, title) ==>
              exists i :: 0 <= i < |d| && GroupOf(d[i].0, d[i].1, sel, show, title) == Some(gr)
  {
    if d != [] {
      var tail := d[1..];
      GroupsOfMembers(tail, sel, show, title);
      var head := GroupOf(d[0].0, d[0].1, sel, show, title);
      var rest := GroupsOf(tail, sel, show, title);
      var r := GroupsOf(d, sel, show, title);
      assert r == (if head.Some? then [head.value] else []) + rest;
      forall i | 1 <= i < |d| && GroupOf(d[i].0, d[i].1, sel, show, title).Some?
        ensures GroupOf(d[i].0, d[i].1, sel, show, title).value in r
      {
        assert d[i] == tail[i - 1];
      }
      forall gr | gr in r
        ensures exists i :: 0 <= i < |d| && GroupOf(d[i].0, d[i].1, sel, show, title) == Some(gr)
      {
        if !(head.Some? && gr == head.value) {
          assert gr in rest;
          var k :| 0 <= k < |tail| && GroupOf(tail[k].0, tail[k].1, sel, show, title) == Some(gr);
          assert d[k + 1] == tail[k];
        }
      }
    }
  }

  /** No group is rendered exactly when every entry is skipped. */
  lemma GroupsEmptyIffAllSkipped(d: seq<(string, Entry)>, sel: string, show: Show, title: string -> string)
    ensures GroupsOf(d, sel, show, title) == []
            <==> forall i :: 0 <= i < |d| ==> GroupOf(d[i].0, d[i].1, sel, show, title).None?
  {
    GroupsOfMembers(d, sel, show, title);
    var r := GroupsOf(d, sel, show, title);
    if r != [] {
      assert r[0] in r;
    }
  }

  /** What a term or chapter card shows: the placeholder, or a list of groups (possibly none). */
  datatype Listing = Placeholder | Groups(groups: seq<Group>)

  /** `TermPapers` / `ChapterPapers`: the placeholder for a missing or empty object, else its groups. */
  function ListingOf(papers: Option<Dict<Entry>>, sel: string, show: Show, title: string -> string): (l: Listing)
    ensures l.Placeholder? <==> papers.None? || papers.value == []
    ensures l.Groups? ==> l.groups == GroupsOf(papers.value, sel, show, title)
  {
    if papers.None? || papers.value == [] then Placeholder
    else Groups(GroupsOf(papers.value, sel, show, title))
  }

  /** The groups a listing renders; the placeholder renders none. */
  function Rendered(l: Listing): seq<Group> {
    if l.Placeholder? then [] else l.groups
  }

  /** `subject.resources.papers || {}`: a missing papers object has neither terms nor chapters. */
  function PapersOf(v: SubjectView): Papers {
    v.resources.papers.GetOr(Papers(None, None))
  }

  /** `papers.terms && Object.values(papers.terms).some(...)`: some array entry holds a passing paper. */
  predicate HasMatching(group: Option<Dict<Entry>>, show: Show) {
    group.Some? && Any(Values(group.value), (e: Entry) => e.Arr? && Any(e.items, Passes(show)))
  }

  /** `hasTermPapers || hasChapterPapers`. */
  function HasPapers(show: Show): SubjectView -> bool {
    (v: SubjectView) => HasMatching(PapersOf(v).terms, show) || HasMatching(PapersOf(v).chapters, show)
  }

  /** Under a language selection, an entry is rendered exactly when it is an array with a passing paper. */
  lemma RenderedEntry(key: string, e: Entry, sel: string, show: Show, title: string -> string)
    requires sel != All
    ensures GroupOf(key, e, sel, show, title).Some? <==> e.Arr? && Any(e.items, Passes(show))
  {
  }

  /** Under a language selection, an object has a passing paper exactly when its listing renders a group. */
  lemma MatchingIffGroups(group: Option<Dict<Entry>>, sel: string, show: Show, title: string -> string)
    requires sel != All
    ensures HasMatching(group, show) <==> Rendered(ListingOf(group, sel, show, title)) != []
  {
    if group.Some? && group.value != [] {
      var d := group.value;
      var l := ListingOf(group, sel, show, title);
      assert Rendered(l) == GroupsOf(d, sel, show, title);
      GroupsEmptyIffAllSkipped(d, sel, show, title);
      if HasMatching(group, show) {
        var i :| 0 <= i < |d| && Values(d)[i].Arr? && Any(Values(d)[i].items, Passes(show));
        RenderedEntry(d[i].0, d[i].1, sel, show, title);
      }
      if GroupsOf(d, sel, show, title) != [] {
        var i :| 0 <= i < |d| && GroupOf(d[i].0, d[i].1, sel, show, title).Some?;
        RenderedEntry(d[i].0, d[i].1, sel, show, title);
        assert Values(d)[i] == d[i].1;
      }
    }
  }

  /** One subject's section: its name and icon, and its term and chapter cards. */
  datatype Section = Section(name: string, icon: string, terms: Listing, chapters: Listing)

  function SectionIn(sel: string, show: Show): (string, SubjectView) -> Section {
    (id: string, v: SubjectView) =>
      Section(v.subject.name, v.subject.icon,
              ListingOf(PapersOf(v).terms, sel, show, FormatTermName),
              ListingOf(PapersOf(v).chapters, sel, show, FormatChapterName))
  }

  /**
   * Under a language selection, a subject is skipped exactly when neither of
   * its cards would render a group: the skip rule hides no subject that has
   * something to show, and leaves no subject showing only empty cards.
   */
  lemma SkippedIffNothingRendered(v: SubjectView, sel: string, show: Show)
    requires sel != All
    ensures Skipped(sel, HasPapers(show)(v))
            <==> Rendered(SectionIn(sel, show)("", v).terms) == [] && Rendered(SectionIn(sel, show)("", v).chapters) == []
  {
    MatchingIffGroups(PapersOf(v).terms, sel, show, FormatTermName);
    MatchingIffGroups(PapersOf(v).chapters, sel, show, FormatChapterName);
  }

  /** The page: not found for an unknown grade, else the visible sections and the "no subjects" message. */
  datatype Screen = NotFound | Page(display: string, sections: Dict<Section>, noSubjects: bool)

  function Render(p: PageData, sel: string, show: Show): (s: Screen)
    ensures s.NotFound? <==> p.grade.None?
    ensures s.Page? ==> s.display == p.grade.value.display && (s.noSubjects <==> p.subjects == [])
  {
    if p.grade.None? then NotFound
    else Page(p.grade.value.display, Sections(p.subjects, sel, HasPapers(show), SectionIn(sel, show)), p.subjects == [])
  }

  /** A subject of the grade has a section exactly when the skip rule keeps it. */
  lemma RenderSections(p: PageData, sel: string, show: Show, id: string)
    requires p.grade.Some?
    ensures Get(Render(p, sel, show).sections, id)
            == if Get(p.subjects, id).Some? && !Skipped(sel, HasPapers(show)(Get(p.subjects, id).value))
               then Some(SectionIn(sel, show)(id, Get(p.subjects, id).value)) else None
  {
    SectionLookup(p.subjects, sel, HasPapers(show), SectionIn(sel, show), id);
  }

  /**
   * A subject with no stored resources gets the empty bundle of `getResources`,
   * whose three empty terms are an object with keys: the term card renders
   * no group at all rather than the "No term papers available" placeholder,
   * while the chapter card, with no keys, renders the placeholder.
   */
  lemma EmptyBundleCards(sel: string, show: Show)
    ensures Rendered(ListingOf(EmptyBundle.papers.value.terms, sel, show, FormatTermName)) == []
    ensures !ListingOf(EmptyBundle.papers.value.terms, sel, show, FormatTermName).Placeholder?
    ensures ListingOf(EmptyBundle.papers.value.chapters, sel, show, FormatChapterName).Placeholder?
  {
    var d := EmptyBundle.papers.value.terms.value;
    GroupsEmptyIffAllSkipped(d, sel, show, FormatTermName);
  }
}
