/**
 * The video-lessons page (src/pages/VideosPage.js): the language filtering
 * of `VideosGrid` with its two empty-result branches, the rule that skips a
 * subject and the grade-level "no videos found" message.
 */
module VideosPage {
  import opened Wrappers
  import opened Dicts
  import opened Seqs
  import opened Catalog
  import opened Queries
  import opened PageFilter

  /** What `VideosGrid` shows: "No video lessons available", "No videos found", or the passing videos in order. */
  datatype Listing = NoVideos | NoMatch | Grid(videos: seq<Record>)

  /** `VideosGrid`: the empty list is caught before filtering; an empty filter result counts only under a selection. */
  function VideosGrid(videos: seq<Record>, sel: string, show: Show): (l: Listing)
    ensures l.NoVideos? <==> videos == []
    ensures l.NoMatch? <==> videos != [] && sel != All && !Any(videos, Passes(show))
    ensures l.Grid? ==> l.videos == Filter(videos, Passes(show))
  {
    if videos == [] then NoVideos
    else
      var filtered := Filter(videos, Passes(show));
      FilterEmptyIffNone(videos, Passes(show));
      if |filtered| == 0 && sel != All then NoMatch else Grid(filtered)
  }

  /** `hasFilteredVideos`: some video of the subject passes (its videos are `[]` when none are stored). */
  function HasVideos(show: Show): SubjectView -> bool {
    (v: SubjectView) => Any(v.videos, Passes(show))
  }

  /** One subject's section: its name and icon, and its videos grid. */
  datatype Section = Section(name: string, icon: string, videos: Listing)

  function SectionIn(sel: string, show: Show): (string, SubjectView) -> Section {
    (id: string, v: SubjectView) => Section(v.subject.name, v.subject.icon, VideosGrid(v.videos, sel, show))
  }

  /** Under a selection a subject that is not skipped shows a grid with at least one video, every one of which passes. */
  lemma KeptSubjectShowsVideos(v: SubjectView, sel: string, show: Show)
    requires sel != All && !Skipped(sel, HasVideos(show)(v))
    ensures var l := SectionIn(sel, show)("", v).videos;
            l.Grid? && l.videos != [] && forall i :: 0 <= i < |l.videos| ==> show(LanguageOf(l.videos[i]))
  {
    FilterEmptyIffNone(v.videos, Passes(show));
  }

  /** The page: not found for an unknown grade, else the visible sections and the two grade-level messages. */
  datatype Screen = NotFound | Page(display: string, sections: Dict<Section>, noSubjects: bool, noResults: bool)

  function Render(p: PageData, sel: string, show: Show): (s: Screen)
    ensures s.NotFound? <==> p.grade.None?
    ensures s.Page? ==> s.display == p.grade.value.display && (s.noSubjects <==> p.subjects == [])
  {
    if p.grade.None? then NotFound
    else Page(p.grade.value.display, Sections(p.subjects, sel, HasVideos(show), SectionIn(sel, show)),
              p.subjects == [], NoResults(p.subjects, sel, HasVideos(show)))
  }

  /** A subject of the grade has a section exactly when the skip rule keeps it. */
  lemma RenderSections(p: PageData, sel: string, show: Show, id: string)
    requires p.grade.Some?
    ensures Get(Render(p, sel, show).sections, id)
            == if Get(p.subjects, id).Some? && !Skipped(sel, HasVideos(show)(Get(p.subjects, id).value))
               then Some(SectionIn(sel, show)(id, Get(p.subjects, id).value)) else None
  {
    SectionLookup(p.subjects, sel, HasVideos(show), SectionIn(sel, show), id);
  }

  /** "No videos found" for the grade shows exactly when the grade has subjects, a selection is made, and no section is rendered. */
  lemma NoResultsIffNoSections(p: PageData, sel: string, show: Show)
    requires p.grade.Some?
    ensures Render(p, sel, show).noResults <==> p.subjects != [] && sel != All && Render(p, sel, show).sections == []
  {
    NoResultsIffAllSkipped(p.subjects, sel, HasVideos(show));
  }

  /**
   * On the page built from the store, a subject with no stored videos is
   * shown "No video lessons available" if shown at all: `getVideos` gives it
   * the empty list, which the grid catches before filtering.
   */
  lemma MissingVideosRenderEmpty(s: State, g: string, id: string, sel: string, show: Show)
    requires GetIn(s.videos, g, id).None?
    requires Get(s.subjects, id).Some? && g in Get(s.subjects, id).value.grades
    ensures var v := Get(GradePageData(s, g).subjects, id).value;
            VideosGrid(v.videos, sel, show).NoVideos? && Skipped(sel, HasVideos(show)(v)) == (sel != All)
  {
    GradePageSubjects(s, g, id);
  }
}
