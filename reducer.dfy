/**
 * `dataReducer` (src/context/DataContext.js): every case returns a new,
 * spread-copied state. Ids and timestamps that the source takes from the
 * clock or from `Math.random()` arrive as fields of the action.
 */
module Reducer {
  import opened Wrappers
  import opened Dicts
  import opened Catalog

  datatype Action =
    | SetLoading(flag: bool)
    | SetError(message: string)
    | InitializeData(payload: Snapshot)
    | AddTextbook(gradeId: string, subjectId: string, medium: string, fileData: Record, now: string)
    | AddPaper(gradeId: string, subjectId: string, paperType: string, paperCategory: string,
               fileData: Record, schoolName: Option<Value>, language: Option<Value>, id: string, now: string)
    | AddVideo(gradeId: string, subjectId: string, videoData: Record, id: string, now: string)
    | DeleteResource
    | LogActivity(message: string, entryId: int, now: string)
    | Unrecognised

  const UnknownSchool := "Unknown School"
  const DefaultLanguage := "english"
  const MaxActivities := 50

  /** The textbooks of a bundle that may be missing, `{}` when there are none. */
  function TextbooksIn(b: Option<Bundle>): Dict<Record> {
    if b.Some? && b.value.textbooks.Some? then b.value.textbooks.value else []
  }

  /** `{...fileData, language: medium, uploadDate: now}`. */
  function TextbookRecord(fileData: Record, medium: string, now: string): (r: Record)
    ensures Get(r, "language") == Some(Str(medium))
    ensures Get(r, "uploadDate") == Some(Str(now))
    ensures forall k :: k != "language" && k != "uploadDate" ==> Get(r, k) == Get(fileData, k)
  {
    Set(Set(fileData, "language", Str(medium)), "uploadDate", Str(now))
  }

  /** Case ADD_TEXTBOOK: overwrite one medium of one bundle. */
  function AddTextbookTo(s: State, g: string, sub: string, medium: string, fileData: Record, now: string): State {
    s.(resources := SetIn(s.resources, g, sub, WithTextbook(GetIn(s.resources, g, sub), medium, TextbookRecord(fileData, medium, now))))
  }

  /**
   * ADD_TEXTBOOK sets the record under its medium in the bundle of the place,
   * keeps the bundle's other mediums, papers and notes, and changes nothing else.
   */
  lemma AddTextbookEffect(s: State, g: string, sub: string, medium: string, fileData: Record, now: string)
    ensures var r := AddTextbookTo(s, g, sub, medium, fileData, now);
            GetIn(r.resources, g, sub).Some?
    ensures var r := AddTextbookTo(s, g, sub, medium, fileData, now);
            var b := GetIn(r.resources, g, sub).value;
            var prev := GetIn(s.resources, g, sub);
            && b.textbooks.Some?
            && Get(b.textbooks.value, medium) == Some(TextbookRecord(fileData, medium, now))
            && (forall m :: m != medium ==> Get(b.textbooks.value, m) == Get(TextbooksIn(prev), m))
            && b.papers == (if prev.Some? then prev.value.papers else None)
            && b.notes == (if prev.Some? then prev.value.notes else None)
    ensures var r := AddTextbookTo(s, g, sub, medium, fileData, now);
            forall g', s' :: g' != g || s' != sub ==> GetIn(r.resources, g', s') == GetIn(s.resources, g', s')
    ensures AddTextbookTo(s, g, sub, medium, fileData, now).(resources := s.resources) == s
  {
  }

  /** The bundle after `rec` is set under `medium`; a missing bundle becomes one holding only textbooks. */
  function WithTextbook(prev: Option<Bundle>, medium: string, rec: Record): Bundle {
    var textbooks := Set(TextbooksIn(prev), medium, rec);
    if prev.Some? then prev.value.(textbooks := Some(textbooks)) else Bundle(Some(textbooks), None, None)
  }

  /** `{id, ...fileData, school: schoolName || 'Unknown School', language: language || 'english', uploadDate: now}`. */
  function PaperRecord(fileData: Record, schoolName: Option<Value>, language: Option<Value>, id: string, now: string): (r: Record)
    ensures Get(r, "id") == if "id" in Keys(fileData) then Get(fileData, "id") else Some(Str(id))
    ensures Get(r, "school") == Some(OrDefault(schoolName, UnknownSchool))
    ensures Get(r, "language") == Some(OrDefault(language, DefaultLanguage))
    ensures Get(r, "uploadDate") == Some(Str(now))
    ensures forall k :: k !in ["id", "school", "language", "uploadDate"] ==> Get(r, k) == Get(fileData, k)
  {
    var base := Merge([("id", Str(id))], fileData);
    var r1 := Set(base, "school", OrDefault(schoolName, UnknownSchool));
    var r2 := Set(r1, "language", OrDefault(language, DefaultLanguage));
    var r := Set(r2, "uploadDate", Str(now));
    assert Keys([("id", Str(id))]) == ["id"];
    forall k | k !in ["id", "school", "language", "uploadDate"] ensures Get(r, k) == Get(fileData, k) {
      assert Get(r, k) == Get(r2, k) == Get(r1, k) == Get(base, k);
      if k !in Keys(fileData) {
        assert Get([("id", Str(id))], k) == None;
      }
    }
    r
  }

  /** The bundle ADD_PAPER starts from when there is none. */
  const PaperStarter := Bundle(None, Some(Papers(Some([("term1", Arr([])), ("term2", Arr([])), ("term3", Arr([]))]), Some([]))), None)

  /** The papers already filed under a key: `group[k] || []`. */
  function ItemsUnder(group: Dict<Entry>, k: string): seq<Record>
    requires Get(group, k) != Some(NotArray)
  {
    match Get(group, k)
    case None => []
    case Some(e) => e.items
  }

  /** `{...group, [k]: [...(group[k] || []), x]}`; `None` when `group[k]` is not an array (spreading it throws). */
  function AppendUnder(group: Dict<Entry>, k: string, x: Record): (r: Option<Dict<Entry>>)
    ensures r.None? <==> Get(group, k) == Some(NotArray)
    ensures r.Some? ==> Get(r.value, k) == Some(Arr(ItemsUnder(group, k) + [x]))
    ensures r.Some? ==> forall j :: j != k ==> Get(r.value, j) == Get(group, j)
  {
    if Get(group, k) == Some(NotArray) then None
    else Some(Set(group, k, Arr(ItemsUnder(group, k) + [x])))
  }

  /** The bundle ADD_PAPER works on: the stored one, or the starter. */
  function CurrentBundle(s: State, g: string, sub: string): Bundle {
    GetIn(s.resources, g, sub).GetOr(PaperStarter)
  }

  /** The term or chapter grouping ADD_PAPER appends to, when the bundle has one. */
  function Grouping(b: Bundle, isTerm: bool): Option<Dict<Entry>> {
    if b.papers.None? then None
    else if isTerm then b.papers.value.terms
    else b.papers.value.chapters
  }

  /** Case ADD_PAPER: append one paper to `terms[category]` (type 'term') or `chapters[category]` (any other type). */
  function AddPaperTo(s: State, g: string, sub: string, paperType: string, category: string, fileData: Record,
                      schoolName: Option<Value>, language: Option<Value>, id: string, now: string): Result<State>
  {
    var cur := CurrentBundle(s, g, sub);
    var isTerm := paperType == "term";
    match Grouping(cur, isTerm)
    case None => Err("TypeError: cannot read properties of undefined")
    case Some(group) =>
      match AppendUnder(group, category, PaperRecord(fileData, schoolName, language, id, now))
      case None => Err("TypeError: the stored entry is not iterable")
      case Some(group') =>
        var papers := if isTerm then cur.papers.value.(terms := Some(group'))
                      else cur.papers.value.(chapters := Some(group'));
        Ok(s.(resources := SetIn(s.resources, g, sub, cur.(papers := Some(papers)))))
  }

  /**
   * ADD_PAPER throws exactly when the grouping is missing or its entry is not
   * an array; otherwise it appends the record to that entry and changes nothing else.
   */
  lemma AddPaperEffect(s: State, g: string, sub: string, paperType: string, category: string, fileData: Record,
                       schoolName: Option<Value>, language: Option<Value>, id: string, now: string)
    ensures var r := AddPaperTo(s, g, sub, paperType, category, fileData, schoolName, language, id, now);
            var group := Grouping(CurrentBundle(s, g, sub), paperType == "term");
            r.Err? <==> group.None? || Get(group.value, category) == Some(NotArray)
    ensures var r := AddPaperTo(s, g, sub, paperType, category, fileData, schoolName, language, id, now);
            r.Ok? ==>
              var cur := CurrentBundle(s, g, sub);
              var isTerm := paperType == "term";
              var group := Grouping(cur, isTerm).value;
              var b := GetIn(r.value.resources, g, sub);
              && b.Some?
              && Grouping(b.value, isTerm).Some?
              && Get(Grouping(b.value, isTerm).value, category)
                   == Some(Arr(ItemsUnder(group, category) + [PaperRecord(fileData, schoolName, language, id, now)]))
              && (forall k :: k != category ==> Get(Grouping(b.value, isTerm).value, k) == Get(group, k))
              && Grouping(b.value, !isTerm) == Grouping(cur, !isTerm)
              && b.value.textbooks == cur.textbooks && b.value.notes == cur.notes
    ensures var r := AddPaperTo(s, g, sub, paperType, category, fileData, schoolName, language, id, now);
            r.Ok? ==> forall g', s' :: g' != g || s' != sub ==> GetIn(r.value.resources, g', s') == GetIn(s.resources, g', s')
    ensures var r := AddPaperTo(s, g, sub, paperType, category, fileData, schoolName, language, id, now);
            r.Ok? ==> r.value.(resources := s.resources) == s
  {
  }

  /** `{id, ...videoData, language: videoData.language || 'english', addedDate: now}`. */
  function VideoRecord(videoData: Record, id: string, now: string): (r: Record)
    ensures Get(r, "id") == if "id" in Keys(videoData) then Get(videoData, "id") else Some(Str(id))
    ensures Get(r, "language") == Some(OrDefault(LanguageOf(videoData), DefaultLanguage))
    ensures Get(r, "addedDate") == Some(Str(now))
    ensures forall k :: k !in ["id", "language", "addedDate"] ==> Get(r, k) == Get(videoData, k)
  {
    var base := Merge([("id", Str(id))], videoData);
    var r1 := Set(base, "language", OrDefault(LanguageOf(videoData), DefaultLanguage));
    var r := Set(r1, "addedDate", Str(now));
    assert Keys([("id", Str(id))]) == ["id"];
    forall k | k !in ["id", "language", "addedDate"] ensures Get(r, k) == Get(videoData, k) {
      assert Get(r, k) == Get(r1, k) == Get(base, k);
      if k !in Keys(videoData) {
        assert Get([("id", Str(id))], k) == None;
      }
    }
    r
  }

  /** Case ADD_VIDEO: append one video to `videos[g][sub]`, creating the list when absent. */
  function AddVideoTo(s: State, g: string, sub: string, videoData: Record, id: string, now: string): State {
    s.(videos := SetIn(s.videos, g, sub, GetIn(s.videos, g, sub).GetOr([]) + [VideoRecord(videoData, id, now)]))
  }

  /** ADD_VIDEO appends the record to the place's list, `[]` when it had none, and changes nothing else. */
  lemma AddVideoEffect(s: State, g: string, sub: string, videoData: Record, id: string, now: string)
    ensures var r := AddVideoTo(s, g, sub, videoData, id, now);
            GetIn(r.videos, g, sub) == Some(GetIn(s.videos, g, sub).GetOr([]) + [VideoRecord(videoData, id, now)])
    ensures var r := AddVideoTo(s, g, sub, videoData, id, now);
            forall g', s' :: g' != g || s' != sub ==> GetIn(r.videos, g', s') == GetIn(s.videos, g', s')
    ensures AddVideoTo(s, g, sub, videoData, id, now).(videos := s.videos) == s
  {
  }

  /** The activity log, `[]` when the settings have none. */
  function Log(s: State): seq<Activity> {
    s.settings.activities.GetOr([])
  }

  /** Case LOG_ACTIVITY: the new entry first, then the old entries in order, at most 50 in all. */
  function LogActivityIn(s: State, message: string, id: int, now: string): State {
    var updated := [Activity(message, now, id)] + Log(s);
    var kept := if |updated| <= MaxActivities then updated else updated[..MaxActivities];
    s.(settings := Settings(Some(kept), Set(s.settings.fields, "lastUpdated", Str(now))))
  }

  /**
   * LOG_ACTIVITY puts the new entry first, keeps the old entries after it up
   * to 50 in all, stamps `lastUpdated`, and changes nothing else.
   */
  lemma LogActivityEffect(s: State, message: string, id: int, now: string)
    ensures LogActivityIn(s, message, id, now).settings.activities.Some?
    ensures var r := LogActivityIn(s, message, id, now);
            |Log(r)| == if |Log(s)| < MaxActivities then |Log(s)| + 1 else MaxActivities
    ensures Log(LogActivityIn(s, message, id, now))[0] == Activity(message, now, id)
    ensures var r := LogActivityIn(s, message, id, now);
            forall i :: 1 <= i < |Log(r)| ==> Log(r)[i] == Log(s)[i - 1]
    ensures Get(LogActivityIn(s, message, id, now).settings.fields, "lastUpdated") == Some(Str(now))
    ensures var r := LogActivityIn(s, message, id, now);
            forall k :: k != "lastUpdated" ==> Get(r.settings.fields, k) == Get(s.settings.fields, k)
    ensures LogActivityIn(s, message, id, now).(settings := s.settings) == s
  {
  }

  /** Case INITIALIZE_DATA: `{...state, ...payload, loading: false}`. */
  function Overlay(s: State, p: Snapshot): (r: State)
    ensures r.grades == p.grades.GetOr(s.grades) && r.subjects == p.subjects.GetOr(s.subjects)
    ensures r.resources == p.resources.GetOr(s.resources) && r.videos == p.videos.GetOr(s.videos)
    ensures r.settings == p.settings.GetOr(s.settings) && r.error == p.error.GetOr(s.error)
    ensures !r.loading
  {
    State(p.grades.GetOr(s.grades), p.subjects.GetOr(s.subjects), p.resources.GetOr(s.resources),
          p.videos.GetOr(s.videos), p.settings.GetOr(s.settings), false, p.error.GetOr(s.error))
  }

  /** `dataReducer(state, action)`; `Err` where the source throws. */
  function Reduce(s: State, a: Action): (r: Result<State>)
    ensures r.Err? ==> a.AddPaper?
    ensures a.DeleteResource? || a.Unrecognised? ==> r == Ok(s)
  {
    match a
    case SetLoading(flag) => Ok(s.(loading := flag))
    case SetError(message) => Ok(s.(error := Some(message), loading := false))
    case InitializeData(payload) => Ok(Overlay(s, payload))
    case AddTextbook(g, sub, medium, fileData, now) => Ok(AddTextbookTo(s, g, sub, medium, fileData, now))
    case AddPaper(g, sub, paperType, category, fileData, schoolName, language, id, now) =>
      AddPaperTo(s, g, sub, paperType, category, fileData, schoolName, language, id, now)
    case AddVideo(g, sub, videoData, id, now) => Ok(AddVideoTo(s, g, sub, videoData, id, now))
    case DeleteResource => Ok(s)
    case LogActivity(message, id, now) => Ok(LogActivityIn(s, message, id, now))
    case Unrecognised => Ok(s)
  }

  /** Dispatching actions one after the other; a throw stops the sequence. */
  function Dispatch(s: State, actions: seq<Action>): Result<State>
    decreases |actions|
  {
    if actions == [] then Ok(s)
    else match Reduce(s, actions[0])
      case Err(e) => Err(e)
      case Ok(s') => Dispatch(s', actions[1..])
  }

  const ImportFailed := "Import failed: Invalid data format"
  const ImportSucceeded := "Data imported successfully"

  /**
   * `importData` on an already-parsed payload: rejected, with SET_ERROR, when
   * `grades` or `subjects` is missing; otherwise INITIALIZE_DATA then LOG_ACTIVITY.
   */
  function ImportData(s: State, p: Snapshot, logId: int, now: string): (r: (State, bool))
    ensures r.1 <==> p.grades.Some? && p.subjects.Some?
    ensures !r.1 ==> r.0 == s.(error := Some(ImportFailed), loading := false)
    ensures r.1 ==> r.0.(settings := s.settings) == Overlay(s, p).(settings := s.settings)
    ensures r.1 ==> Log(r.0) != [] && Log(r.0)[0] == Activity(ImportSucceeded, now, logId)
  {
    if p.grades.None? || p.subjects.None? then
      (Reduce(s, SetError(ImportFailed)).value, false)
    else
      var loaded := Reduce(s, InitializeData(p)).value;
      (Reduce(loaded, LogActivity(ImportSucceeded, logId, now)).value, true)
  }

  /** The state as a payload: every top-level key present (the JSON text itself is not modelled). */
  function ExportSnapshot(s: State): (p: Snapshot)
    ensures Overlay(s, p) == s.(loading := false)
  {
    Snapshot(Some(s.grades), Some(s.subjects), Some(s.resources), Some(s.videos), Some(s.settings), Some(s.error))
  }

  const ExportSucceeded := "Data exported successfully"

  /**
   * `exportData`: the snapshot of the state as it was, then LOG_ACTIVITY with
   * "Data exported successfully"; the exported file does not hold that entry.
   */
  function ExportData(s: State, logId: int, now: string): (r: (Snapshot, State))
    ensures Overlay(s, r.0) == s.(loading := false)
    ensures Log(r.1) != [] && Log(r.1)[0] == Activity(ExportSucceeded, now, logId)
    ensures |Log(r.1)| == if |Log(s)| < MaxActivities then |Log(s)| + 1 else MaxActivities
    ensures forall i :: 1 <= i < |Log(r.1)| ==> Log(r.1)[i] == Log(s)[i - 1]
    ensures r.1.(settings := s.settings) == s
  {
    LogActivityEffect(s, ExportSucceeded, logId, now);
    (ExportSnapshot(s), Reduce(s, LogActivity(ExportSucceeded, logId, now)).value)
  }
}
