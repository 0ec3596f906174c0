/**
 * The action creators of the data provider (src/context/DataContext.js):
 * each dispatches its reducer action and then a LOG_ACTIVITY. The log
 * message the source builds from the arguments is an input here.
 */
module ActionCreators {
  import opened Wrappers
  import opened Dicts
  import opened Catalog
  import opened Reducer
  import opened StoreProperties

  /** `addTextbook`: ADD_TEXTBOOK, then LOG_ACTIVITY. */
  function AddTextbookSteps(g: string, sub: string, medium: string, fileData: Record,
                            message: string, logId: int, now: string): seq<Action>
  {
    [AddTextbook(g, sub, medium, fileData, now), LogActivity(message, logId, now)]
  }

  /** `addPaper`: the default parameters `schoolName = ''` and `language = 'english'` apply to missing arguments. */
  function AddPaperSteps(g: string, sub: string, paperType: string, category: string, fileData: Record,
                         schoolName: Option<Value>, language: Option<Value>,
                         message: string, id: string, logId: int, now: string): seq<Action>
  {
    [AddPaper(g, sub, paperType, category, fileData, Some(schoolName.GetOr(Str(""))),
              Some(language.GetOr(Str(DefaultLanguage))), id, now),
     LogActivity(message, logId, now)]
  }

  /** `addVideo`: ADD_VIDEO, then LOG_ACTIVITY. */
  function AddVideoSteps(g: string, sub: string, videoData: Record,
                         message: string, id: string, logId: int, now: string): seq<Action>
  {
    [AddVideo(g, sub, videoData, id, now), LogActivity(message, logId, now)]
  }

  /** One step dispatched alone. */
  lemma DispatchOne(s: State, b: Action)
    ensures Dispatch(s, [b]) == Reduce(s, b)
  {
    assert [b][1..] == [];
  }

  /** Two steps dispatched one after the other. */
  lemma DispatchTwo(s: State, a: Action, b: Action)
    requires Reduce(s, a).Ok?
    ensures Dispatch(s, [a, b]) == Reduce(Reduce(s, a).value, b)
  {
    DispatchFirst(s, [a, b]);
    assert [a, b][1..] == [b];
    DispatchOne(Reduce(s, a).value, b);
  }

  lemma ReduceTextbook(s: State, a: Action)
    requires a.AddTextbook?
    ensures Reduce(s, a) == Ok(AddTextbookTo(s, a.gradeId, a.subjectId, a.medium, a.fileData, a.now))
  {
  }

  lemma ReduceVideo(s: State, a: Action)
    requires a.AddVideo?
    ensures Reduce(s, a) == Ok(AddVideoTo(s, a.gradeId, a.subjectId, a.videoData, a.id, a.now))
  {
  }

  /** After `addTextbook` the medium holds the new record and the newest log entry is the message. */
  lemma AddTextbookFlow(s: State, g: string, sub: string, medium: string, fileData: Record,
                        message: string, logId: int, now: string)
    ensures var r := Dispatch(s, AddTextbookSteps(g, sub, medium, fileData, message, logId, now));
            && r.Ok?
            && GetIn(r.value.resources, g, sub).Some?
            && GetIn(r.value.resources, g, sub).value.textbooks.Some?
            && Get(GetIn(r.value.resources, g, sub).value.textbooks.value, medium)
               == Some(TextbookRecord(fileData, medium, now))
            && Log(r.value) != [] && Log(r.value)[0] == Activity(message, now, logId)
  {
    var s1 := AddTextbookTo(s, g, sub, medium, fileData, now);
    AddTextbookEffect(s, g, sub, medium, fileData, now);
    ReduceTextbook(s, AddTextbook(g, sub, medium, fileData, now));
    ReduceLog(s1, LogActivity(message, logId, now));
    LogActivityEffect(s1, message, logId, now);
    DispatchTwo(s, AddTextbook(g, sub, medium, fileData, now), LogActivity(message, logId, now));
    var s2 := LogActivityIn(s1, message, logId, now);
    assert s2.resources == s1.resources;
  }

  /** The record `addPaper` files: `school` and `language` follow the default parameters and then the reducer's `||` defaults. */
  lemma AddPaperDefaults(fileData: Record, schoolName: Option<Value>, language: Option<Value>, id: string, now: string)
    ensures var rec := PaperRecord(fileData, Some(schoolName.GetOr(Str(""))), Some(language.GetOr(Str(DefaultLanguage))), id, now);
            && Get(rec, "school") == Some(if Falsy(schoolName) then Str(UnknownSchool) else schoolName.value)
            && Get(rec, "language") == Some(if Falsy(language) then Str(DefaultLanguage) else language.value)
  {
  }

  /** `addPaper` on a place that cannot take the paper: the first dispatch throws and nothing is logged. */
  lemma AddPaperFlowRejected(s: State, g: string, sub: string, paperType: string, category: string, fileData: Record,
                             schoolName: Option<Value>, language: Option<Value>,
                             message: string, id: string, logId: int, now: string)
    requires !CanFile(s, g, sub, paperType == "term", category)
    ensures Dispatch(s, AddPaperSteps(g, sub, paperType, category, fileData, schoolName, language,
                                      message, id, logId, now)).Err?
  {
    var steps := AddPaperSteps(g, sub, paperType, category, fileData, schoolName, language, message, id, logId, now);
    ReduceAddPaper(s, steps[0]);
  }

  /** The outcome of filing `rec` at a place that can take it, with `entry` as the newest log entry. */
  predicate FiledWithLog(s: State, r: Result<State>, g: string, sub: string, isTerm: bool, category: string,
                         rec: Record, entry: Activity)
    requires CanFile(s, g, sub, isTerm, category)
  {
    && r.Ok?
    && CanFile(r.value, g, sub, isTerm, category)
    && Filed(r.value, g, sub, isTerm, category) == Filed(s, g, sub, isTerm, category) + [rec]
    && Log(r.value) != [] && Log(r.value)[0] == entry
  }

  /**
   * `addPaper` on a place that can take the paper: the chosen group ends with
   * the new record, after the papers already there, and the newest log entry is the message.
   */
  lemma AddPaperFlowAccepted(s: State, g: string, sub: string, paperType: string, category: string, fileData: Record,
                             schoolName: Option<Value>, language: Option<Value>,
                             message: string, id: string, logId: int, now: string)
    requires CanFile(s, g, sub, paperType == "term", category)
    ensures FiledWithLog(s, Dispatch(s, AddPaperSteps(g, sub, paperType, category, fileData, schoolName, language,
                                                      message, id, logId, now)),
                         g, sub, paperType == "term", category,
                         PaperRecord(fileData, Some(schoolName.GetOr(Str(""))), Some(language.GetOr(Str(DefaultLanguage))), id, now),
                         Activity(message, now, logId))
  {
    var isTerm := paperType == "term";
    var school := Some(schoolName.GetOr(Str("")));
    var lang := Some(language.GetOr(Str(DefaultLanguage)));
    var a := AddPaper(g, sub, paperType, category, fileData, school, lang, id, now);
    ReduceAddPaper(s, a);
    AddPaperAppends(s, g, sub, paperType, category, fileData, school, lang, id, now);
    var s1 := Reduce(s, a).value;
    ReduceLog(s1, LogActivity(message, logId, now));
    LogActivityEffect(s1, message, logId, now);
    DispatchTwo(s, a, LogActivity(message, logId, now));
    var s2 := LogActivityIn(s1, message, logId, now);
    assert s2.resources == s1.resources;
    assert CurrentBundle(s2, g, sub) == CurrentBundle(s1, g, sub);
  }

  /** After `addVideo` the list ends with the new video and the newest log entry is the message. */
  lemma AddVideoFlow(s: State, g: string, sub: string, videoData: Record,
                     message: string, id: string, logId: int, now: string)
    ensures var r := Dispatch(s, AddVideoSteps(g, sub, videoData, message, id, logId, now));
            && r.Ok?
            && GetIn(r.value.videos, g, sub) == Some(GetIn(s.videos, g, sub).GetOr([]) + [VideoRecord(videoData, id, now)])
            && Log(r.value) != [] && Log(r.value)[0] == Activity(message, now, logId)
  {
    var s1 := AddVideoTo(s, g, sub, videoData, id, now);
    AddVideoEffect(s, g, sub, videoData, id, now);
    ReduceVideo(s, AddVideo(g, sub, videoData, id, now));
    ReduceLog(s1, LogActivity(message, logId, now));
    LogActivityEffect(s1, message, logId, now);
    DispatchTwo(s, AddVideo(g, sub, videoData, id, now), LogActivity(message, logId, now));
    var s2 := LogActivityIn(s1, message, logId, now);
    assert s2.videos == s1.videos;
  }
}
