/** Properties of sequences of reducer steps: overwrite, append-only, the capped log, the action creators. */
module StoreProperties {
  import opened Wrappers
  import opened Dicts
  import opened Seqs
  import opened Catalog
  import opened Reducer

  /** Adding the same medium twice leaves one record for it, the second one, and no extra key. */
  lemma AddTextbookTwice(s: State, g: string, sub: string, medium: string, first: Record, second: Record,
                         now1: string, now2: string)
    ensures var once := AddTextbookTo(s, g, sub, medium, first, now1);
            var twice := AddTextbookTo(once, g, sub, medium, second, now2);
            var t1 := GetIn(once.resources, g, sub).value.textbooks.value;
            var t2 := GetIn(twice.resources, g, sub).value.textbooks.value;
            && Keys(t2) == Keys(t1)
            && Get(t2, medium) == Some(TextbookRecord(second, medium, now2))
  {
    var once := AddTextbookTo(s, g, sub, medium, first, now1);
    var t1 := GetIn(once.resources, g, sub).value.textbooks.value;
    assert TextbooksIn(GetIn(once.resources, g, sub)) == t1;
    assert medium in Keys(t1);
  }

  /** ADD_PAPER would not throw: the grouping exists and its entry, if any, is an array. */
  predicate CanFile(s: State, g: string, sub: string, isTerm: bool, category: string) {
    var group := Grouping(CurrentBundle(s, g, sub), isTerm);
    group.Some? && Get(group.value, category) != Some(NotArray)
  }

  /** The papers filed under one category of one bundle. */
  function Filed(s: State, g: string, sub: string, isTerm: bool, category: string): seq<Record>
    requires CanFile(s, g, sub, isTerm, category)
  {
    ItemsUnder(Grouping(CurrentBundle(s, g, sub), isTerm).value, category)
  }

  /** The action is ADD_PAPER to the given place. */
  predicate Targets(a: Action, g: string, sub: string, isTerm: bool, category: string) {
    && a.AddPaper?
    && a.gradeId == g && a.subjectId == sub
    && (a.paperType == "term") == isTerm
    && a.paperCategory == category
  }

  /** All the actions are ADD_PAPER to the same place. */
  predicate SameTarget(actions: seq<Action>, g: string, sub: string, isTerm: bool, category: string) {
    forall i :: 0 <= i < |actions| ==> Targets(actions[i], g, sub, isTerm, category)
  }

  /** A non-empty list of same-place actions: its head targets the place and so does its tail. */
  lemma SameTargetTail(actions: seq<Action>, g: string, sub: string, isTerm: bool, category: string)
    requires actions != [] && SameTarget(actions, g, sub, isTerm, category)
    ensures Targets(actions[0], g, sub, isTerm, category) && SameTarget(actions[1..], g, sub, isTerm, category)
  {
    forall i | 0 <= i < |actions| - 1 ensures Targets(actions[1..][i], g, sub, isTerm, category) {
      assert actions[1..][i] == actions[i + 1];
    }
  }

  /** The records that a list of ADD_PAPER actions file, in order. */
  function RecordsOf(actions: seq<Action>): seq<Record>
    requires forall i :: 0 <= i < |actions| ==> actions[i].AddPaper?
    decreases |actions|
  {
    if actions == [] then []
    else
      var a := actions[0];
      [PaperRecord(a.fileData, a.schoolName, a.language, a.id, a.now)] + RecordsOf(actions[1..])
  }

  /** Reducing an ADD_PAPER action is `AddPaperTo` on its fields. */
  lemma ReduceAddPaper(s: State, a: Action)
    requires a.AddPaper?
    ensures Reduce(s, a) == AddPaperTo(s, a.gradeId, a.subjectId, a.paperType, a.paperCategory, a.fileData,
                                       a.schoolName, a.language, a.id, a.now)
  {
  }

  /** On a place that can take it, ADD_PAPER succeeds and leaves the place able to take another. */
  lemma AddPaperAppends(s: State, g: string, sub: string, paperType: string, category: string, fileData: Record,
                        schoolName: Option<Value>, language: Option<Value>, id: string, now: string)
    requires CanFile(s, g, sub, paperType == "term", category)
    ensures var r := AddPaperTo(s, g, sub, paperType, category, fileData, schoolName, language, id, now);
            && r.Ok?
            && CanFile(r.value, g, sub, paperType == "term", category)
            && Filed(r.value, g, sub, paperType == "term", category)
               == Filed(s, g, sub, paperType == "term", category) + [PaperRecord(fileData, schoolName, language, id, now)]
  {
    var r := AddPaperTo(s, g, sub, paperType, category, fileData, schoolName, language, id, now);
    assert CurrentBundle(r.value, g, sub) == GetIn(r.value.resources, g, sub).value;
  }

  /** One ADD_PAPER step on a place that can take it files the record at the end. */
  lemma FileOne(s: State, a: Action, g: string, sub: string, isTerm: bool, category: string)
    requires Targets(a, g, sub, isTerm, category)
    requires CanFile(s, g, sub, isTerm, category)
    ensures Reduce(s, a).Ok?
    ensures CanFile(Reduce(s, a).value, g, sub, isTerm, category)
    ensures Filed(Reduce(s, a).value, g, sub, isTerm, category) == Filed(s, g, sub, isTerm, category) + [PaperRecord(a.fileData, a.schoolName, a.language, a.id, a.now)]
  {
    ReduceAddPaper(s, a);
    AddPaperAppends(s, g, sub, a.paperType, category, a.fileData, a.schoolName, a.language, a.id, a.now);
  }

  /** Papers are append-only: N additions to one key add exactly those N records, at the end, in order. */
  lemma {:induction false} PapersAppendOnly(s: State, actions: seq<Action>, g: string, sub: string,
                                            isTerm: bool, category: string)
    requires SameTarget(actions, g, sub, isTerm, category)
    requires CanFile(s, g, sub, isTerm, category)
    ensures Dispatch(s, actions).Ok?
    ensures CanFile(Dispatch(s, actions).value, g, sub, isTerm, category)
    ensures Filed(Dispatch(s, actions).value, g, sub, isTerm, category) == Filed(s, g, sub, isTerm, category) + RecordsOf(actions)
    ensures |Filed(Dispatch(s, actions).value, g, sub, isTerm, category)| == |Filed(s, g, sub, isTerm, category)| + |actions|
    decreases |actions|
  {
    if actions != [] {
      FileOne(s, actions[0], g, sub, isTerm, category);
      var s1 := Reduce(s, actions[0]).value;
      SameTargetTail(actions, g, sub, isTerm, category);
      PapersAppendOnly(s1, actions[1..], g, sub, isTerm, category);
      DispatchFirst(s, actions);
      RecordsOfFirst(actions);
      RecordsLength(actions);
      var a := actions[0];
      ConcatAssoc(Filed(s, g, sub, isTerm, category), [PaperRecord(a.fileData, a.schoolName, a.language, a.id, a.now)],
                  RecordsOf(actions[1..]));
    }
  }

  /** Dispatching a non-empty list whose first action succeeds continues from that action's state. */
  lemma DispatchFirst(s: State, actions: seq<Action>)
    requires actions != [] && Reduce(s, actions[0]).Ok?
    ensures Dispatch(s, actions) == Dispatch(Reduce(s, actions[0]).value, actions[1..])
  {
  }

  lemma RecordsOfFirst(actions: seq<Action>)
    requires actions != [] && forall i :: 0 <= i < |actions| ==> actions[i].AddPaper?
    ensures var a := actions[0];
            RecordsOf(actions) == [PaperRecord(a.fileData, a.schoolName, a.language, a.id, a.now)] + RecordsOf(actions[1..])
  {
  }

  lemma {:induction false} RecordsLength(actions: seq<Action>)
    requires forall i :: 0 <= i < |actions| ==> actions[i].AddPaper?
    ensures |RecordsOf(actions)| == |actions|
  {
    if actions != [] { RecordsLength(actions[1..]); }
  }

  /** At most `n` leading elements. */
  function Take<T>(x: seq<T>, n: nat): seq<T> {
    if |x| <= n then x else x[..n]
  }

  /** All the actions are LOG_ACTIVITY. */
  predicate AllLogs(actions: seq<Action>) {
    forall i :: 0 <= i < |actions| ==> actions[i].LogActivity?
  }

  /** The entries a list of LOG_ACTIVITY actions creates, newest first. */
  function NewestFirst(actions: seq<Action>): seq<Activity>
    requires AllLogs(actions)
  {
    if actions == [] then []
    else
      var a := actions[0];
      NewestFirst(actions[1..]) + [Activity(a.message, a.now, a.entryId)]
  }

  /** One LOG_ACTIVITY step is "prepend, then keep 50". */
  lemma LogStep(s: State, message: string, id: int, now: string)
    ensures Log(LogActivityIn(s, message, id, now)) == Take([Activity(message, now, id)] + Log(s), MaxActivities)
  {
    var r := Log(LogActivityIn(s, message, id, now));
    var t := Take([Activity(message, now, id)] + Log(s), MaxActivities);
    assert |r| == |t|;
    forall i | 0 <= i < |r| ensures r[i] == t[i] {
    }
  }

  /** Truncating before or after prepending more entries keeps the same leading `n`. */
  lemma TakeTwice<T>(a: seq<T>, b: seq<T>, n: nat)
    ensures Take(a + Take(b, n), n) == Take(a + b, n)
  {
    if |b| > n {
      assert (a + b[..n])[..n] == (a + b)[..n];
    }
  }

  lemma ReduceLog(s: State, a: Action)
    requires a.LogActivity?
    ensures Reduce(s, a) == Ok(LogActivityIn(s, a.message, a.entryId, a.now))
  {
  }

  /** Dispatching a LOG_ACTIVITY first is logging, then dispatching the rest. */
  lemma DispatchLog(s: State, actions: seq<Action>)
    requires actions != [] && actions[0].LogActivity?
    ensures Dispatch(s, actions) == Dispatch(LogActivityIn(s, actions[0].message, actions[0].entryId, actions[0].now), actions[1..])
  {
    ReduceLog(s, actions[0]);
    DispatchFirst(s, actions);
  }

  /** The log after one or more LOG_ACTIVITY steps: the newest entries first, then the old log, at most 50. */
  lemma {:induction false} LogAfterSteps(s: State, actions: seq<Action>)
    requires AllLogs(actions) && actions != []
    ensures Dispatch(s, actions).Ok?
    ensures Log(Dispatch(s, actions).value) == Take(NewestFirst(actions) + Log(s), MaxActivities)
    decreases |actions|
  {
    var a := actions[0];
    var rest := actions[1..];
    var s1 := LogActivityIn(s, a.message, a.entryId, a.now);
    var e := Activity(a.message, a.now, a.entryId);
    LogStep(s, a.message, a.entryId, a.now);
    DispatchLog(s, actions);
    assert AllLogs(rest);
    assert NewestFirst(actions) == NewestFirst(rest) + [e];
    if rest == [] {
      assert Dispatch(s1, rest) == Ok(s1);
    } else {
      LogAfterSteps(s1, rest);
      TakeTwice(NewestFirst(rest), [e] + Log(s), MaxActivities);
      ConcatAssoc(NewestFirst(rest), [e], Log(s));
    }
  }

  /** The entries a list of LOG_ACTIVITY actions creates, in dispatch order. */
  lemma {:induction false} NewestFirstAt(actions: seq<Action>, i: nat)
    requires AllLogs(actions) && i < |actions|
    ensures |NewestFirst(actions)| == |actions|
    ensures var a := actions[|actions| - 1 - i]; NewestFirst(actions)[i] == Activity(a.message, a.now, a.entryId)
    decreases |actions|
  {
    assert AllLogs(actions[1..]);
    if i < |actions| - 1 {
      NewestFirstAt(actions[1..], i);
    } else if |actions| > 1 {
      NewestFirstAt(actions[1..], 0);
    }
  }

  /** After at least 50 log events the log holds exactly the 50 most recent, newest first. */
  lemma LogKeepsMostRecent(s: State, actions: seq<Action>)
    requires AllLogs(actions) && |actions| >= MaxActivities
    ensures Dispatch(s, actions).Ok?
    ensures var log := Log(Dispatch(s, actions).value);
            && |log| == MaxActivities
            && forall i :: 0 <= i < MaxActivities ==>
                 var a := actions[|actions| - 1 - i]; log[i] == Activity(a.message, a.now, a.entryId)
  {
    LogAfterSteps(s, actions);
    var full := NewestFirst(actions) + Log(s);
    NewestFirstAt(actions, 0);
    assert Take(full, MaxActivities) == full[..MaxActivities];
    forall i | 0 <= i < MaxActivities
      ensures var a := actions[|actions| - 1 - i]; full[..MaxActivities][i] == Activity(a.message, a.now, a.entryId)
    {
      NewestFirstAt(actions, i);
    }
  }

  /** The log stays within 50 entries under every action, unless a payload installs a longer one. */
  lemma LogCapPreserved(s: State, a: Action)
    requires |Log(s)| <= MaxActivities
    requires a.InitializeData? ==> |Log(Overlay(s, a.payload))| <= MaxActivities
    ensures Reduce(s, a).Ok? ==> |Log(Reduce(s, a).value)| <= MaxActivities
  {
  }
}
