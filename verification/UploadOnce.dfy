/**
 Exactly once per session id. Session objects come and go (cleanup, eviction, a
 retry after the merge), and each may be merged once, so "once per object" does
 not give "once per id". It does when the environment is calm and no request
 loads a fresh session behind the back of the request that is still checking for
 the final object. Requests that do not overlap meet that guard.
 */
module UploadOnce {
  import opened Prelude
  import opened UploadProtocol
  import opened UploadSafety
  import opened UploadExactness
  import opened UploadCalm

  /** Once the final object exists, only the session that merged may be loaded from the map. */
  ghost predicate Guarded(p: Plan, s: State, a: Action)
    requires Enabled(s, a)
  {
    Calm(s, a) &&
    (a.LoadOrStore? && Merged(p, s) && s.current.Some? ==>
      s.current.value < |s.objects| && s.objects[s.current.value].mergeStarted)
  }

  ghost predicate GuardedRun(p: Plan, s: State, run: seq<Action>)
    requires Legal(s, run)
    decreases |run|
  {
    run == [] || (Guarded(p, s, run[0]) && GuardedRun(p, Apply(s, run[0]), run[1..]))
  }

  predicate PastCheck(pc: Pc) {
    pc.Recording? || pc.Racing? || pc.Waiting? || Merging(pc)
  }

  /** `m` is the session object that composed the file; nobody works on another one. */
  ghost predicate FlagsAt(s: State, m: ObjectId) {
    && m < |s.objects| && s.objects[m].mergeStarted
    && s.finalized == s.objects[m].merges
    && forall o :: 0 <= o < |s.objects| && s.objects[o].mergeStarted ==> o == m
  }

  ghost predicate WorkersAt(s: State, m: ObjectId) {
    forall r :: r in s.requests && PastCheck(s.requests[r].pc) ==> s.requests[r].obj == m
  }

  ghost predicate Home(s: State, m: ObjectId) {
    FlagsAt(s, m) && WorkersAt(s, m)
  }

  ghost predicate OncePerId(p: Plan, s: State) {
    Merged(p, s) ==> exists m :: Home(s, m)
  }

  /** After the merge no flag comes down: a request that gave one back would have seen no file. */
  lemma FlagStays(p: Plan, s: State, a: Action, o: ObjectId)
    requires Good(p, s) && Merged(p, s) && Enabled(s, a) && o < |s.objects| && s.objects[o].mergeStarted
    ensures o < |Apply(s, a).objects| && Apply(s, a).objects[o].mergeStarted
  {
    CounterFrame(s, a, o);
    assert !a.ResetFlag?;
  }

  /** A flag that is up was up, or has just been won. */
  lemma FlagEntry(s: State, a: Action, o: ObjectId)
    requires Enabled(s, a) && o < |Apply(s, a).objects| && Apply(s, a).objects[o].mergeStarted
    ensures o < |s.objects| && (s.objects[o].mergeStarted || (a.CompareAndSwap? && s.requests[a.r].obj == o))
  {
    ObjectsGrow(s, a);
    if o < |s.objects| { CounterFrame(s, a, o); }
  }

  lemma FlagsStay(p: Plan, s: State, a: Action, m: ObjectId)
    requires Good(p, s) && Merged(p, s) && Home(s, m) && Enabled(s, a)
    ensures FlagsAt(Apply(s, a), m)
  {
    FlagStays(p, s, a, m);
    CounterFrame(s, a, m);
    forall o | 0 <= o < |Apply(s, a).objects| && Apply(s, a).objects[o].mergeStarted ensures o == m { FlagEntry(s, a, o); }
  }

  /** How a request gets past the check for the final object. */
  lemma PastCheckEntry(s: State, a: Action, r: RequestId)
    requires Enabled(s, a) && Calm(s, a) && r in Apply(s, a).requests && PastCheck(Apply(s, a).requests[r].pc)
    ensures
      || (r in s.requests && PastCheck(s.requests[r].pc) && Apply(s, a).requests[r].obj == s.requests[r].obj)
      || (a == LoadOrStore(r) && s.current.Some? && Apply(s, a).requests[r].obj == s.current.value)
      || (a.CheckFinal? && a.r == r && s.requests[r].actor !in s.finals)
  {
    if Subject(a) != Some(r) { OthersKeepTheirPlace(s, a, r); }
  }

  lemma WorkersStay(p: Plan, s: State, a: Action, m: ObjectId)
    requires Good(p, s) && Merged(p, s) && Home(s, m) && Enabled(s, a) && Guarded(p, s, a)
    ensures WorkersAt(Apply(s, a), m)
  {
    var s' := Apply(s, a);
    forall r | r in s'.requests && PastCheck(s'.requests[r].pc) ensures s'.requests[r].obj == m {
      PastCheckEntry(s, a, r);
    }
  }

  /** The compose that creates the final object runs on the only live session. */
  lemma ComposeFindsHome(p: Plan, s: State, a: Action)
    requires Good(p, s) && !Merged(p, s) && Enabled(s, a) && a.Compose? && a.ok
    ensures Home(Apply(s, a), s.requests[a.r].obj)
  {
    var m := s.requests[a.r].obj;
    assert ActiveOn(s, a.r, m);
    forall o | 0 <= o < |s.objects| && s.objects[o].mergeStarted ensures o == m {
      var r :| MergerOf(s, r, o);
      assert ActiveOn(s, r, o);
    }
    forall r | r in s.requests && PastCheck(s.requests[r].pc) ensures s.requests[r].obj == m {
      assert ActiveOn(s, r, s.requests[r].obj);
    }
  }

  lemma OnceStep(p: Plan, s: State, a: Action)
    requires Good(p, s) && OncePerId(p, s) && Enabled(s, a) && Guarded(p, s, a) && Follows(p, a)
    ensures OncePerId(p, Apply(s, a))
  {
    if Merged(p, s) {
      var m :| Home(s, m);
      MergedIsForever(p, s, a);
      FlagsStay(p, s, a, m);
      WorkersStay(p, s, a, m);
      assert Home(Apply(s, a), m);
    } else if Merged(p, Apply(s, a)) {
      OnlyComposeMerges(p, s, a);
      ComposeFindsHome(p, s, a);
    }
  }

  lemma {:induction false} OnceRun(p: Plan, s: State, run: seq<Action>)
    requires Good(p, s) && OncePerId(p, s) && Legal(s, run) && RunFollows(p, run) && GuardedRun(p, s, run)
    ensures Good(p, After(s, run)) && OncePerId(p, After(s, run))
    decreases |run|
  {
    if run != [] {
      OnceStep(p, s, run[0]);
      GoodStep(p, s, run[0]);
      assert forall i :: 0 <= i < |run[1..]| ==> run[1..][i] == run[i + 1];
      OnceRun(p, Apply(s, run[0]), run[1..]);
    }
  }

  /** At most one finalize succeeds for the session id in a calm, guarded run. */
  lemma FinalizedAtMostOncePerId(p: Plan, run: seq<Action>)
    requires Legal(Start, run) && RunFollows(p, run) && GuardedRun(p, Start, run)
    ensures After(Start, run).finalized <= 1
    ensures After(Start, run).finalized == 1 ==> Merged(p, After(Start, run))
  {
    OnceRun(p, Start, run);
  }

  // ---- one audit row and one quota increment ----

  ghost predicate SomeoneAt(s: State, counted: bool) {
    exists r: RequestId :: At(s, r, Scheduling) || (!counted && At(s, r, Counting))
  }

  /** Rows and increments are those of finished merges, and perhaps of the one still booking. */
  ghost predicate BooksOk(s: State) {
    && s.logs <= s.finalized + (if SomeoneAt(s, false) then 1 else 0)
    && s.increments <= s.finalized + (if SomeoneAt(s, true) then 1 else 0)
  }

  /** Whoever books has the file in place, so all mergers are on one object and there is one of them. */
  lemma BookerIsAlone(p: Plan, s: State, r1: RequestId, r2: RequestId)
    requires Good(p, s) && OncePerId(p, s)
    requires r1 in s.requests && Merging(s.requests[r1].pc) && AfterCompose(s.requests[r1].pc)
    requires r2 in s.requests && Merging(s.requests[r2].pc)
    ensures r1 == r2
  {
    var m :| Home(s, m);
    assert MergerOf(s, r1, m) && MergerOf(s, r2, m);
  }

  /** While a request books, none has finished. */
  lemma BookerIsFirst(p: Plan, s: State, r: RequestId)
    requires Good(p, s) && OncePerId(p, s)
    requires At(s, r, Logging) || At(s, r, Counting) || At(s, r, Scheduling)
    ensures s.finalized == 0
  {
    var m :| Home(s, m);
    assert MergerOf(s, r, m);
  }

  lemma BookersStay(s: State, a: Action, counted: bool)
    requires Enabled(s, a) && !a.IncrementUsage? && !a.ScheduleCleanup? && SomeoneAt(s, counted)
    ensures SomeoneAt(Apply(s, a), counted)
  {
    var r: RequestId :| At(s, r, Scheduling) || (!counted && At(s, r, Counting));
    assert Subject(a) != Some(r);
    OthersKeepTheirPlace(s, a, r);
    assert At(s, r, Scheduling) ==> At(Apply(s, a), r, Scheduling);
    assert At(s, r, Counting) ==> At(Apply(s, a), r, Counting);
  }

  lemma BooksKeptByOthers(s: State, a: Action)
    requires BooksOk(s) && Enabled(s, a) && !a.SaveLog? && !a.IncrementUsage? && !a.ScheduleCleanup?
    ensures BooksOk(Apply(s, a))
  {
    CountsFrame(s, a);
    if SomeoneAt(s, false) { BookersStay(s, a, false); }
    if SomeoneAt(s, true) { BookersStay(s, a, true); }
  }

  lemma BooksKeptByBooker(p: Plan, s: State, a: Action)
    requires Good(p, s) && OncePerId(p, s) && BooksOk(s) && Enabled(s, a)
    requires a.SaveLog? || a.IncrementUsage? || a.ScheduleCleanup?
    ensures BooksOk(Apply(s, a))
  {
    var s' := Apply(s, a);
    forall r | At(s, r, Counting) || At(s, r, Scheduling) ensures r == a.r { BookerIsAlone(p, s, r, a.r); }
    if a.SaveLog? { assert At(s', a.r, Counting); }
    if a.IncrementUsage? { assert At(s', a.r, Scheduling); }
  }

  lemma {:induction false} BooksRun(p: Plan, s: State, run: seq<Action>)
    requires Good(p, s) && OncePerId(p, s) && BooksOk(s)
    requires Legal(s, run) && RunFollows(p, run) && GuardedRun(p, s, run)
    ensures BooksOk(After(s, run))
    decreases |run|
  {
    if run != [] {
      var a := run[0];
      if a.SaveLog? || a.IncrementUsage? || a.ScheduleCleanup? { BooksKeptByBooker(p, s, a); } else { BooksKeptByOthers(s, a); }
      OnceStep(p, s, a);
      GoodStep(p, s, a);
      assert forall i :: 0 <= i < |run[1..]| ==> run[1..][i] == run[i + 1];
      BooksRun(p, Apply(s, a), run[1..]);
    }
  }

  /** At most one audit row and one quota increment for the session id in a calm, guarded run. */
  lemma {:induction false} BookedAtMostOncePerId(p: Plan, run: seq<Action>)
    requires Legal(Start, run) && RunFollows(p, run) && GuardedRun(p, Start, run)
    ensures After(Start, run).logs <= 1 && After(Start, run).increments <= 1
  {
    OnceRun(p, Start, run);
    BooksRun(p, Start, run);
    FinalizedAtMostOncePerId(p, run);
    var s := After(Start, run);
    if r :| At(s, r, Scheduling) || At(s, r, Counting) { BookerIsFirst(p, s, r); }
  }

  // ---- requests that do not overlap ----

  predicate Unfinished(s: State, r: RequestId) {
    r in s.requests && !s.requests[r].pc.Finished?
  }

  /** A request arrives only when no other is under way. */
  ghost predicate InTurn(s: State, a: Action) {
    a.Arrive? ==> forall r :: !Unfinished(s, r)
  }

  ghost predicate SerialRun(s: State, run: seq<Action>)
    requires Legal(s, run)
    decreases |run|
  {
    run == [] || (InTurn(s, run[0]) && SerialRun(Apply(s, run[0]), run[1..]))
  }

  ghost predicate OneAtATime(s: State) {
    forall r1, r2 :: Unfinished(s, r1) && Unfinished(s, r2) ==> r1 == r2
  }

  predicate Inspecting(s: State, r: RequestId) {
    r in s.requests && (s.requests[r].pc.Checking? || s.requests[r].pc.Dropping?)
  }

  /** A fresh session in the map after the merge has its creator still checking. */
  ghost predicate FreshIsInspected(p: Plan, s: State) {
    Merged(p, s) && s.current.Some? && s.current.value < |s.objects| && !s.objects[s.current.value].mergeStarted ==>
      exists r :: Inspecting(s, r)
  }

  ghost predicate Serial(p: Plan, s: State) {
    OneAtATime(s) && FreshIsInspected(p, s)
  }

  lemma UnfinishedBefore(s: State, a: Action, r: RequestId)
    requires Enabled(s, a) && Unfinished(Apply(s, a), r)
    ensures Unfinished(s, r) || (a.Arrive? && r == a.r)
  {
    if Subject(a) != Some(r) { OthersKeepTheirPlace(s, a, r); }
  }

  lemma OneAtATimeStep(s: State, a: Action)
    requires OneAtATime(s) && Enabled(s, a) && InTurn(s, a)
    ensures OneAtATime(Apply(s, a))
  {
    forall r | Unfinished(Apply(s, a), r) ensures Unfinished(s, r) || (a.Arrive? && r == a.r) { UnfinishedBefore(s, a, r); }
  }

  /** Told truthfully that the file is there, a request that checks drops the session and leaves. */
  lemma LeaverLeaves(s: State, a: Action, r: RequestId)
    requires Enabled(s, a) && Calm(s, a) && Subject(a) == Some(r) && Inspecting(s, r) && s.requests[r].actor in s.finals
    ensures r in Apply(s, a).requests
    ensures Apply(s, a).requests[r].pc.Dropping? || (Apply(s, a).requests[r].pc.Finished? && Apply(s, a).current == None)
  {
    assert a.CheckFinal? || a.DropSession?;
  }

  lemma InspectorStays(p: Plan, s: State, a: Action, r: RequestId)
    requires Good(p, s) && Merged(p, s) && Enabled(s, a) && Calm(s, a) && Inspecting(s, r)
    ensures Inspecting(Apply(s, a), r) || Apply(s, a).current == None
  {
    assert RequestFollows(p, s.requests[r]);
    if Subject(a) == Some(r) { LeaverLeaves(s, a, r); } else { OthersKeepTheirPlace(s, a, r); }
  }

  lemma InspectedStep(p: Plan, s: State, a: Action)
    requires Good(p, s) && Serial(p, s) && Enabled(s, a) && Calm(s, a)
    ensures FreshIsInspected(p, Apply(s, a))
  {
    var s' := Apply(s, a);
    CurrentMoves(s, a);
    if Merged(p, s') && s'.current.Some? && s'.current.value < |s'.objects| && !s'.objects[s'.current.value].mergeStarted {
      if !Merged(p, s) {
        OnlyComposeMerges(p, s, a);
        assert ActiveOn(s, a.r, s.requests[a.r].obj);
      } else if a.LoadOrStore? && s.current.None? {
        assert Inspecting(s', a.r);
      } else {
        assert s'.current == s.current;
        if s.objects[s.current.value].mergeStarted { FlagStays(p, s, a, s.current.value); }
        var r :| Inspecting(s, r);
        InspectorStays(p, s, a, r);
      }
    }
  }

  lemma {:induction false} SerialIsGuarded(p: Plan, s: State, run: seq<Action>)
    requires Good(p, s) && Serial(p, s) && Legal(s, run) && RunFollows(p, run) && CalmRun(s, run) && SerialRun(s, run)
    ensures GuardedRun(p, s, run)
    decreases |run|
  {
    if run != [] {
      var a := run[0];
      if a.LoadOrStore? && Merged(p, s) && s.current.Some? && !s.objects[s.current.value].mergeStarted {
        var r :| Inspecting(s, r);
        assert Unfinished(s, r) && Unfinished(s, a.r);
      }
      GoodStep(p, s, a);
      OneAtATimeStep(s, a);
      InspectedStep(p, s, a);
      assert forall i :: 0 <= i < |run[1..]| ==> run[1..][i] == run[i + 1];
      SerialIsGuarded(p, Apply(s, a), run[1..]);
    }
  }

  /** Chunk requests that do not overlap finalize and count their session id at most once. */
  lemma SerialRequestsFinalizeOnce(p: Plan, run: seq<Action>)
    requires Legal(Start, run) && RunFollows(p, run) && CalmRun(Start, run) && SerialRun(Start, run)
    ensures After(Start, run).finalized <= 1 && After(Start, run).logs <= 1 && After(Start, run).increments <= 1
  {
    SerialIsGuarded(p, Start, run);
    FinalizedAtMostOncePerId(p, run);
    BookedAtMostOncePerId(p, run);
  }
}
