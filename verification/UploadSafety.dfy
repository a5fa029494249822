/**
 Safety of the merge protocol over every run, whatever the requests carry
 (mixed actors, totals and payloads included): one merger at a time, at most one
 successful merge per session object, `done` closed once and after the result,
 every reply equal to the published result, and no lost merge.
 */
module UploadSafety {
  import opened Prelude
  import opened UploadProtocol

  /** Inside finalize or between its return and the end of the merging branch. */
  predicate Merging(pc: Pc) {
    pc.Probing? || pc.Composing? || pc.Logging? || pc.Counting? || pc.Scheduling? ||
    pc.Publishing? || pc.Closing? || pc.Resetting?
  }

  /** Holds a session object it may still use. */
  predicate Active(pc: Pc) {
    pc.Checking? || pc.Dropping? || pc.Recording? || pc.Racing? || pc.Waiting? || Merging(pc)
  }

  predicate MergerOf(s: State, r: RequestId, o: ObjectId) {
    r in s.requests && Merging(s.requests[r].pc) && s.requests[r].obj == o
  }

  predicate RacerOf(s: State, r: RequestId, o: ObjectId) {
    r in s.requests && s.requests[r].pc.Racing? && s.requests[r].obj == o
  }

  predicate Full(o: Session) {
    |o.received| >= o.total
  }

  // ---- the invariant ----

  ghost predicate RefsOk(s: State) {
    && (s.current.Some? ==> s.current.value < |s.objects|)
    && forall r :: r in s.requests && Active(s.requests[r].pc) ==> s.requests[r].obj < |s.objects|
  }

  predicate SessionOk(o: Session) {
    && o.merges <= 1
    && (o.merges == 1 ==> o.mergeStarted)
    && (o.result.Some? ==> o.merges == 1)
    && (o.doneClosed ==> o.result.Some?)
    && o.closes == (if o.doneClosed then 1 else 0)
  }

  ghost predicate SessionsOk(s: State) {
    forall o :: 0 <= o < |s.objects| ==> SessionOk(s.objects[o])
  }

  /** What the object of a request looks like while the request merges it. */
  predicate MergerOk(q: Request, o: Session) {
    && o.mergeStarted && !o.doneClosed
    && (q.pc.Publishing? || q.pc.Closing? <==> o.merges == 1)
    && (if q.pc.Closing? then o.result == Some(ChunkResult(q.index, q.total)) else o.result == None)
  }

  ghost predicate MergersOk(s: State) {
    forall r :: r in s.requests && Merging(s.requests[r].pc) && s.requests[r].obj < |s.objects| ==>
      MergerOk(s.requests[r], s.objects[s.requests[r].obj])
  }

  ghost predicate OneMerger(s: State) {
    forall r1, r2, o :: MergerOf(s, r1, o) && MergerOf(s, r2, o) ==> r1 == r2
  }

  predicate ReplyOk(s: State, q: Request) {
    match q.pc
    case Finished(MergedAs(res)) => q.obj < |s.objects| && s.objects[q.obj].doneClosed && s.objects[q.obj].result == Some(res)
    case Finished(WokenWith(res)) => q.obj < |s.objects| && s.objects[q.obj].doneClosed && s.objects[q.obj].result == Some(res)
    case _ => true
  }

  ghost predicate RepliesOk(s: State) {
    forall r :: r in s.requests ==> ReplyOk(s, s.requests[r])
  }

  ghost predicate Safe(s: State) {
    RefsOk(s) && SessionsOk(s) && MergersOk(s) && OneMerger(s) && RepliesOk(s)
  }

  // ---- every step keeps it ----

  lemma OwnRefStep(s: State, a: Action, r: RequestId)
    requires RefsOk(s) && Enabled(s, a) && Subject(a) == Some(r) && r in Apply(s, a).requests && Active(Apply(s, a).requests[r].pc)
    ensures Apply(s, a).requests[r].obj < |Apply(s, a).objects|
  {
  }

  lemma CurrentRefStep(s: State, a: Action)
    requires RefsOk(s) && Enabled(s, a)
    ensures Apply(s, a).current.Some? ==> Apply(s, a).current.value < |Apply(s, a).objects|
  {
  }

  lemma RefsStep(s: State, a: Action)
    requires Safe(s) && Enabled(s, a)
    ensures RefsOk(Apply(s, a))
  {
    var s' := Apply(s, a);
    ObjectsGrow(s, a);
    CurrentRefStep(s, a);
    forall r | r in s'.requests && Active(s'.requests[r].pc) ensures s'.requests[r].obj < |s'.objects| {
      if Subject(a) == Some(r) { OwnRefStep(s, a, r); } else { OthersKeepTheirPlace(s, a, r); }
    }
  }

  lemma SessionsStep(s: State, a: Action)
    requires Safe(s) && Enabled(s, a)
    ensures SessionsOk(Apply(s, a))
  {
  }

  lemma NoMergerElsewhere(s: State, a: Action, r: RequestId)
    requires Enabled(s, a) && !MergeAction(a) && Subject(a) == Some(r) && r in Apply(s, a).requests
    ensures !Merging(Apply(s, a).requests[r].pc)
  {
  }

  lemma MergersStepOther(s: State, a: Action)
    requires Safe(s) && Enabled(s, a) && !MergeAction(a)
    ensures MergersOk(Apply(s, a))
  {
    var s' := Apply(s, a);
    forall r | r in s'.requests && Merging(s'.requests[r].pc) && s'.requests[r].obj < |s'.objects|
      ensures MergerOk(s'.requests[r], s'.objects[s'.requests[r].obj])
    {
      if Subject(a) == Some(r) {
        NoMergerElsewhere(s, a, r);
      } else {
        OthersKeepTheirPlace(s, a, r);
        ObjectFrame(s, a, s.requests[r].obj);
      }
    }
  }

  lemma MergersStepMerge(s: State, a: Action)
    requires Safe(s) && Enabled(s, a) && MergeAction(a)
    ensures MergersOk(Apply(s, a))
  {
    var s' := Apply(s, a);
    forall r | r in s'.requests && Merging(s'.requests[r].pc) && s'.requests[r].obj < |s'.objects|
      ensures MergerOk(s'.requests[r], s'.objects[s'.requests[r].obj])
    {
      if r != a.r {
        // whoever else merges does so on another object
        assert MergerOf(s, r, s.requests[r].obj);
        assert !a.CompareAndSwap? ==> MergerOf(s, a.r, s.requests[a.r].obj);
      }
    }
  }

  /** A request becomes a merger only by winning the flag. */
  lemma MergerEntry(s: State, a: Action, r: RequestId, o: ObjectId)
    requires Enabled(s, a) && MergerOf(Apply(s, a), r, o)
    ensures MergerOf(s, r, o) || (a == CompareAndSwap(r) && s.requests[r].obj == o && !s.objects[o].mergeStarted)
  {
    if Subject(a) != Some(r) { OthersKeepTheirPlace(s, a, r); }
  }

  lemma OneMergerStep(s: State, a: Action)
    requires Safe(s) && Enabled(s, a)
    ensures OneMerger(Apply(s, a))
  {
    forall r1, r2, o | MergerOf(Apply(s, a), r1, o) && MergerOf(Apply(s, a), r2, o) ensures r1 == r2 {
      MergerEntry(s, a, r1, o);
      MergerEntry(s, a, r2, o);
    }
  }

  /** A closed session's result never moves: whoever could move it would be merging. */
  lemma ClosedStays(s: State, a: Action, o: ObjectId)
    requires Safe(s) && Enabled(s, a) && o < |s.objects| && s.objects[o].doneClosed
    ensures var s' := Apply(s, a);
      o < |s'.objects| && s'.objects[o].doneClosed && s'.objects[o].result == s.objects[o].result
  {
    if Subject(a).None? || Subject(a).value !in s.requests || s.requests[Subject(a).value].obj != o {
      OtherObjectsKeep(s, a, o);
    }
  }

  lemma RepliesStep(s: State, a: Action)
    requires Safe(s) && Enabled(s, a)
    ensures RepliesOk(Apply(s, a))
  {
    var s' := Apply(s, a);
    forall r | r in s'.requests ensures ReplyOk(s', s'.requests[r]) {
      if Subject(a) != Some(r) {
        OthersKeepTheirPlace(s, a, r);
        if s.requests[r].obj < |s.objects| && s.objects[s.requests[r].obj].doneClosed { ClosedStays(s, a, s.requests[r].obj); }
      }
    }
  }

  lemma SafeStep(s: State, a: Action)
    requires Safe(s) && Enabled(s, a)
    ensures Safe(Apply(s, a))
  {
    RefsStep(s, a);
    SessionsStep(s, a);
    if MergeAction(a) { MergersStepMerge(s, a); } else { MergersStepOther(s, a); }
    OneMergerStep(s, a);
    RepliesStep(s, a);
  }

  lemma {:induction false} SafeRun(s: State, run: seq<Action>)
    requires Safe(s) && Legal(s, run)
    ensures Safe(After(s, run))
    decreases |run|
  {
    if run != [] {
      SafeStep(s, run[0]);
      SafeRun(Apply(s, run[0]), run[1..]);
    }
  }

  // ---- no lost merge ----

  predicate RequestOk(q: Request) {
    q.pc == Finished(Rejected) || (0 <= q.index < q.total)
  }

  ghost predicate TotalsOk(s: State) {
    && (forall r :: r in s.requests ==> RequestOk(s.requests[r]))
    && (forall o :: 0 <= o < |s.objects| ==> s.objects[o].total > 0)
  }

  ghost predicate SomeMerger(s: State, o: ObjectId) {
    exists r :: MergerOf(s, r, o)
  }

  ghost predicate SomeRacer(s: State, o: ObjectId) {
    exists r :: RacerOf(s, r, o)
  }

  /** A raised flag is either spent on a finished merge or held by a request that is merging. */
  ghost predicate FlagHeld(s: State) {
    forall o :: 0 <= o < |s.objects| && s.objects[o].mergeStarted ==> s.objects[o].merges == 1 || SomeMerger(s, o)
  }

  /** The merge of a full session is done, running, about to be raced for, or free to retry after a failure. */
  ghost predicate MergeNotLost(s: State, o: ObjectId)
    requires o < |s.objects|
  {
    Full(s.objects[o]) ==>
      || s.objects[o].merges == 1
      || SomeMerger(s, o)
      || SomeRacer(s, o)
      || (s.objects[o].failures > 0 && !s.objects[o].mergeStarted)
  }

  ghost predicate NothingLost(s: State) {
    TotalsOk(s) && FlagHeld(s) && forall o :: 0 <= o < |s.objects| ==> MergeNotLost(s, o)
  }

  lemma TotalsStep(s: State, a: Action)
    requires Safe(s) && TotalsOk(s) && Enabled(s, a)
    ensures TotalsOk(Apply(s, a))
  {
    forall r | r in Apply(s, a).requests ensures RequestOk(Apply(s, a).requests[r]) {
      if Subject(a) != Some(r) { OthersKeepTheirPlace(s, a, r); }
    }
  }

  /** A merger stays one until it gives the flag back (counting the failure) or closes (having merged). */
  lemma MergerStays(s: State, a: Action, r: RequestId, o: ObjectId)
    requires Safe(s) && Enabled(s, a) && MergerOf(s, r, o)
    ensures var s' := Apply(s, a);
      || MergerOf(s', r, o)
      || s'.objects[o].merges == 1
      || (a == ResetFlag(r) && s'.objects[o].failures > 0 && !s'.objects[o].mergeStarted)
  {
    if Subject(a) != Some(r) { OthersKeepTheirPlace(s, a, r); }
  }

  lemma FlagHeldStep(s: State, a: Action)
    requires Safe(s) && FlagHeld(s) && Enabled(s, a)
    ensures FlagHeld(Apply(s, a))
  {
    var s' := Apply(s, a);
    forall o | 0 <= o < |s'.objects| && s'.objects[o].mergeStarted
      ensures s'.objects[o].merges == 1 || SomeMerger(s', o)
    {
      if a.CompareAndSwap? && s.requests[a.r].obj == o && !s.objects[o].mergeStarted {
        assert MergerOf(s', a.r, o);
      } else if s.objects[o].merges != 1 {
        var r :| MergerOf(s, r, o);
        MergerStays(s, a, r, o);
      }
    }
  }

  /** Only recorders, racers and the merger of an object change it. */
  lemma IdleObjectUntouched(s: State, a: Action, o: ObjectId)
    requires Safe(s) && Enabled(s, a) && o < |s.objects|
    requires !SomeMerger(s, o) && !SomeRacer(s, o)
    requires !(a.Record? && s.requests[a.r].obj == o)
    ensures Apply(s, a).objects[o] == s.objects[o]
  {
    if MergeAction(a) {
      assert !MergerOf(s, a.r, o) && !RacerOf(s, a.r, o);
    }
  }

  /** A racer keeps racing until it wins the flag, which is free when nobody merges. */
  lemma RacerStays(s: State, a: Action, r: RequestId, o: ObjectId)
    requires Safe(s) && FlagHeld(s) && Enabled(s, a) && RacerOf(s, r, o)
    requires o < |s.objects| && s.objects[o].merges != 1 && !SomeMerger(s, o)
    ensures RacerOf(Apply(s, a), r, o) || MergerOf(Apply(s, a), r, o)
  {
    assert !s.objects[o].mergeStarted;
    if Subject(a) != Some(r) { OthersKeepTheirPlace(s, a, r); }
  }

  /** The count is read with the add, so the request that completes the set races. */
  lemma RecorderRaces(s: State, a: Action, o: ObjectId)
    requires Enabled(s, a) && a.Record? && s.requests[a.r].obj == o
    requires Full(Apply(s, a).objects[o])
    ensures RacerOf(Apply(s, a), a.r, o)
  {
  }

  lemma NotLostAt(s: State, a: Action, o: ObjectId)
    requires Safe(s) && NothingLost(s) && Enabled(s, a)
    requires o < |s.objects| && s.objects[o].merges != 1
    ensures o < |Apply(s, a).objects| && MergeNotLost(Apply(s, a), o)
  {
    if r :| MergerOf(s, r, o) {
      MergerStays(s, a, r, o);
    } else if r :| RacerOf(s, r, o) {
      RacerStays(s, a, r, o);
    } else if a.Record? && s.requests[a.r].obj == o {
      if Full(Apply(s, a).objects[o]) { RecorderRaces(s, a, o); }
    } else {
      assert MergeNotLost(s, o);
      IdleObjectUntouched(s, a, o);
    }
  }

  /** A finished merge stays counted, and a fresh object is not full. */
  lemma NotLostElsewhere(s: State, a: Action, o: ObjectId)
    requires Safe(s) && TotalsOk(s) && Enabled(s, a) && o < |Apply(s, a).objects|
    requires o < |s.objects| ==> s.objects[o].merges == 1
    ensures MergeNotLost(Apply(s, a), o)
  {
    SessionsStep(s, a);
  }

  lemma NothingLostStep(s: State, a: Action)
    requires Safe(s) && NothingLost(s) && Enabled(s, a)
    ensures NothingLost(Apply(s, a))
  {
    TotalsStep(s, a);
    FlagHeldStep(s, a);
    forall o | 0 <= o < |Apply(s, a).objects| ensures MergeNotLost(Apply(s, a), o) {
      if o < |s.objects| && s.objects[o].merges != 1 { NotLostAt(s, a, o); } else { NotLostElsewhere(s, a, o); }
    }
  }

  lemma {:induction false} NothingLostRun(s: State, run: seq<Action>)
    requires Safe(s) && NothingLost(s) && Legal(s, run)
    ensures Safe(After(s, run)) && NothingLost(After(s, run))
    decreases |run|
  {
    if run != [] {
      SafeStep(s, run[0]);
      NothingLostStep(s, run[0]);
      NothingLostRun(Apply(s, run[0]), run[1..]);
    }
  }

  // ---- main results, for every run from the empty state ----

  /** Never two requests in the merging branch of one session object. */
  lemma AtMostOneMerger(run: seq<Action>, r1: RequestId, r2: RequestId, o: ObjectId)
    requires Legal(Start, run)
    requires MergerOf(After(Start, run), r1, o) && MergerOf(After(Start, run), r2, o)
    ensures r1 == r2
  {
    SafeRun(Start, run);
  }

  /** finalize succeeds at most once per object, and done is closed at most once, after the result. */
  lemma MergedAndClosedOnce(run: seq<Action>, o: ObjectId)
    requires Legal(Start, run) && o < |After(Start, run).objects|
    ensures var x := After(Start, run).objects[o];
      x.merges <= 1 && x.closes <= 1 && (x.closes == 1 ==> x.merges == 1 && x.result.Some?)
  {
    SafeRun(Start, run);
  }

  /** `close` never meets a closed channel, and the result is in place whenever it is called. */
  lemma CloseIsSound(run: seq<Action>, r: RequestId)
    requires Legal(Start, run) && Enabled(After(Start, run), Close(r))
    ensures var s := After(Start, run);
      !Mine(s, r).doneClosed && Mine(s, r).result == Some(ChunkResult(s.requests[r].index, s.requests[r].total))
  {
    SafeRun(Start, run);
  }

  /** Everyone who reports a merge of an object reports the same one: the object's published result. */
  lemma RepliesAgree(run: seq<Action>, r: RequestId, res: ChunkResult)
    requires Legal(Start, run)
    requires At(After(Start, run), r, Finished(MergedAs(res))) || At(After(Start, run), r, Finished(WokenWith(res)))
    ensures var s := After(Start, run);
      s.requests[r].obj < |s.objects| && s.objects[s.requests[r].obj].result == Some(res) &&
      s.objects[s.requests[r].obj].merges == 1
  {
    SafeRun(Start, run);
  }

  /** A published result is final: no later step changes it or reopens the channel. */
  lemma {:induction false} ClosedIsForever(s: State, run: seq<Action>, o: ObjectId)
    requires Safe(s) && Legal(s, run) && o < |s.objects| && s.objects[o].doneClosed
    ensures o < |After(s, run).objects|
    ensures After(s, run).objects[o].doneClosed && After(s, run).objects[o].result == s.objects[o].result
    decreases |run|
  {
    if run != [] {
      SafeStep(s, run[0]);
      ClosedStays(s, run[0], o);
      ClosedIsForever(Apply(s, run[0]), run[1..], o);
    }
  }

  /** No lost merge. */
  lemma NoLostMerge(run: seq<Action>, o: ObjectId)
    requires Legal(Start, run) && o < |After(Start, run).objects| && Full(After(Start, run).objects[o])
    ensures var s := After(Start, run);
      || s.objects[o].merges == 1
      || (exists r :: MergerOf(s, r, o))
      || (exists r :: RacerOf(s, r, o))
      || (s.objects[o].failures > 0 && !s.objects[o].mergeStarted)
  {
    NothingLostRun(Start, run);
    assert MergeNotLost(After(Start, run), o);
  }

  /** After a failed merge the next chunk request to reach the critical section merges. */
  lemma FailedMergeIsRetried(run: seq<Action>, r: RequestId)
    requires Legal(Start, run)
    requires var s := After(Start, run);
      Holding(s, r, Recording) && Full(Mine(s, r)) && !Mine(s, r).mergeStarted
    ensures var s := After(Start, run);
      && Legal(s, [Record(r), CompareAndSwap(r)])
      && MergerOf(After(s, [Record(r), CompareAndSwap(r)]), r, s.requests[r].obj)
  {
    var s := After(Start, run);
    var s1 := Apply(s, Record(r));
    CardinalityGrows(Mine(s, r).received, s.requests[r].index);
    var s2 := Apply(s1, CompareAndSwap(r));
    var rest := [CompareAndSwap(r)];
    assert [Record(r), CompareAndSwap(r)][1..] == rest;
    assert rest[1..] == [] && After(s2, []) == s2 && Legal(s2, []);
    assert Legal(s1, rest) && After(s1, rest) == s2;
  }

  lemma CardinalityGrows(a: set<int>, x: int)
    ensures |a + {x}| >= |a|
  {
    assert a + {x} == a + ({x} - a);
  }
}
