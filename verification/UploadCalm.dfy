/**
 What the protocol keeps while the environment is calm: `Exists` answers
 truthfully, the janitor spares a session some request still holds, and the
 bucket expires no temporary chunk. Then a compose never misses a source, and
 with no request loading a fresh session behind an unfinished check the session
 id is finalized at most once, however often its session objects are replaced.
 */
module UploadCalm {
  import opened Prelude
  import opened UploadProtocol
  import opened UploadSafety
  import opened UploadExactness

  predicate ActiveOn(s: State, r: RequestId, o: ObjectId) {
    r in s.requests && Active(s.requests[r].pc) && s.requests[r].obj == o
  }

  ghost predicate Held(s: State, o: ObjectId) {
    exists r :: ActiveOn(s, r, o)
  }

  ghost predicate Calm(s: State, a: Action)
    requires Enabled(s, a)
  {
    match a
    case CheckFinal(r, answer) => answer == (s.requests[r].actor in s.finals)
    case ProbeFinal(r, answer) => answer == (s.requests[r].actor in s.finals)
    case Evict => !Held(s, s.current.value)
    case ExpireChunk(_, _) => false
    case _ => true
  }

  ghost predicate CalmRun(s: State, run: seq<Action>)
    requires Legal(s, run)
    decreases |run|
  {
    run == [] || (Calm(s, run[0]) && CalmRun(Apply(s, run[0]), run[1..]))
  }

  predicate Merged(p: Plan, s: State) {
    p.actor in s.finals
  }

  // ---- the invariant ----

  /** A chunk whose index is recorded, or about to be, is in the store. */
  ghost predicate RecordedIsStored(p: Plan, s: State) {
    forall o, i :: 0 <= o < |s.objects| && i in s.objects[o].received ==> (p.actor, i) in s.chunks
  }

  predicate HasPut(pc: Pc) {
    pc.Loading? || pc.Checking? || pc.Recording?
  }

  ghost predicate PutIsStored(s: State) {
    forall r :: r in s.requests && HasPut(s.requests[r].pc) ==> (s.requests[r].actor, s.requests[r].index) in s.chunks
  }

  ghost predicate OneLiveSession(s: State) {
    forall r, o: ObjectId :: ActiveOn(s, r, o) ==> s.current == Some(o)
  }

  /** Steps that come after a successful compose, and steps that come only before it. */
  predicate AfterCompose(pc: Pc) {
    pc.Dropping? || pc.Logging? || pc.Counting? || pc.Scheduling? || pc.Publishing? || pc.Closing?
  }

  predicate BeforeCompose(pc: Pc) {
    pc.Composing? || pc.Resetting?
  }

  ghost predicate AfterSeesFile(p: Plan, s: State) {
    forall r :: r in s.requests && AfterCompose(s.requests[r].pc) ==> Merged(p, s)
  }

  ghost predicate BeforeSeesNone(p: Plan, s: State) {
    forall r :: r in s.requests && BeforeCompose(s.requests[r].pc) ==> !Merged(p, s)
  }

  ghost predicate NoMergeYet(s: State) {
    s.finalized == 0 && forall o :: 0 <= o < |s.objects| ==> s.objects[o].merges == 0
  }

  /** What every run of a plan keeps, calm or not. */
  ghost predicate Lasting(p: Plan, s: State) {
    && Safe(s) && NothingLost(s) && Exact(p, s) && AfterSeesFile(p, s)
    && (!Merged(p, s) ==> s.cleaners == [] && NoMergeYet(s))
  }

  ghost predicate Good(p: Plan, s: State) {
    Lasting(p, s) && BeforeSeesNone(p, s) && (!Merged(p, s) ==> OneLiveSession(s) && RecordedIsStored(p, s) && PutIsStored(s))
  }

  // ---- every calm step keeps it ----

  /** Until the compose succeeds one session is live, so its merger is alone. */
  lemma ComposerIsAlone(s: State, r: RequestId, r': RequestId)
    requires OneMerger(s) && OneLiveSession(s)
    requires r in s.requests && Merging(s.requests[r].pc) && r' in s.requests && Merging(s.requests[r'].pc)
    ensures r == r'
  {
    assert ActiveOn(s, r, s.requests[r].obj) && ActiveOn(s, r', s.requests[r'].obj);
    assert MergerOf(s, r, s.requests[r].obj) && MergerOf(s, r', s.requests[r].obj);
  }

  lemma MergedIsForever(p: Plan, s: State, a: Action)
    requires Enabled(s, a) && Merged(p, s)
    ensures Merged(p, Apply(s, a))
  {
  }

  lemma ComposeMerges(p: Plan, s: State, a: Action)
    requires Exact(p, s) && Enabled(s, a) && a.Compose? && a.ok
    ensures Merged(p, Apply(s, a))
  {
  }

  lemma OnlyComposeMerges(p: Plan, s: State, a: Action)
    requires Exact(p, s) && Safe(s) && Enabled(s, a) && Merged(p, Apply(s, a)) && !Merged(p, s)
    ensures a.Compose? && a.ok
  {
  }

  /** How a request gets past the compose. */
  lemma AfterEntry(s: State, a: Action, r: RequestId)
    requires Enabled(s, a) && r in Apply(s, a).requests && AfterCompose(Apply(s, a).requests[r].pc)
    ensures
      || (r in s.requests && AfterCompose(s.requests[r].pc))
      || (a.Compose? && a.ok && a.r == r)
      || (r in s.requests && s.requests[r].actor in s.finals)
  {
    if Subject(a) != Some(r) { OthersKeepTheirPlace(s, a, r); }
  }

  /** How a request gets to, or stays at, the compose or the giving back. */
  lemma BeforeEntry(s: State, a: Action, r: RequestId)
    requires Enabled(s, a) && Calm(s, a) && r in Apply(s, a).requests && BeforeCompose(Apply(s, a).requests[r].pc)
    ensures
      || (r in s.requests && BeforeCompose(s.requests[r].pc) && !(a.Compose? && a.ok && a.r == r))
      || (a.ProbeFinal? && a.r == r && s.requests[r].actor !in s.finals)
  {
    if Subject(a) != Some(r) { OthersKeepTheirPlace(s, a, r); }
  }

  lemma AfterSeesFileStep(p: Plan, s: State, a: Action)
    requires Exact(p, s) && AfterSeesFile(p, s) && Enabled(s, a)
    ensures AfterSeesFile(p, Apply(s, a))
  {
    var s' := Apply(s, a);
    forall r | r in s'.requests && AfterCompose(s'.requests[r].pc) ensures Merged(p, s') {
      AfterEntry(s, a, r);
      if a.Compose? && a.ok { ComposeMerges(p, s, a); }
      if Merged(p, s) { MergedIsForever(p, s, a); }
    }
  }

  lemma {:induction false} BeforeSeesNoneStep(p: Plan, s: State, a: Action)
    requires Safe(s) && Exact(p, s) && BeforeSeesNone(p, s) && (!Merged(p, s) ==> OneLiveSession(s))
    requires Enabled(s, a) && Calm(s, a)
    ensures BeforeSeesNone(p, Apply(s, a))
  {
    var s' := Apply(s, a);
    forall r | r in s'.requests && BeforeCompose(s'.requests[r].pc) ensures !Merged(p, s') {
      BeforeEntry(s, a, r);
      if Merged(p, s') && !Merged(p, s) {
        OnlyComposeMerges(p, s, a);
        if r != a.r { ComposerIsAlone(s, r, a.r); }
      }
    }
  }

  lemma ActivatedBy(s: State, a: Action, r: RequestId, o: ObjectId)
    requires Enabled(s, a) && ActiveOn(Apply(s, a), r, o)
    ensures ActiveOn(s, r, o) || (a == LoadOrStore(r) && Apply(s, a).current == Some(o))
  {
    if Subject(a) != Some(r) { OthersKeepTheirPlace(s, a, r); }
  }

  lemma CurrentMoves(s: State, a: Action)
    requires Enabled(s, a)
    ensures Apply(s, a).current == s.current || a.LoadOrStore? || a.DropSession? || a.ForgetSession? || a.Evict?
    ensures a.LoadOrStore? && s.current.Some? ==> Apply(s, a).current == s.current
  {
  }

  lemma OneLiveStep(p: Plan, s: State, a: Action)
    requires AfterSeesFile(p, s) && !Merged(p, s) && s.cleaners == [] && OneLiveSession(s)
    requires Enabled(s, a) && Calm(s, a)
    ensures OneLiveSession(Apply(s, a))
  {
    CurrentMoves(s, a);
    forall r, o: ObjectId | ActiveOn(Apply(s, a), r, o) ensures Apply(s, a).current == Some(o) {
      ActivatedBy(s, a, r, o);
      if ActiveOn(s, r, o) {
        assert s.current == Some(o);
        assert Held(s, o);
      }
    }
  }

  /** Before the compose succeeds nothing removes a chunk. */
  lemma ChunksStay(p: Plan, s: State, a: Action, k: (Actor, int))
    requires Enabled(s, a) && Calm(s, a) && s.cleaners == [] && k in s.chunks
    ensures k in Apply(s, a).chunks
  {
  }

  lemma PutStays(s: State, a: Action, r: RequestId)
    requires Enabled(s, a) && r in Apply(s, a).requests && HasPut(Apply(s, a).requests[r].pc)
    ensures var s' := Apply(s, a);
      || (s'.requests[r].actor, s'.requests[r].index) in s'.chunks
      || (r in s.requests && HasPut(s.requests[r].pc) &&
          s'.requests[r].actor == s.requests[r].actor && s'.requests[r].index == s.requests[r].index)
  {
    if Subject(a) != Some(r) { OthersKeepTheirPlace(s, a, r); }
  }

  lemma ReceivedBy(s: State, a: Action, o: ObjectId, i: int)
    requires Enabled(s, a) && o < |Apply(s, a).objects| && i in Apply(s, a).objects[o].received
    ensures
      || (o < |s.objects| && i in s.objects[o].received)
      || (a.Record? && s.requests[a.r].obj == o && i == s.requests[a.r].index)
  {
  }

  lemma PutStoredStep(p: Plan, s: State, a: Action)
    requires s.cleaners == [] && PutIsStored(s) && Enabled(s, a) && Calm(s, a)
    ensures PutIsStored(Apply(s, a))
  {
    var s' := Apply(s, a);
    forall r | r in s'.requests && HasPut(s'.requests[r].pc)
      ensures (s'.requests[r].actor, s'.requests[r].index) in s'.chunks
    {
      PutStays(s, a, r);
      if (s'.requests[r].actor, s'.requests[r].index) in s.chunks {
        ChunksStay(p, s, a, (s'.requests[r].actor, s'.requests[r].index));
      }
    }
  }

  /** An index is recorded by a request that has stored its chunk. */
  lemma NewlyRecordedIsStored(p: Plan, s: State, a: Action, o: ObjectId, i: int)
    requires Exact(p, s) && s.cleaners == [] && PutIsStored(s) && Enabled(s, a) && Calm(s, a)
    requires o < |Apply(s, a).objects| && i in Apply(s, a).objects[o].received && !(o < |s.objects| && i in s.objects[o].received)
    ensures (p.actor, i) in Apply(s, a).chunks
  {
    ReceivedBy(s, a, o, i);
    assert RequestFollows(p, s.requests[a.r]);
    ChunksStay(p, s, a, (p.actor, i));
  }

  lemma {:induction false} StoredStep(p: Plan, s: State, a: Action)
    requires Exact(p, s) && s.cleaners == [] && RecordedIsStored(p, s) && PutIsStored(s)
    requires Enabled(s, a) && Calm(s, a)
    ensures RecordedIsStored(p, Apply(s, a)) && PutIsStored(Apply(s, a))
  {
    PutStoredStep(p, s, a);
    forall o, i | 0 <= o < |Apply(s, a).objects| && i in Apply(s, a).objects[o].received ensures (p.actor, i) in Apply(s, a).chunks {
      if o < |s.objects| && i in s.objects[o].received { ChunksStay(p, s, a, (p.actor, i)); } else { NewlyRecordedIsStored(p, s, a, o, i); }
    }
  }

  /** Nobody schedules a cleanup before the compose succeeds, so none runs and no merge is counted. */
  lemma {:induction false} NoCleanersStep(p: Plan, s: State, a: Action)
    requires AfterSeesFile(p, s) && !Merged(p, s) && s.cleaners == [] && Enabled(s, a)
    ensures !a.ScheduleCleanup? && Apply(s, a).cleaners == []
  {
  }

  lemma NoMergeStays(p: Plan, s: State, a: Action)
    requires NoMergeYet(s) && Enabled(s, a) && !a.ScheduleCleanup?
    ensures NoMergeYet(Apply(s, a))
  {
    FinalizedFrame(s, a);
    ObjectsGrow(s, a);
    forall o | 0 <= o < |s.objects| ensures Apply(s, a).objects[o].merges == 0 { CounterFrame(s, a, o); }
  }

  lemma LastingStep(p: Plan, s: State, a: Action)
    requires Lasting(p, s) && Enabled(s, a) && Follows(p, a)
    ensures Lasting(p, Apply(s, a))
  {
    SafeStep(s, a);
    NothingLostStep(s, a);
    ExactStep(p, s, a);
    AfterSeesFileStep(p, s, a);
    if Merged(p, s) {
      MergedIsForever(p, s, a);
    } else {
      NoCleanersStep(p, s, a);
      NoMergeStays(p, s, a);
    }
  }

  lemma {:induction false} LastingRun(p: Plan, s: State, run: seq<Action>)
    requires Lasting(p, s) && Legal(s, run) && RunFollows(p, run)
    ensures Lasting(p, After(s, run))
    decreases |run|
  {
    if run != [] {
      LastingStep(p, s, run[0]);
      assert forall i :: 0 <= i < |run[1..]| ==> run[1..][i] == run[i + 1];
      LastingRun(p, Apply(s, run[0]), run[1..]);
    }
  }

  lemma GoodStep(p: Plan, s: State, a: Action)
    requires Good(p, s) && Enabled(s, a) && Calm(s, a) && Follows(p, a)
    ensures Good(p, Apply(s, a))
  {
    LastingStep(p, s, a);
    BeforeSeesNoneStep(p, s, a);
    if Merged(p, s) {
      MergedIsForever(p, s, a);
    } else {
      OneLiveStep(p, s, a);
      StoredStep(p, s, a);
    }
  }

  lemma {:induction false} GoodRun(p: Plan, s: State, run: seq<Action>)
    requires Good(p, s) && Legal(s, run) && RunFollows(p, run) && CalmRun(s, run)
    ensures Good(p, After(s, run))
    decreases |run|
  {
    if run != [] {
      GoodStep(p, s, run[0]);
      assert forall i :: 0 <= i < |run[1..]| ==> run[1..][i] == run[i + 1];
      GoodRun(p, Apply(s, run[0]), run[1..]);
    }
  }

  /** With every recorded chunk stored, whoever is about to compose has all sources. */
  lemma ComposerHasItsSources(p: Plan, s: State, r: RequestId)
    requires Exact(p, s) && RecordedIsStored(p, s) && At(s, r, Composing)
    ensures s.requests[r].obj < |s.objects| && s.requests[r].actor == p.actor && Mine(s, r).total == |p.parts|
    ensures SourcesPresent(s, p.actor, |p.parts|) && Enabled(s, Compose(r, true))
  {
    assert RequestFollows(p, s.requests[r]) && Counted(s, r);
    var o := Mine(s, r);
    assert SessionFollows(p, o);
    Pigeonhole(o.received, |p.parts|);
  }

  /** Every source of every Compose call of a calm run is stored when the call is made. */
  lemma ComposeNeverMissesASource(p: Plan, run: seq<Action>, r: RequestId)
    requires Legal(Start, run) && RunFollows(p, run) && CalmRun(Start, run)
    requires At(After(Start, run), r, Composing)
    ensures var s := After(Start, run);
      s.requests[r].obj < |s.objects| && s.requests[r].actor == p.actor && Mine(s, r).total == |p.parts| &&
      SourcesPresent(s, p.actor, |p.parts|) && Enabled(s, Compose(r, true))
  {
    GoodRun(p, Start, run);
    ComposerHasItsSources(p, After(Start, run), r);
  }
}
