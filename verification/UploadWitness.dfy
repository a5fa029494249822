/**
 Concrete runs, each breaking one assumption and keeping the others, showing that every
 assumption behind `ComposeNeverMissesASource` and `FinalizedAtMostOncePerId` is needed.
 */
module UploadWitness {
  import opened Prelude
  import opened UploadProtocol
  import opened UploadSafety
  import opened UploadExactness
  import opened UploadCalm
  import opened UploadOnce
  import opened UploadRuns

  // ---- a one-chunk upload by actor 0 ----

  const ONE := Plan(0, [[7]])
  const RESULT := ChunkResult(0, 1)
  const BOTH := Keeps(Nothing, true)

  function R(pc: Pc, obj: ObjectId): Request {
    Request(0, 0, 1, [7], pc, obj)
  }

  /** The chunk is stored and the request loads the session, a fresh one when the map has none. */
  function Stored(s: State, r: RequestId): State {
    s.(requests := s.requests[r := R(Loading, 0)], chunks := s.chunks[(0, 0) := [7]])
  }

  function Loaded(s: State, r: RequestId): State {
    match s.current
    case None => s.(requests := s.requests[r := R(Checking, |s.objects|)],
                    objects := s.objects + [FreshSession(1)], current := Some(|s.objects|),
                    chunks := s.chunks[(0, 0) := [7]])
    case Some(o) => s.(requests := s.requests[r := R(Recording, o)], chunks := s.chunks[(0, 0) := [7]])
  }

  lemma ReachStored(k: Keeps, s: State, r: RequestId)
    requires r !in s.requests
    requires k.serial ==> forall r' :: !Unfinished(s, r')
    ensures Reaches(ONE, k, s, Stored(s, r))
  {
    var s1 := s.(requests := s.requests[r := R(Putting, 0)]);
    Step(ONE, k, s, Arrive(r, 0, 0, 1, [7], true), s1);
    assert s1.requests[r := R(Loading, 0)] == s.requests[r := R(Loading, 0)];
    Step(ONE, k, s1, Put(r, true), Stored(s, r));
    Then(ONE, k, s, s1, Stored(s, r));
  }

  lemma ReachLoaded(k: Keeps, s: State, r: RequestId)
    requires r !in s.requests
    requires k.serial ==> forall r' :: !Unfinished(s, r')
    ensures Reaches(ONE, k, s, Loaded(s, r))
  {
    ReachStored(k, s, r);
    var s1 := Stored(s, r);
    var t := Loaded(s, r);
    assert s1.requests[r := t.requests[r]] == t.requests;
    Step(ONE, k, s1, LoadOrStore(r), t);
    Then(ONE, k, s, s1, Loaded(s, r));
  }

  /** A request on a fresh session that was told the final object is absent, having recorded the only chunk. */
  function Raced(s: State, r: RequestId, o: ObjectId): State
    requires o < |s.objects|
  {
    s.(requests := s.requests[r := R(Racing, o)], objects := s.objects[o := FreshSession(1).(received := {0})])
  }

  lemma ReachRaced(k: Keeps, s: State, r: RequestId, o: ObjectId)
    requires Holding(s, r, Recording) && s.requests[r] == R(Recording, o) && s.objects[o] == FreshSession(1)
    ensures Reaches(ONE, k, s, Raced(s, r, o))
  {
    assert {} + {0} == {0};
    Step(ONE, k, s, Record(r), Raced(s, r, o));
  }

  lemma ReachRacedAfterCheck(k: Keeps, s: State, r: RequestId, o: ObjectId)
    requires Holding(s, r, Checking) && s.requests[r] == R(Checking, o) && s.objects[o] == FreshSession(1)
    requires 0 !in s.finals || k.lapse == CheckLapse
    ensures Reaches(ONE, k, s, Raced(s, r, o))
  {
    var s1 := s.(requests := s.requests[r := R(Recording, o)]);
    if 0 in s.finals { Lapsing(ONE, k, s, CheckFinal(r, false), s1); } else { Step(ONE, k, s, CheckFinal(r, false), s1); }
    ReachRaced(k, s1, r, o);
    assert s1.requests[r := R(Racing, o)] == s.requests[r := R(Racing, o)];
    Then(ONE, k, s, s1, Raced(s, r, o));
  }

  function Probed(s: State, r: RequestId, o: ObjectId, pc: Pc): State
    requires o < |s.objects|
  {
    s.(requests := s.requests[r := R(pc, o)], objects := s.objects[o := s.objects[o].(mergeStarted := true)])
  }

  lemma ReachProbing(k: Keeps, s: State, r: RequestId, o: ObjectId)
    requires Holding(s, r, Racing) && s.requests[r] == R(Racing, o) && !s.objects[o].mergeStarted
    ensures Reaches(ONE, k, s, Probed(s, r, o, Probing))
  {
    Step(ONE, k, s, CompareAndSwap(r), Probed(s, r, o, Probing));
  }

  /** Winning a free flag and asking whether the final object exists. */
  lemma ReachProbed(k: Keeps, s: State, r: RequestId, o: ObjectId, answer: bool)
    requires Holding(s, r, Racing) && s.requests[r] == R(Racing, o) && !s.objects[o].mergeStarted
    requires answer == (0 in s.finals) || (!answer && k.lapse == ProbeLapse)
    ensures Reaches(ONE, k, s, Probed(s, r, o, if answer then Logging else Composing))
  {
    var t := Probed(s, r, o, if answer then Logging else Composing);
    var s1 := Probed(s, r, o, Probing);
    ReachProbing(k, s, r, o);
    assert s1.requests[r := t.requests[r]] == t.requests;
    if answer == (0 in s.finals) {
      Step(ONE, k, s1, ProbeFinal(r, answer), t);
    } else {
      Lapsing(ONE, k, s1, ProbeFinal(r, answer), t);
    }
    Then(ONE, k, s, s1, t);
  }

  function Composed(s: State, r: RequestId, o: ObjectId): State {
    s.(requests := s.requests[r := R(Logging, o)], finals := s.finals[0 := [7]])
  }

  lemma ReachComposed(k: Keeps, s: State, r: RequestId, o: ObjectId)
    requires Holding(s, r, Composing) && s.requests[r] == R(Composing, o) && s.objects[o].total == 1
    requires (0, 0) in s.chunks && s.chunks[(0, 0)] == [7]
    ensures Reaches(ONE, k, s, Composed(s, r, o))
  {
    assert Joined(s.chunks, 0, 1) == Joined(s.chunks, 0, 0) + [7] == [7];
    Step(ONE, k, s, Compose(r, true), Composed(s, r, o));
  }

  /** The tail of finalize: log, count, schedule the cleanup. */
  function Finalized(s: State, r: RequestId, o: ObjectId): State
    requires o < |s.objects|
  {
    s.(requests := s.requests[r := R(Publishing, o)],
       objects := s.objects[o := s.objects[o].(merges := s.objects[o].merges + 1)],
       cleaners := s.cleaners + [Cleaner(0, s.objects[o].total, 0, true)],
       logs := s.logs + 1, increments := s.increments + 1, finalized := s.finalized + 1)
  }

  function Logged(s: State, r: RequestId, o: ObjectId): State {
    s.(requests := s.requests[r := R(Scheduling, o)], logs := s.logs + 1, increments := s.increments + 1)
  }

  lemma ReachLogged(k: Keeps, s: State, r: RequestId, o: ObjectId)
    requires Holding(s, r, Logging) && s.requests[r] == R(Logging, o)
    ensures Reaches(ONE, k, s, Logged(s, r, o))
  {
    var s1 := s.(requests := s.requests[r := R(Counting, o)], logs := s.logs + 1);
    Step(ONE, k, s, SaveLog(r, true), s1);
    assert s1.requests[r := R(Scheduling, o)] == s.requests[r := R(Scheduling, o)];
    Step(ONE, k, s1, IncrementUsage(r, true), Logged(s, r, o));
    Then(ONE, k, s, s1, Logged(s, r, o));
  }

  lemma ReachFinalized(k: Keeps, s: State, r: RequestId, o: ObjectId)
    requires Holding(s, r, Logging) && s.requests[r] == R(Logging, o)
    ensures Reaches(ONE, k, s, Finalized(s, r, o))
  {
    var s1 := Logged(s, r, o);
    ReachLogged(k, s, r, o);
    assert s1.requests[r := R(Publishing, o)] == s.requests[r := R(Publishing, o)];
    Step(ONE, k, s1, ScheduleCleanup(r), Finalized(s, r, o));
    Then(ONE, k, s, s1, Finalized(s, r, o));
  }

  lemma ReachRemoved(k: Keeps, s: State, t: State)
    requires s.cleaners == [Cleaner(0, 1, 0, true)]
    requires t == s.(chunks := s.chunks - {(0, 0)}, cleaners := [Cleaner(0, 1, 1, true)])
    ensures Reaches(ONE, k, s, t)
  {
    assert s.cleaners[0 := Cleaner(0, 1, 1, true)] == t.cleaners;
    Step(ONE, k, s, RemoveChunk(0, true), t);
  }

  // ---- the first upload, from the empty state to its cleanup ----

  const RACING := State(
    map[0 := R(Racing, 0)], [FreshSession(1).(received := {0})], Some(0), map[(0, 0) := [7]], map[], [], 0, 0, 0)

  const COMPOSING := RACING.(requests := map[0 := R(Composing, 0)], objects := [Session(1, {0}, true, false, None, 0, 0, 0)])

  const PUBLISHING := COMPOSING.(
    requests := map[0 := R(Publishing, 0)], objects := [Session(1, {0}, true, false, None, 1, 0, 0)],
    finals := map[0 := [7]], cleaners := [Cleaner(0, 1, 0, true)], logs := 1, increments := 1, finalized := 1)

  const CLOSED := PUBLISHING.(
    requests := map[0 := R(Finished(MergedAs(RESULT)), 0)], objects := [Session(1, {0}, true, true, Some(RESULT), 1, 0, 1)])

  const CLEANED := CLOSED.(current := None, chunks := map[], cleaners := [Cleaner(0, 1, 1, false)])

  lemma ReachComposing()
    ensures Reaches(ONE, BOTH, Start, COMPOSING)
  {
    ReachLoaded(BOTH, Start, 0);
    var s := Loaded(Start, 0);
    ReachRacedAfterCheck(BOTH, s, 0, 0);
    assert Raced(s, 0, 0).requests == RACING.requests && Raced(s, 0, 0) == RACING;
    ReachProbed(BOTH, RACING, 0, 0, false);
    assert Probed(RACING, 0, 0, Composing).requests == COMPOSING.requests;
    Then(ONE, BOTH, Start, s, RACING);
    Then(ONE, BOTH, Start, RACING, COMPOSING);
  }

  lemma ReachPublishing()
    ensures Reaches(ONE, BOTH, COMPOSING, PUBLISHING)
  {
    ReachComposed(BOTH, COMPOSING, 0, 0);
    var s := Composed(COMPOSING, 0, 0);
    ReachFinalized(BOTH, s, 0, 0);
    assert Finalized(s, 0, 0).requests == PUBLISHING.requests;
    assert Finalized(s, 0, 0) == PUBLISHING;
    Then(ONE, BOTH, COMPOSING, s, PUBLISHING);
  }

  lemma ReachClosed()
    ensures Reaches(ONE, BOTH, PUBLISHING, CLOSED)
  {
    var s := PUBLISHING.(requests := map[0 := R(Closing, 0)], objects := [Session(1, {0}, true, false, Some(RESULT), 1, 0, 0)]);
    assert PUBLISHING.requests[0 := R(Closing, 0)] == s.requests;
    Step(ONE, BOTH, PUBLISHING, Publish(0), s);
    assert s.requests[0 := R(Finished(MergedAs(RESULT)), 0)] == CLOSED.requests;
    Step(ONE, BOTH, s, Close(0), CLOSED);
    Then(ONE, BOTH, PUBLISHING, s, CLOSED);
  }

  lemma ReachFirstDone()
    ensures Reaches(ONE, BOTH, Start, CLOSED)
  {
    ReachComposing();
    ReachPublishing();
    ReachClosed();
    Then(ONE, BOTH, Start, COMPOSING, PUBLISHING);
    Then(ONE, BOTH, Start, PUBLISHING, CLOSED);
  }

  lemma ReachCleaned()
    ensures Reaches(ONE, BOTH, Start, CLEANED)
  {
    ReachFirstDone();
    var s := CLOSED.(chunks := map[], cleaners := [Cleaner(0, 1, 1, true)]);
    assert CLOSED.chunks - {(0, 0)} == map[];
    ReachRemoved(BOTH, CLOSED, s);
    Step(ONE, BOTH, s, ForgetSession(0), CLEANED);
    Then(ONE, BOTH, Start, CLOSED, s);
    Then(ONE, BOTH, Start, s, CLEANED);
  }

  // ---- the witnesses ----

  /** From a free race with the final object in place, the id is finalized once more. */
  lemma FinalizeAgain(k: Keeps, s: State, r: RequestId, o: ObjectId) returns (t: State)
    requires Holding(s, r, Racing) && s.requests[r] == R(Racing, o) && !s.objects[o].mergeStarted && 0 in s.finals
    ensures Reaches(ONE, k, s, t) && t.finalized == s.finalized + 1
  {
    ReachProbed(k, s, r, o, true);
    var s1 := Probed(s, r, o, Logging);
    ReachFinalized(k, s1, r, o);
    t := Finalized(s1, r, o);
    Then(ONE, k, s, s1, t);
  }

  /**
   Overlapping requests finalize an id twice in a calm run: after the cleanup request 1
   creates a fresh session, and before it has checked for the final object request 2
   loads that session, records its chunk, wins the fresh flag and finalizes again.
   */
  lemma OverlapFinalizesTwice()
    ensures exists run :: Legal(Start, run) && RunFollows(ONE, run) && CalmRun(Start, run) && After(Start, run).finalized == 2
  {
    var k := Keeps(Nothing, false);
    ReachCleaned();
    Weaken(ONE, Start, CLEANED, k);
    ReachLoaded(k, CLEANED, 1);
    var s1 := Loaded(CLEANED, 1);
    ReachLoaded(k, s1, 2);
    var s2 := Loaded(s1, 2);
    ReachRaced(k, s2, 2, 1);
    var s3 := Raced(s2, 2, 1);
    var t := FinalizeAgain(k, s3, 2, 1);
    Then(ONE, k, Start, CLEANED, s1);
    Then(ONE, k, Start, s1, s2);
    Then(ONE, k, Start, s2, s3);
    Then(ONE, k, Start, s3, t);
    var run := CalmRunOf(ONE, k, Start, t);
  }

  /** Even without overlap, one `Exists` call failing after the cleanup finalizes the id twice. */
  lemma ExistsErrorFinalizesTwice()
    ensures exists run ::
      && Legal(Start, run) && RunFollows(ONE, run) && SerialRun(Start, run) && CalmBut(Start, run, CheckLapse)
      && After(Start, run).finalized == 2
  {
    var k := Keeps(CheckLapse, true);
    ReachCleaned();
    Weaken(ONE, Start, CLEANED, k);
    ReachLoaded(k, CLEANED, 1);
    var s1 := Loaded(CLEANED, 1);
    ReachRacedAfterCheck(k, s1, 1, 1);
    var s2 := Raced(s1, 1, 1);
    var t := FinalizeAgain(k, s2, 1, 1);
    Then(ONE, k, Start, CLEANED, s1);
    Then(ONE, k, Start, s1, s2);
    Then(ONE, k, Start, s2, t);
    var run :| Leads(k, Start, run, t) && RunFollows(ONE, run);
  }

  const EVICTED := COMPOSING.(current := None)

  /** Request 0 is about to compose on an evicted session, request 1 races on a fresh one. */
  const BESIDE := EVICTED.(
    requests := map[0 := R(Composing, 0), 1 := R(Racing, 1)], current := Some(1),
    objects := [Session(1, {0}, true, false, None, 0, 0, 0), FreshSession(1).(received := {0})])

  lemma ReachEvicted(k: Keeps)
    requires k.lapse == EvictLapse
    ensures Reaches(ONE, k, Start, EVICTED)
  {
    ReachComposing();
    Weaken(ONE, Start, COMPOSING, k);
    Lapsing(ONE, k, COMPOSING, Evict, EVICTED);
    Then(ONE, k, Start, COMPOSING, EVICTED);
  }

  lemma ReachBeside(k: Keeps)
    requires !k.serial
    ensures Reaches(ONE, k, EVICTED, BESIDE)
  {
    ReachLoaded(k, EVICTED, 1);
    var s := Loaded(EVICTED, 1);
    ReachRacedAfterCheck(k, s, 1, 1);
    var t := Raced(s, 1, 1);
    assert t.requests == BESIDE.requests;
    assert t.objects == BESIDE.objects;
    assert t.chunks == BESIDE.chunks;
    Then(ONE, k, EVICTED, s, BESIDE);
  }

  /** Request 0 is still about to compose, whatever the other request does. */
  predicate StillComposing(s: State) {
    At(s, 0, Composing) && s.requests[0] == R(Composing, 0) && |s.objects| == 2 && s.objects[0].total == 1
  }

  lemma ComposeBeside(k: Keeps, s: State) returns (t: State)
    requires StillComposing(s) && s.objects[1].total == 1 && !s.objects[1].mergeStarted
    requires Holding(s, 1, Racing) && s.requests[1] == R(Racing, 1)
    requires (0, 0) in s.chunks && s.chunks[(0, 0)] == [7] && s.finals == map[] && s.cleaners == []
    ensures Reaches(ONE, k, s, t) && StillComposing(t) && t.objects[1].total == 1 && t.cleaners == []
    ensures Holding(t, 1, Logging) && t.requests[1] == R(Logging, 1)
  {
    ReachProbed(k, s, 1, 1, false);
    var s1 := Probed(s, 1, 1, Composing);
    ReachComposed(k, s1, 1, 1);
    t := Composed(s1, 1, 1);
    Then(ONE, k, s, s1, t);
  }

  lemma MergeBeside(k: Keeps, s: State) returns (t: State)
    requires StillComposing(s) && s.objects[1].total == 1 && s.cleaners == []
    requires Holding(s, 1, Logging) && s.requests[1] == R(Logging, 1)
    ensures Reaches(ONE, k, s, t) && At(t, 0, Composing) && !Enabled(t, Compose(0, true))
  {
    ReachFinalized(k, s, 1, 1);
    var s1 := Finalized(s, 1, 1);
    t := s1.(chunks := s1.chunks - {(0, 0)}, cleaners := [Cleaner(0, 1, 1, true)]);
    ReachRemoved(k, s1, t);
    Then(ONE, k, s, s1, t);
    assert (0, 0) !in t.chunks;
  }

  /**
   Evicting a session under an in-flight merge lets a second session merge and its
   cleanup remove the chunk the first merge is about to compose.
   */
  lemma EvictionUnderMergeLosesAChunk()
    ensures exists run ::
      && Legal(Start, run) && RunFollows(ONE, run) && CalmBut(Start, run, EvictLapse)
      && At(After(Start, run), 0, Composing) && !Enabled(After(Start, run), Compose(0, true))
  {
    var k := Keeps(EvictLapse, false);
    ReachEvicted(k);
    ReachBeside(k);
    var s := ComposeBeside(k, BESIDE);
    var t := MergeBeside(k, s);
    Then(ONE, k, Start, EVICTED, BESIDE);
    Then(ONE, k, Start, BESIDE, s);
    Then(ONE, k, Start, s, t);
    var run :| Leads(k, Start, run, t) && RunFollows(ONE, run);
  }

  const EXPIRED := COMPOSING.(chunks := map[])

  lemma ReachExpired(k: Keeps)
    requires k.lapse == ExpiryLapse
    ensures Reaches(ONE, k, Start, EXPIRED)
  {
    ReachComposing();
    Weaken(ONE, Start, COMPOSING, k);
    assert COMPOSING.chunks - {(0, 0)} == map[];
    Lapsing(ONE, k, COMPOSING, ExpireChunk(0, 0), EXPIRED);
    Then(ONE, k, Start, COMPOSING, EXPIRED);
  }

  lemma ExpiredMissesASource()
    ensures At(EXPIRED, 0, Composing) && !Enabled(EXPIRED, Compose(0, true))
  {
    assert (0, 0) !in EXPIRED.chunks;
  }

  /** A temporary chunk expiring under a merge is missing when the merge composes, even without overlap. */
  lemma ExpiryUnderMergeLosesAChunk()
    ensures exists run ::
      && Legal(Start, run) && RunFollows(ONE, run) && SerialRun(Start, run) && CalmBut(Start, run, ExpiryLapse)
      && At(After(Start, run), 0, Composing) && !Enabled(After(Start, run), Compose(0, true))
  {
    var k := Keeps(ExpiryLapse, true);
    ReachExpired(k);
    ExpiredMissesASource();
    var run :| Leads(k, Start, run, EXPIRED) && RunFollows(ONE, run);
  }

  /** The first upload is done, its session idle and evicted, its cleanup still to run. */
  const IDLE := CLOSED.(current := None)

  lemma ReachIdle(k: Keeps)
    ensures Reaches(ONE, k, Start, IDLE)
  {
    ReachFirstDone();
    Weaken(ONE, Start, CLOSED, k);
    assert !Held(CLOSED, 0);
    Step(ONE, k, CLOSED, Evict, IDLE);
    Then(ONE, k, Start, CLOSED, IDLE);
  }

  /**
   A probe wrongly answered "absent": beside request 1, which is still checking, request 2
   wins the fresh session's flag and goes on to compose, and the first upload's cleanup
   removes the chunk.
   */
  lemma ProbeErrorLosesAChunk()
    ensures exists run ::
      && Legal(Start, run) && RunFollows(ONE, run) && CalmBut(Start, run, ProbeLapse)
      && At(After(Start, run), 2, Composing) && !Enabled(After(Start, run), Compose(2, true))
  {
    var k := Keeps(ProbeLapse, false);
    ReachIdle(k);
    ReachLoaded(k, IDLE, 1);
    var s1 := Loaded(IDLE, 1);
    ReachLoaded(k, s1, 2);
    var s2 := Loaded(s1, 2);
    ReachRaced(k, s2, 2, 1);
    var s3 := Raced(s2, 2, 1);
    ReachProbed(k, s3, 2, 1, false);
    var s4 := Probed(s3, 2, 1, Composing);
    Then(ONE, k, Start, IDLE, s1);
    Then(ONE, k, Start, s1, s2);
    Then(ONE, k, Start, s2, s3);
    Then(ONE, k, Start, s3, s4);
    var t := CleanedUnder(k, s4);
    Then(ONE, k, Start, s4, t);
    var run :| Leads(k, Start, run, t) && RunFollows(ONE, run);
  }

  lemma CleanedUnder(k: Keeps, s: State) returns (t: State)
    requires At(s, 2, Composing) && s.requests[2] == R(Composing, 1) && |s.objects| == 2 && s.objects[1].total == 1
    requires s.cleaners == [Cleaner(0, 1, 0, true)]
    ensures Reaches(ONE, k, s, t) && At(t, 2, Composing) && !Enabled(t, Compose(2, true))
  {
    t := s.(chunks := s.chunks - {(0, 0)}, cleaners := [Cleaner(0, 1, 1, true)]);
    ReachRemoved(k, s, t);
    assert (0, 0) !in t.chunks;
  }
}
