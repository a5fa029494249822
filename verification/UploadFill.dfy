/**
 Calm futures of the merge protocol: new requests store and record what a session misses,
 pending requests are let through, and a request that wins the flag merges and books
 (internal/service/upload/upload_service.go:120-276). They start from every state a run of
 the plan can leave, calm or not, with one session live or several.
 */
module UploadFill {
  import opened Prelude
  import opened UploadProtocol
  import opened UploadSafety
  import opened UploadExactness
  import opened UploadCalm
  import opened UploadRuns

  const CALM := Keeps(Nothing, false)

  // ---- what calm runs keep, whether one session is live or several ----

  /** Until the file exists every counted chunk is stored, so a merge cannot fail for want of one. */
  ghost predicate Stocked(p: Plan, s: State) {
    Lasting(p, s) && (!Merged(p, s) ==> RecordedIsStored(p, s) && PutIsStored(s))
  }

  lemma StockedStep(p: Plan, s: State, a: Action)
    requires Stocked(p, s) && Enabled(s, a) && Calm(s, a) && Follows(p, a)
    ensures Stocked(p, Apply(s, a))
  {
    LastingStep(p, s, a);
    if Merged(p, s) { MergedIsForever(p, s, a); } else { StoredStep(p, s, a); }
  }

  lemma {:induction false} StockedRun(p: Plan, s: State, run: seq<Action>)
    requires Stocked(p, s) && Legal(s, run) && RunFollows(p, run) && CalmRun(s, run)
    ensures Stocked(p, After(s, run))
    decreases |run|
  {
    if run != [] {
      StockedStep(p, s, run[0]);
      assert forall i :: 0 <= i < |run[1..]| ==> run[1..][i] == run[i + 1];
      StockedRun(p, Apply(s, run[0]), run[1..]);
    }
  }

  lemma StaysStocked(p: Plan, s: State, t: State)
    requires Stocked(p, s) && Reaches(p, CALM, s, t)
    ensures Stocked(p, t)
  {
    var run := CalmRunOf(p, CALM, s, t);
    StockedRun(p, s, run);
  }

  lemma GoOn(p: Plan, s: State, a: Action)
    requires Lasting(p, s) && Enabled(s, a) && Calm(s, a) && Follows(p, a)
    ensures Reaches(p, CALM, s, Apply(s, a)) && Lasting(p, Apply(s, a))
  {
    LastingStep(p, s, a);
    Step(p, CALM, s, a, Apply(s, a));
  }

  // ---- what a stretch of run leaves alone ----

  predicate Spared(s: State, t: State, w: RequestId) {
    w in s.requests ==> w in t.requests && t.requests[w] == s.requests[w]
  }

  /** The flag of session o, the entry of the map, the file and the finished merges. */
  predicate Same(s: State, t: State, o: ObjectId) {
    && o < |s.objects| && o < |t.objects| && t.objects[o].mergeStarted == s.objects[o].mergeStarted
    && t.current == s.current && t.finals == s.finals && t.finalized == s.finalized
  }

  // ---- new requests fill the session in the map ----

  lemma {:induction false} FreshId(ids: set<RequestId>) returns (n: RequestId)
    ensures forall i :: i in ids ==> i < n
  {
    if ids == {} {
      n := 0;
    } else {
      var i :| i in ids;
      var m := FreshId(ids - {i});
      n := if i < m then m else i + 1;
      forall j | j in ids ensures j < n { assert j == i || j in ids - {i}; }
    }
  }

  /** A new request arrives with chunk i. */
  lemma Arrives(p: Plan, s: State, i: int) returns (q: RequestId, t: State)
    requires Lasting(p, s) && 0 <= i < |p.parts|
    ensures Reaches(p, CALM, s, t) && Lasting(p, t) && t == s.(requests := t.requests)
    ensures q !in s.requests && (forall w :: Spared(s, t, w)) && At(t, q, Putting) && t.requests[q].index == i
  {
    q := FreshId(s.requests.Keys);
    var arrive := Arrive(q, p.actor, i, |p.parts|, p.parts[i], true);
    GoOn(p, s, arrive);
    t := Apply(s, arrive);
  }

  /** It stores the chunk. */
  lemma Puts(p: Plan, s: State, q: RequestId) returns (t: State)
    requires Lasting(p, s) && At(s, q, Putting)
    ensures Reaches(p, CALM, s, t) && Lasting(p, t) && t == s.(requests := t.requests, chunks := t.chunks)
    ensures (forall w :: w != q ==> Spared(s, t, w)) && At(t, q, Loading) && t.requests[q].index == s.requests[q].index
    ensures t.chunks.Keys == s.chunks.Keys + {(p.actor, s.requests[q].index)}
  {
    assert RequestFollows(p, s.requests[q]);
    GoOn(p, s, Put(q, true));
    t := Apply(s, Put(q, true));
  }

  /** Both: a new request stands before the load. */
  lemma Comes(p: Plan, s: State, i: int) returns (q: RequestId, t: State)
    requires Lasting(p, s) && 0 <= i < |p.parts|
    ensures Reaches(p, CALM, s, t) && Lasting(p, t) && t == s.(requests := t.requests, chunks := t.chunks)
    ensures q !in s.requests && (forall w :: Spared(s, t, w)) && At(t, q, Loading) && t.requests[q].index == i
    ensures t.chunks.Keys == s.chunks.Keys + {(p.actor, i)}
  {
    var u;
    q, u := Arrives(p, s, i);
    t := Puts(p, u, q);
    Then(p, CALM, s, u, t);
    forall w ensures Spared(s, t, w) { assert Spared(s, u, w) && (w != q ==> Spared(u, t, w)); }
  }

  /** It loads the session in the map. */
  lemma Loads(p: Plan, s: State, q: RequestId, o: ObjectId) returns (t: State)
    requires Lasting(p, s) && At(s, q, Loading) && s.current == Some(o)
    ensures Reaches(p, CALM, s, t) && Lasting(p, t) && t == s.(requests := t.requests) && (forall w :: w != q ==> Spared(s, t, w))
    ensures At(t, q, Recording) && t.requests[q].obj == o && t.requests[q].index == s.requests[q].index
  {
    GoOn(p, s, LoadOrStore(q));
    t := Apply(s, LoadOrStore(q));
  }

  /** Before the critical section of a session whose flag is clear, the session in the map. */
  predicate Poised(s: State, r: RequestId, o: ObjectId) {
    At(s, r, Recording) && s.requests[r].obj == o && s.current == Some(o) && o < |s.objects| && !s.objects[o].mergeStarted
  }

  /** Or makes a fresh one, and is told that there is no file yet. */
  lemma Opens(p: Plan, s: State, q: RequestId, w: RequestId) returns (t: State)
    requires Lasting(p, s) && At(s, q, Loading) && s.current == None && !Merged(p, s) && w != q
    ensures Reaches(p, CALM, s, t) && Lasting(p, t) && !Merged(p, t) && t.finalized == s.finalized && Spared(s, t, w)
    ensures Poised(t, q, |s.objects|) && t.chunks == s.chunks && t.requests[q].index == s.requests[q].index
  {
    assert RequestFollows(p, s.requests[q]);
    GoOn(p, s, LoadOrStore(q));
    var u := Apply(s, LoadOrStore(q));
    GoOn(p, u, CheckFinal(q, false));
    t := Apply(u, CheckFinal(q, false));
    Then(p, CALM, s, u, t);
  }

  /** A request records its index. */
  lemma Records(p: Plan, s: State, q: RequestId, o: ObjectId) returns (t: State)
    requires Lasting(p, s) && Holding(s, q, Recording) && s.requests[q].obj == o
    ensures Reaches(p, CALM, s, t) && Lasting(p, t) && Same(s, t, o) && (forall w :: w != q ==> Spared(s, t, w))
    ensures t == Apply(s, Record(q)) && t.chunks == s.chunks && t.objects[o].received == s.objects[o].received + {s.requests[q].index}
  {
    GoOn(p, s, Record(q));
    t := Apply(s, Record(q));
  }

  /** Whoever completes the set goes on to race. */
  lemma CompletesTheSet(p: Plan, s: State, q: RequestId)
    requires Exact(p, s) && Holding(s, q, Recording) && Indices(|p.parts|) <= Mine(s, q).received + {s.requests[q].index}
    ensures Holding(Apply(s, Record(q)), q, Racing) && Apply(s, Record(q)).requests[q].obj == s.requests[q].obj
  {
    assert SessionFollows(p, Mine(s, q));
    IndicesCard(|p.parts|);
    SubsetCard(Indices(|p.parts|), Mine(s, q).received + {s.requests[q].index});
  }

  /** A new request stands before the critical section of the session in the map. */
  lemma ComesAndLoads(p: Plan, s: State, o: ObjectId, i: int) returns (q: RequestId, t: State)
    requires Lasting(p, s) && s.current == Some(o) && 0 <= i < |p.parts|
    ensures Reaches(p, CALM, s, t) && Lasting(p, t) && t == s.(requests := t.requests, chunks := t.chunks)
    ensures q !in s.requests && (forall w :: Spared(s, t, w)) && At(t, q, Recording) && t.requests[q].obj == o && t.requests[q].index == i
    ensures t.chunks.Keys == s.chunks.Keys + {(p.actor, i)}
  {
    var u;
    q, u := Comes(p, s, i);
    t := Loads(p, u, q, o);
    Then(p, CALM, s, u, t);
    forall w ensures Spared(s, t, w) { assert Spared(s, u, w) && (w != q ==> Spared(u, t, w)); }
  }

  /** A new request records index i; two others, w and r, stand where they stood. */
  lemma FillOne(p: Plan, s: State, o: ObjectId, i: int, w: RequestId, r: RequestId) returns (t: State)
    requires Lasting(p, s) && s.current == Some(o) && 0 <= i < |p.parts|
    ensures Reaches(p, CALM, s, t) && Lasting(p, t) && Same(s, t, o) && Spared(s, t, w) && Spared(s, t, r)
    ensures t.objects[o].received == s.objects[o].received + {i} && t.chunks.Keys == s.chunks.Keys + {(p.actor, i)}
  {
    var q, u := ComesAndLoads(p, s, o, i);
    t := Records(p, u, q, o);
    Then(p, CALM, s, u, t);
    if w in s.requests { assert Spared(s, u, w) && Spared(u, t, w); }
    if r in s.requests { assert Spared(s, u, r) && Spared(u, t, r); }
  }

  /** Until every index is recorded, but for those left out, whose chunks are not stored again. */
  lemma {:induction false} FillAll(p: Plan, s: State, o: ObjectId, but: set<int>, w: RequestId, r: RequestId) returns (t: State)
    requires Lasting(p, s) && s.current == Some(o)
    ensures Reaches(p, CALM, s, t) && Lasting(p, t) && Same(s, t, o) && Spared(s, t, w) && Spared(s, t, r)
    ensures Indices(|p.parts|) - but <= t.objects[o].received && s.objects[o].received <= t.objects[o].received
    ensures forall i :: i in but && (p.actor, i) in t.chunks.Keys ==> (p.actor, i) in s.chunks.Keys
    decreases Indices(|p.parts|) - s.objects[o].received
  {
    if Indices(|p.parts|) - but <= s.objects[o].received {
      Stay(p, CALM, s);
      t := s;
    } else {
      var i :| i in Indices(|p.parts|) - but && i !in s.objects[o].received;
      var u := FillOne(p, s, o, i, w, r);
      assert i in Indices(|p.parts|) - s.objects[o].received && i !in Indices(|p.parts|) - u.objects[o].received;
      t := FillAll(p, u, o, but, w, r);
      Then(p, CALM, s, u, t);
    }
  }

  // ---- pending requests fill a session without help ----

  /** Past the check on session o, or checking truthfully before the file exists: it will record its index. */
  predicate Coming(p: Plan, s: State, q: RequestId, o: ObjectId) {
    q in s.requests && s.requests[q].obj == o && (s.requests[q].pc.Recording? || (s.requests[q].pc.Checking? && !Merged(p, s)))
  }

  ghost predicate ComingWith(p: Plan, s: State, o: ObjectId, i: int) {
    exists q :: Coming(p, s, q, o) && s.requests[q].index == i
  }

  /** Every index is recorded in session o or will be by a request that holds it. */
  ghost predicate Fillable(p: Plan, s: State, o: ObjectId) {
    o < |s.objects| && forall i :: 0 <= i < |p.parts| ==> i in s.objects[o].received || ComingWith(p, s, o, i)
  }

  /** A pending request passes its check. */
  lemma Checks(p: Plan, s: State, q: RequestId, o: ObjectId) returns (t: State)
    requires Lasting(p, s) && Coming(p, s, q, o) && o < |s.objects|
    ensures Reaches(p, CALM, s, t) && Lasting(p, t) && t == s.(requests := t.requests)
    ensures (forall w :: w != q ==> Spared(s, t, w)) && t.requests.Keys == s.requests.Keys
    ensures t.requests[q] == s.requests[q].(pc := Recording)
  {
    if s.requests[q].pc.Checking? {
      assert RequestFollows(p, s.requests[q]);
      GoOn(p, s, CheckFinal(q, false));
      t := Apply(s, CheckFinal(q, false));
    } else {
      Stay(p, CALM, s);
      t := s;
    }
  }

  /** And the critical section. */
  lemma LetThrough(p: Plan, s: State, q: RequestId, o: ObjectId) returns (t: State)
    requires Lasting(p, s) && Coming(p, s, q, o) && o < |s.objects|
    ensures Reaches(p, CALM, s, t) && Lasting(p, t) && Same(s, t, o) && (forall w :: w != q ==> Spared(s, t, w))
    ensures t.objects[o].received == s.objects[o].received + {s.requests[q].index}
    ensures Indices(|p.parts|) <= t.objects[o].received ==> Holding(t, q, Racing) && t.requests[q].obj == o
  {
    var u := Checks(p, s, q, o);
    t := Records(p, u, q, o);
    Then(p, CALM, s, u, t);
    if Indices(|p.parts|) <= t.objects[o].received { CompletesTheSet(p, u, q); }
    forall w | w != q ensures Spared(s, t, w) { assert Spared(s, u, w) && Spared(u, t, w); }
  }

  lemma StillFillable(p: Plan, s: State, t: State, q: RequestId, o: ObjectId)
    requires Fillable(p, s, o) && Coming(p, s, q, o) && Same(s, t, o) && (forall w :: w != q ==> Spared(s, t, w))
    requires t.objects[o].received == s.objects[o].received + {s.requests[q].index}
    ensures Fillable(p, t, o)
  {
    forall i | 0 <= i < |p.parts| && i !in t.objects[o].received ensures ComingWith(p, t, o, i) {
      assert ComingWith(p, s, o, i);
      var q' :| Coming(p, s, q', o) && s.requests[q'].index == i;
      assert Spared(s, t, q');
      assert Coming(p, t, q', o);
    }
  }

  /** All pending requests but w, until w's index is the only one that may be missing. */
  lemma {:induction false} Drains(p: Plan, s: State, o: ObjectId, w: RequestId) returns (t: State)
    requires Lasting(p, s) && Coming(p, s, w, o) && Fillable(p, s, o)
    ensures Reaches(p, CALM, s, t) && Lasting(p, t) && Same(s, t, o) && Spared(s, t, w)
    ensures Indices(|p.parts|) - {s.requests[w].index} <= t.objects[o].received
    decreases Indices(|p.parts|) - s.objects[o].received
  {
    if Indices(|p.parts|) - {s.requests[w].index} <= s.objects[o].received {
      Stay(p, CALM, s);
      t := s;
    } else {
      var i :| i in Indices(|p.parts|) - {s.requests[w].index} && i !in s.objects[o].received;
      assert ComingWith(p, s, o, i);
      var q :| Coming(p, s, q, o) && s.requests[q].index == i;
      var u := LetThrough(p, s, q, o);
      assert Spared(s, u, w);
      assert i in Indices(|p.parts|) - s.objects[o].received && i !in Indices(|p.parts|) - u.objects[o].received;
      StillFillable(p, s, u, q, o);
      t := Drains(p, u, o, w);
      Then(p, CALM, s, u, t);
    }
  }

  /** Then w itself, which completes the set and races. */
  lemma DrainsToRace(p: Plan, s: State, o: ObjectId, w: RequestId) returns (t: State)
    requires Lasting(p, s) && Coming(p, s, w, o) && Fillable(p, s, o)
    ensures Reaches(p, CALM, s, t) && Lasting(p, t) && Same(s, t, o)
    ensures Holding(t, w, Racing) && t.requests[w].obj == o
  {
    var u := Drains(p, s, o, w);
    t := LetThrough(p, u, w, o);
    Then(p, CALM, s, u, t);
  }

  // ---- a session that can no longer be filled ----

  /** Out of the map, index i is not recorded and nobody will record it. */
  ghost predicate Starved(p: Plan, s: State, o: ObjectId, i: int) {
    0 <= i < |p.parts| && o < |s.objects| && s.current != Some(o) && i !in s.objects[o].received && !ComingWith(p, s, o, i)
  }

  lemma ComingEntry(p: Plan, s: State, a: Action, q: RequestId, o: ObjectId)
    requires Exact(p, s) && Enabled(s, a) && Calm(s, a) && Coming(p, Apply(s, a), q, o)
    ensures (Coming(p, s, q, o) && Apply(s, a).requests[q].index == s.requests[q].index) || Apply(s, a).current == Some(o)
  {
    if Subject(a) != Some(q) {
      OthersKeepTheirPlace(s, a, q);
      if Merged(p, s) { MergedIsForever(p, s, a); }
    } else if q in s.requests {
      assert RequestFollows(p, s.requests[q]);
    }
  }

  lemma StarvedStep(p: Plan, s: State, a: Action, o: ObjectId, i: int)
    requires Lasting(p, s) && Starved(p, s, o, i) && Enabled(s, a) && Calm(s, a)
    ensures Starved(p, Apply(s, a), o, i)
  {
    CurrentMoves(s, a);
    ObjectsGrow(s, a);
    var s' := Apply(s, a);
    assert s'.current != Some(o);
    if i in s'.objects[o].received {
      ReceivedBy(s, a, o, i);
      assert Coming(p, s, a.r, o);
    }
    if q :| Coming(p, s', q, o) && s'.requests[q].index == i {
      ComingEntry(p, s, a, q, o);
    }
  }

  /** Nobody merges it or even races for its flag. */
  lemma StarvedIsNotCounted(p: Plan, s: State, o: ObjectId, i: int, q: RequestId)
    requires Exact(p, s) && Starved(p, s, o, i) && q in s.requests && s.requests[q].obj == o
    ensures !Counted(s, q)
  {
    if Counted(s, q) {
      assert SessionFollows(p, s.objects[o]);
      Pigeonhole(s.objects[o].received, |p.parts|);
    }
  }

  lemma UnfillableIsStarved(p: Plan, s: State, o: ObjectId) returns (i: int)
    requires o < |s.objects| && s.current != Some(o) && !Fillable(p, s, o)
    ensures Starved(p, s, o, i)
  {
    i :| 0 <= i < |p.parts| && i !in s.objects[o].received && !ComingWith(p, s, o, i);
  }

  // ---- winning the flag, merging and booking ----

  /** Before the file exists a raised flag nobody merges under is being given back; then it is clear. */
  lemma ClearsFlag(p: Plan, s: State, o: ObjectId) returns (t: State)
    requires Lasting(p, s) && !Merged(p, s) && o < |s.objects|
    requires forall r :: MergerOf(s, r, o) ==> s.requests[r].pc.Resetting?
    ensures Reaches(p, CALM, s, t) && Lasting(p, t) && t == s.(requests := t.requests, objects := t.objects)
    ensures o < |t.objects| && !t.objects[o].mergeStarted && t.objects[o].received == s.objects[o].received
    ensures forall w :: w in s.requests && !s.requests[w].pc.Resetting? ==> Spared(s, t, w)
  {
    if s.objects[o].mergeStarted {
      assert SomeMerger(s, o);
      var r :| MergerOf(s, r, o);
      GoOn(p, s, ResetFlag(r));
      t := Apply(s, ResetFlag(r));
    } else {
      Stay(p, CALM, s);
      t := s;
    }
  }

  lemma Wins(p: Plan, s: State, r: RequestId, o: ObjectId) returns (t: State)
    requires Lasting(p, s) && Holding(s, r, Racing) && s.requests[r].obj == o && !s.objects[o].mergeStarted
    ensures Reaches(p, CALM, s, t) && Lasting(p, t) && Holding(t, r, Probing) && t.requests[r].obj == o
    ensures t == s.(requests := t.requests, objects := t.objects) && forall w :: w != r ==> Spared(s, t, w)
  {
    GoOn(p, s, CompareAndSwap(r));
    t := Apply(s, CompareAndSwap(r));
  }

  lemma TrueProbeIsCalm(p: Plan, s: State, r: RequestId)
    requires Exact(p, s) && Holding(s, r, Probing)
    ensures Enabled(s, ProbeFinal(r, Merged(p, s))) && Calm(s, ProbeFinal(r, Merged(p, s)))
  {
    assert RequestFollows(p, s.requests[r]);
  }

  /** Probed truthfully: on to the log when the file is there, to the compose when it is not. */
  lemma Probes(p: Plan, s: State, r: RequestId) returns (t: State)
    requires Lasting(p, s) && Holding(s, r, Probing)
    ensures Reaches(p, CALM, s, t) && Lasting(p, t) && Holding(t, r, if Merged(p, s) then Logging else Composing)
    ensures t == s.(requests := t.requests) && forall w :: w != r ==> Spared(s, t, w)
  {
    TrueProbeIsCalm(p, s, r);
    GoOn(p, s, ProbeFinal(r, Merged(p, s)));
    t := Apply(s, ProbeFinal(r, Merged(p, s)));
    assert t == Goto(s, r, if Merged(p, s) then Logging else Composing);
  }

  /** The file is put in place. */
  lemma Composes(p: Plan, s: State, r: RequestId) returns (t: State)
    requires Stocked(p, s) && !Merged(p, s) && At(s, r, Composing)
    ensures Reaches(p, CALM, s, t) && Lasting(p, t) && Holding(t, r, Logging) && Merged(p, t)
    ensures t.finalized == s.finalized && forall w :: w != r ==> Spared(s, t, w)
  {
    ComposerHasItsSources(p, s, r);
    GoOn(p, s, Compose(r, true));
    t := Apply(s, Compose(r, true));
  }

  /** From the probe to the log. */
  lemma Merges(p: Plan, s: State, r: RequestId, w: RequestId) returns (t: State)
    requires Stocked(p, s) && Holding(s, r, Probing) && w != r
    ensures Reaches(p, CALM, s, t) && Lasting(p, t) && Holding(t, r, Logging) && Merged(p, t)
    ensures t.finalized == s.finalized && Spared(s, t, w)
  {
    var u := Probes(p, s, r);
    t := u;
    assert Spared(s, u, w);
    if !Merged(p, s) {
      StaysStocked(p, s, u);
      t := Composes(p, u, r);
      Then(p, CALM, s, u, t);
      assert Spared(u, t, w);
    }
  }

  ghost predicate CleanupDue(p: Plan, s: State) {
    exists c :: 0 <= c < |s.cleaners| && s.cleaners[c] == Cleaner(p.actor, |p.parts|, 0, true)
  }

  /** The upload has been logged and counted and its cleanup scheduled. */
  ghost predicate Booked(p: Plan, s: State, t: State, r: RequestId) {
    At(t, r, Publishing) && Merged(p, t) && t.finalized == s.finalized + 1 && CleanupDue(p, t)
  }

  lemma LogsAndCounts(p: Plan, s: State, r: RequestId, w: RequestId) returns (t: State)
    requires Lasting(p, s) && Holding(s, r, Logging) && w != r
    ensures Reaches(p, CALM, s, t) && Lasting(p, t) && Holding(t, r, Scheduling) && t.finalized == s.finalized && Spared(s, t, w)
  {
    GoOn(p, s, SaveLog(r, true));
    var u := Apply(s, SaveLog(r, true));
    GoOn(p, u, IncrementUsage(r, true));
    t := Apply(u, IncrementUsage(r, true));
    Then(p, CALM, s, u, t);
  }

  lemma Schedules(p: Plan, s: State, r: RequestId) returns (t: State)
    requires Lasting(p, s) && Holding(s, r, Scheduling)
    ensures Reaches(p, CALM, s, t) && Lasting(p, t) && Booked(p, s, t, r) && forall w :: w != r ==> Spared(s, t, w)
  {
    assert RequestFollows(p, s.requests[r]) && SessionFollows(p, Mine(s, r));
    GoOn(p, s, ScheduleCleanup(r));
    t := Apply(s, ScheduleCleanup(r));
    assert t.cleaners[|s.cleaners|] == Cleaner(p.actor, |p.parts|, 0, true);
  }

  lemma Books(p: Plan, s: State, r: RequestId, w: RequestId) returns (t: State)
    requires Lasting(p, s) && Holding(s, r, Logging) && w != r
    ensures Reaches(p, CALM, s, t) && Lasting(p, t) && Booked(p, s, t, r) && Spared(s, t, w)
  {
    var u := LogsAndCounts(p, s, r, w);
    t := Schedules(p, u, r);
    Then(p, CALM, s, u, t);
    assert Spared(u, t, w);
  }

  lemma RacesAndBooks(p: Plan, s: State, r: RequestId, o: ObjectId, w: RequestId) returns (t: State)
    requires Stocked(p, s) && Holding(s, r, Racing) && s.requests[r].obj == o && !s.objects[o].mergeStarted && w != r
    ensures Reaches(p, CALM, s, t) && Lasting(p, t) && Booked(p, s, t, r) && Spared(s, t, w)
  {
    var s1 := Wins(p, s, r, o);
    assert Spared(s, s1, w);
    StaysStocked(p, s, s1);
    var s2 := Merges(p, s1, r, w);
    t := Books(p, s2, r, w);
    Then(p, CALM, s, s1, s2);
    Then(p, CALM, s, s2, t);
  }

  /** With the session filled by new requests, a poised request finalizes; w stands where it stood. */
  lemma PoisedFinalizes(p: Plan, s: State, r: RequestId, o: ObjectId, w: RequestId) returns (t: State)
    requires Stocked(p, s) && Poised(s, r, o) && w != r
    ensures Reaches(p, CALM, s, t) && Lasting(p, t) && Booked(p, s, t, r) && Spared(s, t, w)
  {
    var s1 := FillAll(p, s, o, {}, w, r);
    var s2 := Records(p, s1, r, o);
    CompletesTheSet(p, s1, r);
    assert Spared(s1, s2, w);
    Then(p, CALM, s, s1, s2);
    StaysStocked(p, s, s2);
    t := RacesAndBooks(p, s2, r, o, w);
    Then(p, CALM, s, s2, t);
  }

  // ---- a compose that cannot succeed ----

  /** Some calm future has one. */
  ghost predicate MayMissASource(p: Plan, s: State) {
    exists run, r :: Legal(s, run) && RunFollows(p, run) && CalmRun(s, run) &&
      At(After(s, run), r, Composing) && !Enabled(After(s, run), Compose(r, true))
  }

  lemma MissesASource(p: Plan, s: State, r: RequestId, i: int)
    requires Exact(p, s) && At(s, r, Composing) && 0 <= i < |p.parts| && (p.actor, i) !in s.chunks
    ensures !Enabled(s, Compose(r, true))
  {
    assert RequestFollows(p, s.requests[r]) && Counted(s, r);
    assert SessionFollows(p, Mine(s, r));
  }

  lemma ReachedMiss(p: Plan, s: State, t: State, r: RequestId)
    requires Reaches(p, CALM, s, t) && At(t, r, Composing) && !Enabled(t, Compose(r, true))
    ensures MayMissASource(p, s)
  {
    var run := CalmRunOf(p, CALM, s, t);
    assert At(After(s, run), r, Composing);
  }

  /** Before the file exists, whoever finds the flag clear gets to the compose. */
  lemma RacerComposes(p: Plan, s: State, r: RequestId, o: ObjectId) returns (t: State)
    requires Lasting(p, s) && !Merged(p, s) && Holding(s, r, Racing) && s.requests[r].obj == o && !s.objects[o].mergeStarted
    ensures Reaches(p, CALM, s, t) && Lasting(p, t) && t == s.(requests := t.requests, objects := t.objects) && At(t, r, Composing)
  {
    var u := Wins(p, s, r, o);
    t := Probes(p, u, r);
    Then(p, CALM, s, u, t);
  }
}
