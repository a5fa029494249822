/**
 Exactly when a session id may be finalized again. The mistake is made at the load
 (internal/service/upload/upload_service.go:179-187): with the file in place, a request that
 loads a session object whose merge flag is clear can go on to finalize the id once
 more; a request whose load is guarded never merges, whatever happens next. A check that
 errs is the other way in.
 */
module UploadAgain {
  import opened Prelude
  import opened UploadProtocol
  import opened UploadSafety
  import opened UploadExactness
  import opened UploadCalm
  import opened UploadOnce
  import opened UploadRuns
  import opened UploadFill

  // ---- a guarded load never leads to a merge ----

  /** On its way out, told that the file is there, or on a session whose flag is up. */
  predicate Harmless(s: State, r: RequestId) {
    r in s.requests &&
    var q := s.requests[r];
    || q.pc.Checking? || q.pc.Dropping? || q.pc.Finished?
    || (q.obj < |s.objects| && s.objects[q.obj].mergeStarted && (q.pc.Recording? || q.pc.Racing? || q.pc.Waiting?))
  }

  /** On a session whose flag is up nobody gets past the compare-and-swap. */
  lemma BlockedStaysBlocked(s: State, a: Action, r: RequestId)
    requires Enabled(s, a) && Subject(a) == Some(r) && r in s.requests && s.requests[r].obj < |s.objects|
    requires s.objects[s.requests[r].obj].mergeStarted && (s.requests[r].pc.Recording? || s.requests[r].pc.Racing? || s.requests[r].pc.Waiting?)
    ensures var s' := Apply(s, a);
      r in s'.requests && s'.requests[r].obj == s.requests[r].obj &&
      (s'.requests[r].pc.Racing? || s'.requests[r].pc.Waiting? || s'.requests[r].pc.Finished?)
  {
  }

  lemma HarmlessOwnStep(p: Plan, s: State, a: Action, r: RequestId)
    requires Exact(p, s) && Merged(p, s) && Enabled(s, a) && Calm(s, a) && Harmless(s, r) && Subject(a) == Some(r)
    requires s.requests[r].obj < |s.objects| && s.objects[s.requests[r].obj].mergeStarted ==>
      s.requests[r].obj < |Apply(s, a).objects| && Apply(s, a).objects[s.requests[r].obj].mergeStarted
    ensures Harmless(Apply(s, a), r)
  {
    if Inspecting(s, r) {
      assert RequestFollows(p, s.requests[r]);
      LeaverLeaves(s, a, r);
    } else {
      assert !s.requests[r].pc.Finished?;
      BlockedStaysBlocked(s, a, r);
    }
  }

  lemma HarmlessStep(p: Plan, s: State, a: Action, r: RequestId)
    requires Good(p, s) && Merged(p, s) && Enabled(s, a) && Calm(s, a) && Harmless(s, r)
    ensures Harmless(Apply(s, a), r)
  {
    var o := s.requests[r].obj;
    if o < |s.objects| && s.objects[o].mergeStarted { FlagStays(p, s, a, o); }
    if Subject(a) == Some(r) { HarmlessOwnStep(p, s, a, r); } else { OthersKeepTheirPlace(s, a, r); }
  }

  lemma {:induction false} HarmlessRun(p: Plan, s: State, run: seq<Action>, r: RequestId)
    requires Good(p, s) && Merged(p, s) && Harmless(s, r)
    requires Legal(s, run) && RunFollows(p, run) && CalmRun(s, run)
    ensures Harmless(After(s, run), r)
    decreases |run|
  {
    if run != [] {
      GoodStep(p, s, run[0]);
      MergedIsForever(p, s, run[0]);
      HarmlessStep(p, s, run[0], r);
      assert forall i :: 0 <= i < |run[1..]| ==> run[1..][i] == run[i + 1];
      HarmlessRun(p, Apply(s, run[0]), run[1..], r);
    }
  }

  // ---- exactly when a load or a race can finalize again ----

  /** Some calm future has the request in the merging branch. */
  ghost predicate MayMerge(p: Plan, s: State, r: RequestId) {
    exists run :: Legal(s, run) && RunFollows(p, run) && CalmRun(s, run) &&
      r in After(s, run).requests && Merging(After(s, run).requests[r].pc)
  }

  /** Some calm future has the request's own finalize succeed, and the id finalized once more. */
  ghost predicate MayFinalize(p: Plan, s: State, r: RequestId) {
    exists run :: Legal(s, run) && RunFollows(p, run) && CalmRun(s, run) &&
      At(After(s, run), r, Publishing) && After(s, run).finalized > s.finalized
  }

  lemma HarmlessNeverMerges(p: Plan, s: State, r: RequestId)
    requires Good(p, s) && Merged(p, s) && Harmless(s, r)
    ensures !MayMerge(p, s, r)
  {
    forall run | Legal(s, run) && RunFollows(p, run) && CalmRun(s, run) ensures Harmless(After(s, run), r) {
      HarmlessRun(p, s, run, r);
    }
  }

  lemma FinalizingIsMerging(p: Plan, s: State, r: RequestId)
    requires MayFinalize(p, s, r)
    ensures MayMerge(p, s, r)
  {
  }

  lemma BookedMayFinalize(p: Plan, s: State, t: State, r: RequestId)
    requires Reaches(p, CALM, s, t) && Booked(p, s, t, r)
    ensures MayFinalize(p, s, r) && MayMerge(p, s, r)
  {
    var run := CalmRunOf(p, CALM, s, t);
    assert MayFinalize(p, s, r);
    FinalizingIsMerging(p, s, r);
  }

  /**
   With the file in place, a request about to load the session may finalize the id once more
   exactly when its load is not guarded; when it is, the request never even merges.
   */
  lemma {:induction false} FinalizesAgainIff(p: Plan, s: State, r: RequestId)
    requires Good(p, s) && Merged(p, s) && At(s, r, Loading)
    ensures MayFinalize(p, Apply(s, LoadOrStore(r)), r) <==> !Guarded(p, s, LoadOrStore(r))
    ensures MayMerge(p, Apply(s, LoadOrStore(r)), r) <==> !Guarded(p, s, LoadOrStore(r))
  {
    var t := Apply(s, LoadOrStore(r));
    GoodStep(p, s, LoadOrStore(r));
    if Guarded(p, s, LoadOrStore(r)) {
      HarmlessNeverMerges(p, t, r);
      if MayFinalize(p, t, r) { FinalizingIsMerging(p, t, r); }
    } else {
      var u := PoisedFinalizes(p, t, r, s.current.value, r + 1);
      BookedMayFinalize(p, t, u, r);
    }
  }

  /** The same at the compare-and-swap: a racing request may finalize again exactly when its session's flag is clear. */
  lemma {:induction false} MergesAgainIff(p: Plan, s: State, r: RequestId)
    requires Good(p, s) && Merged(p, s) && Holding(s, r, Racing)
    ensures MayFinalize(p, s, r) <==> !Mine(s, r).mergeStarted
    ensures MayMerge(p, s, r) <==> !Mine(s, r).mergeStarted
  {
    if Mine(s, r).mergeStarted {
      HarmlessNeverMerges(p, s, r);
      if MayFinalize(p, s, r) { FinalizingIsMerging(p, s, r); }
    } else {
      var t := RacesAndBooks(p, s, r, s.requests[r].obj, r + 1);
      BookedMayFinalize(p, s, t, r);
    }
  }

  // ---- exactly when an error of the check can ----

  predicate Loaded(s: State, r: RequestId, o: ObjectId) {
    r in s.requests && s.requests[r].obj == o && !s.requests[r].pc.Putting? && !s.requests[r].pc.Loading?
  }

  /** A request keeps the session it has loaded. */
  lemma LoadedStays(s: State, a: Action, r: RequestId, o: ObjectId)
    requires Enabled(s, a) && Loaded(s, r, o)
    ensures Loaded(Apply(s, a), r, o)
  {
    if Subject(a) != Some(r) { OthersKeepTheirPlace(s, a, r); }
  }

  lemma {:induction false} StarvedRun(p: Plan, s: State, run: seq<Action>, r: RequestId, o: ObjectId, i: int)
    requires Stocked(p, s) && Starved(p, s, o, i) && Loaded(s, r, o)
    requires Legal(s, run) && RunFollows(p, run) && CalmRun(s, run)
    ensures Exact(p, After(s, run)) && Starved(p, After(s, run), o, i) && Loaded(After(s, run), r, o)
    decreases |run|
  {
    if run != [] {
      StockedStep(p, s, run[0]);
      StarvedStep(p, s, run[0], o, i);
      LoadedStays(s, run[0], r, o);
      assert forall i :: 0 <= i < |run[1..]| ==> run[1..][i] == run[i + 1];
      StarvedRun(p, Apply(s, run[0]), run[1..], r, o, i);
    }
  }

  lemma StarvedNeverMerges(p: Plan, s: State, r: RequestId, o: ObjectId, i: int)
    requires Stocked(p, s) && Starved(p, s, o, i) && Loaded(s, r, o)
    ensures !MayMerge(p, s, r)
  {
    forall run | Legal(s, run) && RunFollows(p, run) && CalmRun(s, run)
      ensures !(r in After(s, run).requests && Merging(After(s, run).requests[r].pc))
    {
      StarvedRun(p, s, run, r, o, i);
      StarvedIsNotCounted(p, After(s, run), o, i, r);
    }
  }

  /** A wrong answer of the check leaves the invariant alone. */
  lemma ErrorKeepsGood(p: Plan, s: State, r: RequestId)
    requires Good(p, s) && Merged(p, s) && At(s, r, Checking)
    ensures Enabled(s, CheckFinal(r, false)) && Good(p, Apply(s, CheckFinal(r, false))) && Merged(p, Apply(s, CheckFinal(r, false)))
  {
    var a := CheckFinal(r, false);
    SafeStep(s, a);
    NothingLostStep(s, a);
    ExactStep(p, s, a);
  }

  /**
   With the file in place the check errs, and all else stays calm: the request may finalize
   the id once more exactly when the flag of its session is clear and the session is still
   in the map, or is filled by the requests that hold it.
   */
  lemma {:induction false} CheckErrorFinalizesIff(p: Plan, s: State, r: RequestId)
    requires Good(p, s) && Merged(p, s) && At(s, r, Checking)
    ensures Enabled(s, CheckFinal(r, false))
    ensures var (t, o) := (Apply(s, CheckFinal(r, false)), s.requests[r].obj);
      var harmful := !s.objects[o].mergeStarted && (s.current == Some(o) || Fillable(p, t, o));
      (MayFinalize(p, t, r) <==> harmful) && (MayMerge(p, t, r) <==> harmful)
  {
    ErrorKeepsGood(p, s, r);
    var t, o := Apply(s, CheckFinal(r, false)), s.requests[r].obj;
    if s.objects[o].mergeStarted {
      HarmlessNeverMerges(p, t, r);
      if MayFinalize(p, t, r) { FinalizingIsMerging(p, t, r); }
    } else if s.current == Some(o) {
      var u := PoisedFinalizes(p, t, r, o, r + 1);
      BookedMayFinalize(p, t, u, r);
    } else if Fillable(p, t, o) {
      var u := DrainsToRace(p, t, o, r);
      StaysStocked(p, t, u);
      var v := RacesAndBooks(p, u, r, o, r + 1);
      Then(p, CALM, t, u, v);
      BookedMayFinalize(p, t, v, r);
    } else {
      var i := UnfillableIsStarved(p, t, o);
      StarvedNeverMerges(p, t, r, o, i);
      if MayFinalize(p, t, r) { FinalizingIsMerging(p, t, r); }
    }
  }
}
