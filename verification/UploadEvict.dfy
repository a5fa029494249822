/**
 Exactly when the janitor does harm by evicting a session some request still holds
 (internal/service/upload/upload_service.go:105-116). Beside the evicted session a fresh one
 can merge, and its cleanup removes the chunks a merge of the first is about to compose; so
 the eviction loses a chunk exactly when the file is not there yet and the requests that
 hold the session can still bring it to a merge.
 */
module UploadEvict {
  import opened Prelude
  import opened UploadProtocol
  import opened UploadSafety
  import opened UploadExactness
  import opened UploadCalm
  import opened UploadRuns
  import opened UploadFill

  /** On session o, neither waiting nor on its way out. */
  predicate Worker(s: State, r: RequestId, o: ObjectId) {
    r in s.requests && s.requests[r].obj == o &&
    var pc := s.requests[r].pc;
    pc.Checking? || pc.Recording? || pc.Racing? || pc.Probing? || pc.Composing?
  }

  /** The requests that hold session o can bring it to a merge on their own. */
  ghost predicate Mergeable(p: Plan, s: State, o: ObjectId) {
    Fillable(p, s, o) && exists r :: Worker(s, r, o)
  }

  // ---- harm ----

  lemma ClearFlagKeepsFillable(p: Plan, s: State, t: State, o: ObjectId)
    requires Fillable(p, s, o) && o < |t.objects| && t.objects[o].received == s.objects[o].received && t.finals == s.finals
    requires forall w :: w in s.requests && !s.requests[w].pc.Resetting? ==> Spared(s, t, w)
    ensures Fillable(p, t, o)
  {
    forall i | 0 <= i < |p.parts| && i !in t.objects[o].received ensures ComingWith(p, t, o, i) {
      assert ComingWith(p, s, o, i);
      var q :| Coming(p, s, q, o) && s.requests[q].index == i;
      assert Spared(s, t, q);
      assert Coming(p, t, q, o);
    }
  }

  /** With no merger at work, a worker takes the flag, once it has been given back. */
  lemma WorkerComposes(p: Plan, s: State, w: RequestId, o: ObjectId) returns (t: State)
    requires Lasting(p, s) && !Merged(p, s) && Fillable(p, s, o) && Worker(s, w, o)
    requires forall r :: MergerOf(s, r, o) ==> s.requests[r].pc.Resetting?
    ensures Reaches(p, CALM, s, t) && Lasting(p, t) && !Merged(p, t) && At(t, w, Composing) && t.current == s.current
  {
    var u := ClearsFlag(p, s, o);
    assert Spared(s, u, w);
    var v := u;
    if !u.requests[w].pc.Racing? {
      ClearFlagKeepsFillable(p, s, u, o);
      v := DrainsToRace(p, u, o, w);
      Then(p, CALM, s, u, v);
    }
    t := RacerComposes(p, v, w, o);
    Then(p, CALM, s, v, t);
  }

  lemma MergeableComposes(p: Plan, s: State, o: ObjectId) returns (r: RequestId, t: State)
    requires Lasting(p, s) && !Merged(p, s) && Mergeable(p, s, o)
    ensures Reaches(p, CALM, s, t) && Lasting(p, t) && !Merged(p, t) && At(t, r, Composing) && t.current == s.current
  {
    if r' :| MergerOf(s, r', o) && s.requests[r'].pc.Composing? {
      r, t := r', s;
      Stay(p, CALM, s);
    } else if r' :| MergerOf(s, r', o) && s.requests[r'].pc.Probing? {
      r := r';
      t := Probes(p, s, r);
    } else {
      r :| Worker(s, r, o);
      forall r' | MergerOf(s, r', o) ensures s.requests[r'].pc.Resetting? { assert !AfterCompose(s.requests[r'].pc); }
      t := WorkerComposes(p, s, r, o);
    }
  }

  /** Beside a request that is about to compose, a fresh session is filled, merged and cleaned up. */
  lemma ComposerLosesAChunk(p: Plan, s: State, r: RequestId) returns (t: State)
    requires Stocked(p, s) && !Merged(p, s) && At(s, r, Composing) && s.current == None
    ensures Reaches(p, CALM, s, t) && At(t, r, Composing) && !Enabled(t, Compose(r, true))
  {
    assert RequestFollows(p, s.requests[r]);
    var q, s1 := Comes(p, s, 0);
    assert Spared(s, s1, r);
    var s2 := Opens(p, s1, q, r);
    Then(p, CALM, s, s1, s2);
    StaysStocked(p, s, s2);
    var s3 := PoisedFinalizes(p, s2, q, |s1.objects|, r);
    Then(p, CALM, s, s2, s3);
    t := CleanupRemovesAChunk(p, s3, r);
    Then(p, CALM, s, s3, t);
  }

  lemma CleanupRemovesAChunk(p: Plan, s: State, r: RequestId) returns (t: State)
    requires Lasting(p, s) && At(s, r, Composing) && CleanupDue(p, s)
    ensures Reaches(p, CALM, s, t) && At(t, r, Composing) && !Enabled(t, Compose(r, true))
  {
    var c :| 0 <= c < |s.cleaners| && s.cleaners[c] == Cleaner(p.actor, |p.parts|, 0, true);
    assert RequestFollows(p, s.requests[r]);
    GoOn(p, s, RemoveChunk(c, true));
    t := DoRemoveChunk(s, c, true);
    MissesASource(p, t, r, 0);
  }

  // ---- no harm ----

  ghost predicate Workless(s: State, o: ObjectId) {
    o < |s.objects| && s.current != Some(o) && forall r :: !Worker(s, r, o)
  }

  /** Out of the map, session o will never be merged. */
  ghost predicate Barren(p: Plan, s: State, o: ObjectId) {
    Workless(s, o) || exists i :: Starved(p, s, o, i)
  }

  ghost predicate OneLiveBeside(s: State, o: ObjectId) {
    forall r, o': ObjectId :: ActiveOn(s, r, o') && o' != o ==> s.current == Some(o')
  }

  /** Beside a barren session the protocol goes on as with one live session. */
  ghost predicate Sterile(p: Plan, s: State, o: ObjectId) {
    && Stocked(p, s)
    && if Merged(p, s) then forall r :: !At(s, r, Composing) else Barren(p, s, o) && OneLiveBeside(s, o)
  }

  lemma WorkerEntry(s: State, a: Action, r: RequestId, o: ObjectId)
    requires Enabled(s, a) && Worker(Apply(s, a), r, o)
    ensures Worker(s, r, o) || Apply(s, a).current == Some(o)
  {
    if Subject(a) != Some(r) { OthersKeepTheirPlace(s, a, r); }
  }

  lemma StaysOutOfTheMap(s: State, a: Action, o: ObjectId)
    requires Enabled(s, a) && o < |s.objects| && s.current != Some(o)
    ensures Apply(s, a).current != Some(o) && o < |Apply(s, a).objects|
  {
    CurrentMoves(s, a);
    ObjectsGrow(s, a);
  }

  lemma BarrenStep(p: Plan, s: State, a: Action, o: ObjectId)
    requires Stocked(p, s) && Barren(p, s, o) && Enabled(s, a) && Calm(s, a)
    ensures Barren(p, Apply(s, a), o)
  {
    if i :| Starved(p, s, o, i) {
      StarvedStep(p, s, a, o, i);
    } else {
      StaysOutOfTheMap(s, a, o);
      forall r ensures !Worker(Apply(s, a), r, o) {
        if Worker(Apply(s, a), r, o) { WorkerEntry(s, a, r, o); }
      }
    }
  }

  lemma BarrenIsNotComposed(p: Plan, s: State, o: ObjectId, r: RequestId)
    requires Exact(p, s) && Barren(p, s, o) && At(s, r, Composing)
    ensures s.requests[r].obj != o
  {
    if s.requests[r].obj == o {
      assert Worker(s, r, o) && Counted(s, r);
      var i :| Starved(p, s, o, i);
      StarvedIsNotCounted(p, s, o, i, r);
    }
  }

  lemma OneLiveBesideStep(s: State, a: Action, o: ObjectId)
    requires OneLiveBeside(s, o) && Enabled(s, a) && Calm(s, a)
    requires forall r :: r in s.requests ==> !s.requests[r].pc.Dropping?
    requires s.cleaners == []
    ensures OneLiveBeside(Apply(s, a), o)
  {
    CurrentMoves(s, a);
    forall r, o': ObjectId | ActiveOn(Apply(s, a), r, o') && o' != o ensures Apply(s, a).current == Some(o') {
      ActivatedBy(s, a, r, o');
      if ActiveOn(s, r, o') {
        assert s.current == Some(o');
        assert Held(s, o');
      }
    }
  }

  lemma ComposingEntry(p: Plan, s: State, a: Action, r: RequestId)
    requires Exact(p, s) && Enabled(s, a) && Calm(s, a) && At(Apply(s, a), r, Composing)
    ensures (At(s, r, Composing) && !(a.Compose? && a.r == r)) || (a.ProbeFinal? && !Merged(p, s))
  {
    if Subject(a) != Some(r) { OthersKeepTheirPlace(s, a, r); } else { assert r in s.requests ==> RequestFollows(p, s.requests[r]); }
  }

  /** Whoever composes first is on the one live session, and alone there. */
  lemma FirstComposeIsAlone(p: Plan, s: State, a: Action, o: ObjectId, r: RequestId)
    requires Sterile(p, s, o) && !Merged(p, s) && Enabled(s, a) && a.Compose? && At(s, r, Composing)
    ensures r == a.r
  {
    BarrenIsNotComposed(p, s, o, r);
    BarrenIsNotComposed(p, s, o, a.r);
    assert ActiveOn(s, r, s.requests[r].obj) && ActiveOn(s, a.r, s.requests[a.r].obj);
    assert MergerOf(s, r, s.requests[r].obj) && MergerOf(s, a.r, s.requests[r].obj);
  }

  /** Told truthfully, nobody is about to compose once the file is there. */
  lemma NoComposerStep(p: Plan, s: State, a: Action, o: ObjectId, r: RequestId)
    requires Sterile(p, s, o) && Enabled(s, a) && Calm(s, a) && Merged(p, Apply(s, a))
    ensures !At(Apply(s, a), r, Composing)
  {
    if At(Apply(s, a), r, Composing) {
      ComposingEntry(p, s, a, r);
      if !Merged(p, s) {
        OnlyComposeMerges(p, s, a);
        FirstComposeIsAlone(p, s, a, o, r);
      }
    }
  }

  lemma SterileStep(p: Plan, s: State, a: Action, o: ObjectId)
    requires Sterile(p, s, o) && Enabled(s, a) && Calm(s, a) && Follows(p, a)
    ensures Sterile(p, Apply(s, a), o)
  {
    StockedStep(p, s, a);
    if Merged(p, Apply(s, a)) {
      forall r ensures !At(Apply(s, a), r, Composing) { NoComposerStep(p, s, a, o, r); }
    } else {
      if Merged(p, s) { MergedIsForever(p, s, a); }
      BarrenStep(p, s, a, o);
      OneLiveBesideStep(s, a, o);
    }
  }

  lemma {:induction false} SterileRun(p: Plan, s: State, run: seq<Action>, o: ObjectId)
    requires Sterile(p, s, o) && Legal(s, run) && RunFollows(p, run) && CalmRun(s, run)
    ensures Sterile(p, After(s, run), o)
    decreases |run|
  {
    if run != [] {
      SterileStep(p, s, run[0], o);
      assert forall i :: 0 <= i < |run[1..]| ==> run[1..][i] == run[i + 1];
      SterileRun(p, Apply(s, run[0]), run[1..], o);
    }
  }

  lemma SterileMissesNothing(p: Plan, s: State, o: ObjectId)
    requires Sterile(p, s, o)
    ensures !MayMissASource(p, s)
  {
    forall run, r | Legal(s, run) && RunFollows(p, run) && CalmRun(s, run) && At(After(s, run), r, Composing)
      ensures Enabled(After(s, run), Compose(r, true))
    {
      SterileRun(p, s, run, o);
      ComposerHasItsSources(p, After(s, run), r);
    }
  }

  // ---- the exact condition ----

  lemma EvictionKeepsStocked(p: Plan, s: State)
    requires Good(p, s) && s.current.Some?
    ensures Stocked(p, Apply(s, Evict))
  {
    SafeStep(s, Evict);
    NothingLostStep(s, Evict);
    ExactStep(p, s, Evict);
  }

  lemma EvictionLeavesSterile(p: Plan, s: State, o: ObjectId)
    requires Good(p, s) && s.current == Some(o) && (Merged(p, s) || !Mergeable(p, s, o))
    ensures Sterile(p, Apply(s, Evict), o)
  {
    var t := Apply(s, Evict);
    EvictionKeepsStocked(p, s);
    if Merged(p, s) {
      forall r ensures !At(t, r, Composing) { assert At(s, r, Composing) ==> BeforeCompose(s.requests[r].pc); }
    } else {
      forall r, o': ObjectId | ActiveOn(t, r, o') ensures o' == o { assert ActiveOn(s, r, o'); }
      if Fillable(p, s, o) {
        forall r ensures !Worker(t, r, o) { assert !Worker(s, r, o); }
      } else {
        var i := UnfillableIsStarved(p, t, o);
      }
    }
  }

  /**
   In a calm protocol the janitor evicts the session in the map, held or not, and all else
   stays calm: a compose may miss a source exactly when the file is not there yet and the
   requests that hold the session can bring it to a merge.
   */
  lemma {:induction false} EvictionLosesAChunkIff(p: Plan, s: State)
    requires Good(p, s) && s.current.Some?
    ensures MayMissASource(p, Apply(s, Evict)) <==> !Merged(p, s) && Mergeable(p, s, s.current.value)
  {
    var t, o := Apply(s, Evict), s.current.value;
    EvictionKeepsStocked(p, s);
    if !Merged(p, s) && Mergeable(p, s, o) {
      var w :| Worker(s, w, o);
      assert Worker(t, w, o);
      EvictionKeepsFillable(p, s, o);
      var r, u := MergeableComposes(p, t, o);
      StaysStocked(p, t, u);
      var v := ComposerLosesAChunk(p, u, r);
      Then(p, CALM, t, u, v);
      ReachedMiss(p, t, v, r);
    } else {
      EvictionLeavesSterile(p, s, o);
      SterileMissesNothing(p, t, o);
    }
  }

  lemma EvictionKeepsFillable(p: Plan, s: State, o: ObjectId)
    requires s.current.Some?
    ensures Fillable(p, s, o) <==> Fillable(p, Apply(s, Evict), o)
  {
    var t := Apply(s, Evict);
    forall q ensures Coming(p, s, q, o) <==> Coming(p, t, q, o) {}
    forall i ensures ComingWith(p, s, o, i) <==> ComingWith(p, t, o, i) {
      if q :| Coming(p, s, q, o) && s.requests[q].index == i { assert Coming(p, t, q, o); }
      if q :| Coming(p, t, q, o) && t.requests[q].index == i { assert Coming(p, s, q, o); }
    }
  }
}
