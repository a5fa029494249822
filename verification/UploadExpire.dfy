/**
 Exactly when the bucket does harm by expiring a temporary chunk before the merge
 (internal/service/upload/upload_service.go:172-241). A session remembers the index, not the
 chunk: unless the chunk is sent again first, a merge that counts the index misses it.
 */
module UploadExpire {
  import opened Prelude
  import opened UploadProtocol
  import opened UploadSafety
  import opened UploadExactness
  import opened UploadCalm
  import opened UploadRuns
  import opened UploadFill

  /** Racing or merging, the compose still to come. */
  predicate BeforeMerge(s: State, r: RequestId) {
    r in s.requests && (s.requests[r].pc.Racing? || s.requests[r].pc.Probing? || s.requests[r].pc.Composing?)
  }

  /** A request that has put chunk i is still to record it. */
  predicate PutsIndex(s: State, r: RequestId, i: int) {
    r in s.requests && HasPut(s.requests[r].pc) && s.requests[r].index == i
  }

  predicate RecordedNow(s: State, i: int) {
    s.current.Some? && s.current.value < |s.objects| && i in s.objects[s.current.value].received
  }

  /**
   Index i counts without its chunk being sent again: a request is about to record it, or
   the session in the map has it, and another chunk's request, or one past the critical
   section, can start the merge.
   */
  ghost predicate Counts(p: Plan, s: State, i: int) {
    || (exists r :: PutsIndex(s, r, i))
    || (RecordedNow(s, i) && (|p.parts| > 1 || exists r :: BeforeMerge(s, r)))
  }

  // ---- harm ----

  /** The chunk of index i is gone, and the file is not there. */
  ghost predicate Gone(p: Plan, s: State, i: int) {
    Lasting(p, s) && !Merged(p, s) && OneLiveSession(s) && 0 <= i < |p.parts| && (p.actor, i) !in s.chunks
  }

  /** Helped by the requests of other chunks, a poised request merges without it. */
  lemma PoisedMisses(p: Plan, s: State, r: RequestId, o: ObjectId, i: int)
    requires Lasting(p, s) && !Merged(p, s) && 0 <= i < |p.parts| && (p.actor, i) !in s.chunks && Poised(s, r, o)
    requires i in s.objects[o].received || s.requests[r].index == i
    ensures MayMissASource(p, s)
  {
    var s1 := FillAll(p, s, o, {i}, r, r);
    assert (p.actor, i) !in s1.chunks.Keys;
    var s2 := Records(p, s1, r, o);
    CompletesTheSet(p, s1, r);
    var t := RacerComposes(p, s2, r, o);
    Then(p, CALM, s, s1, s2);
    Then(p, CALM, s, s2, t);
    MissesASource(p, t, r, i);
    ReachedMiss(p, s, t, r);
  }

  lemma MissingOn(p: Plan, s: State, t: State)
    requires Reaches(p, CALM, s, t) && MayMissASource(p, t)
    ensures MayMissASource(p, s)
  {
    var run, r :| Legal(t, run) && RunFollows(p, run) && CalmRun(t, run) &&
      At(After(t, run), r, Composing) && !Enabled(After(t, run), Compose(r, true));
    CalmButNothing(t, run);
    assert Leads(CALM, t, run, After(t, run));
    Then(p, CALM, s, t, After(t, run));
    ReachedMiss(p, s, After(t, run), r);
  }

  lemma MergerMisses(p: Plan, s: State, r: RequestId, i: int)
    requires Gone(p, s, i) && (At(s, r, Composing) || At(s, r, Probing))
    ensures MayMissASource(p, s)
  {
    var t := s;
    if At(s, r, Probing) { t := Probes(p, s, r); } else { Stay(p, CALM, s); }
    MissesASource(p, t, r, i);
    ReachedMiss(p, s, t, r);
  }

  /** Nobody has passed the probe. */
  ghost predicate NoMerger(s: State) {
    forall r :: !At(s, r, Composing) && !At(s, r, Probing)
  }

  /** Then the flag of the session in the map comes down. */
  lemma FreesFlag(p: Plan, s: State, o: ObjectId, i: int) returns (t: State)
    requires Gone(p, s, i) && NoMerger(s) && s.current == Some(o)
    ensures Reaches(p, CALM, s, t) && Lasting(p, t) && t == s.(requests := t.requests, objects := t.objects)
    ensures o < |t.objects| && !t.objects[o].mergeStarted && t.objects[o].received == s.objects[o].received
    ensures forall w :: w in s.requests && !s.requests[w].pc.Resetting? ==> Spared(s, t, w)
  {
    forall r | MergerOf(s, r, o) ensures s.requests[r].pc.Resetting? {
      assert !At(s, r, Composing) && !At(s, r, Probing) && !AfterCompose(s.requests[r].pc);
    }
    t := ClearsFlag(p, s, o);
  }

  lemma RacerMisses(p: Plan, s: State, r: RequestId, i: int)
    requires Gone(p, s, i) && NoMerger(s) && At(s, r, Racing)
    ensures MayMissASource(p, s)
  {
    var o := s.requests[r].obj;
    assert ActiveOn(s, r, o);
    var u := FreesFlag(p, s, o, i);
    assert Spared(s, u, r);
    var t := RacerComposes(p, u, r, o);
    Then(p, CALM, s, u, t);
    MissesASource(p, t, r, i);
    ReachedMiss(p, s, t, r);
  }

  /** A request that has put the chunk loads the session in the map, or opens one. */
  lemma LoaderMisses(p: Plan, s: State, r: RequestId, i: int)
    requires Gone(p, s, i) && NoMerger(s) && PutsIndex(s, r, i) && At(s, r, Loading)
    ensures MayMissASource(p, s)
  {
    match s.current
    case None =>
      var t := Opens(p, s, r, r + 1);
      PoisedMisses(p, t, r, |s.objects|, i);
      MissingOn(p, s, t);
    case Some(o) =>
      var u := FreesFlag(p, s, o, i);
      assert Spared(s, u, r);
      var t := Loads(p, u, r, o);
      Then(p, CALM, s, u, t);
      PoisedMisses(p, t, r, o, i);
      MissingOn(p, s, t);
  }

  /** Or holds it already. */
  lemma HolderMisses(p: Plan, s: State, r: RequestId, i: int)
    requires Gone(p, s, i) && NoMerger(s) && PutsIndex(s, r, i) && !At(s, r, Loading)
    ensures MayMissASource(p, s)
  {
    var o := s.requests[r].obj;
    assert ActiveOn(s, r, o);
    var u := FreesFlag(p, s, o, i);
    assert Spared(s, u, r);
    var t := Checks(p, u, r, o);
    Then(p, CALM, s, u, t);
    PoisedMisses(p, t, r, o, i);
    MissingOn(p, s, t);
  }

  /** A request with another chunk completes the recorded set. */
  lemma NewcomerMisses(p: Plan, s: State, i: int)
    requires Gone(p, s, i) && NoMerger(s) && RecordedNow(s, i) && |p.parts| > 1
    ensures MayMissASource(p, s)
  {
    var o := s.current.value;
    var u := FreesFlag(p, s, o, i);
    var q, t := ComesAndLoads(p, u, o, if i == 0 then 1 else 0);
    Then(p, CALM, s, u, t);
    assert (p.actor, i) !in t.chunks.Keys;
    PoisedMisses(p, t, q, o, i);
    MissingOn(p, s, t);
  }

  lemma CountedIsMissed(p: Plan, s: State, i: int)
    requires Gone(p, s, i) && Counts(p, s, i)
    ensures MayMissASource(p, s)
  {
    if r :| At(s, r, Composing) || At(s, r, Probing) {
      MergerMisses(p, s, r, i);
    } else if r :| At(s, r, Racing) {
      RacerMisses(p, s, r, i);
    } else if r :| PutsIndex(s, r, i) {
      if At(s, r, Loading) { LoaderMisses(p, s, r, i); } else { HolderMisses(p, s, r, i); }
    } else {
      assert forall r :: BeforeMerge(s, r) ==> At(s, r, Racing) || At(s, r, Probing) || At(s, r, Composing);
      NewcomerMisses(p, s, i);
    }
  }

  // ---- no harm ----

  /** What the session in the map has recorded is stored, or nobody can merge before it is stored again. */
  ghost predicate CurrentIsStored(p: Plan, s: State) {
    forall i :: RecordedNow(s, i) ==> (p.actor, i) in s.chunks || (|p.parts| == 1 && forall r :: !BeforeMerge(s, r))
  }

  ghost predicate Shielded(p: Plan, s: State) {
    Lasting(p, s) && BeforeSeesNone(p, s) && (!Merged(p, s) ==> OneLiveSession(s) && PutIsStored(s) && CurrentIsStored(p, s))
  }

  lemma BeforeMergeEntry(s: State, a: Action, r: RequestId)
    requires Enabled(s, a) && BeforeMerge(Apply(s, a), r)
    ensures BeforeMerge(s, r) || (a.Record? && a.r == r)
  {
    if Subject(a) != Some(r) { OthersKeepTheirPlace(s, a, r); }
  }

  lemma RecordedNowEntry(s: State, a: Action, i: int)
    requires Enabled(s, a) && RecordedNow(Apply(s, a), i)
    ensures RecordedNow(s, i) || (Apply(s, a).current == s.current && a.Record?)
  {
    CurrentMoves(s, a);
    ObjectsGrow(s, a);
    var o := Apply(s, a).current.value;
    if Apply(s, a).current == s.current && o < |s.objects| { ReceivedBy(s, a, o, i); }
  }

  lemma CurrentStoredStep(p: Plan, s: State, a: Action)
    requires Exact(p, s) && RefsOk(s) && s.cleaners == [] && PutIsStored(s) && CurrentIsStored(p, s) && Enabled(s, a) && Calm(s, a)
    ensures CurrentIsStored(p, Apply(s, a))
  {
    var s' := Apply(s, a);
    forall i | RecordedNow(s', i) && (p.actor, i) !in s'.chunks ensures |p.parts| == 1 && forall r :: !BeforeMerge(s', r) {
      RecordedNowEntry(s, a, i);
      if !RecordedNow(s, i) { NewlyRecordedIsStored(p, s, a, s.current.value, i); }
      if (p.actor, i) in s.chunks { ChunksStay(p, s, a, (p.actor, i)); }
      forall r ensures !BeforeMerge(s', r) {
        if BeforeMerge(s', r) {
          BeforeMergeEntry(s, a, r);
          RecorderHasStored(p, s, a, i);
        }
      }
    }
  }

  /** With one chunk, whoever records has stored it. */
  lemma RecorderHasStored(p: Plan, s: State, a: Action, i: int)
    requires Exact(p, s) && PutIsStored(s) && Enabled(s, a) && a.Record? && |p.parts| == 1 && RecordedNow(s, i)
    ensures (p.actor, i) in s.chunks
  {
    assert RequestFollows(p, s.requests[a.r]) && SessionFollows(p, s.objects[s.current.value]);
  }

  lemma ShieldedStep(p: Plan, s: State, a: Action)
    requires Shielded(p, s) && Enabled(s, a) && Calm(s, a) && Follows(p, a)
    ensures Shielded(p, Apply(s, a))
  {
    LastingStep(p, s, a);
    BeforeSeesNoneStep(p, s, a);
    if Merged(p, s) {
      MergedIsForever(p, s, a);
    } else {
      OneLiveStep(p, s, a);
      PutStoredStep(p, s, a);
      CurrentStoredStep(p, s, a);
    }
  }

  lemma {:induction false} ShieldedRun(p: Plan, s: State, run: seq<Action>)
    requires Shielded(p, s) && Legal(s, run) && RunFollows(p, run) && CalmRun(s, run)
    ensures Shielded(p, After(s, run))
    decreases |run|
  {
    if run != [] {
      ShieldedStep(p, s, run[0]);
      assert forall i :: 0 <= i < |run[1..]| ==> run[1..][i] == run[i + 1];
      ShieldedRun(p, Apply(s, run[0]), run[1..]);
    }
  }

  lemma ShieldedComposerHasItsSources(p: Plan, s: State, r: RequestId)
    requires Shielded(p, s) && At(s, r, Composing)
    ensures Enabled(s, Compose(r, true))
  {
    assert RequestFollows(p, s.requests[r]) && Counted(s, r) && ActiveOn(s, r, s.requests[r].obj);
    assert SessionFollows(p, Mine(s, r));
    Pigeonhole(Mine(s, r).received, |p.parts|);
    forall i | 0 <= i < |p.parts| ensures (p.actor, i) in s.chunks { assert RecordedNow(s, i) && BeforeMerge(s, r); }
  }

  lemma ShieldedMissesNothing(p: Plan, s: State)
    requires Shielded(p, s)
    ensures !MayMissASource(p, s)
  {
    forall run, r | Legal(s, run) && RunFollows(p, run) && CalmRun(s, run) && At(After(s, run), r, Composing)
      ensures Enabled(After(s, run), Compose(r, true))
    {
      ShieldedRun(p, s, run);
      ShieldedComposerHasItsSources(p, After(s, run), r);
    }
  }

  // ---- the exact condition ----

  lemma ExpiredIsGone(p: Plan, s: State, i: int)
    requires Good(p, s) && (p.actor, i) in s.chunks && !Merged(p, s)
    ensures Gone(p, Apply(s, ExpireChunk(p.actor, i)), i)
  {
    LastingStep(p, s, ExpireChunk(p.actor, i));
    var t := Apply(s, ExpireChunk(p.actor, i));
    forall r, o: ObjectId | ActiveOn(t, r, o) ensures t.current == Some(o) { assert ActiveOn(s, r, o); }
  }

  lemma UncountedStaysStored(p: Plan, s: State, i: int)
    requires Good(p, s) && (p.actor, i) in s.chunks && !Merged(p, s) && !Counts(p, s, i)
    ensures var t := Apply(s, ExpireChunk(p.actor, i));
      PutIsStored(t) && CurrentIsStored(p, t)
  {
    var t := Apply(s, ExpireChunk(p.actor, i));
    forall r | r in t.requests && HasPut(t.requests[r].pc) ensures (t.requests[r].actor, t.requests[r].index) in t.chunks {
      assert !PutsIndex(s, r, i);
    }
    forall j | RecordedNow(t, j) && (p.actor, j) !in t.chunks ensures |p.parts| == 1 && forall r :: !BeforeMerge(t, r) {
      assert j == i && RecordedNow(s, i);
      forall r ensures !BeforeMerge(t, r) { assert !BeforeMerge(s, r); }
    }
  }

  lemma UncountedIsShielded(p: Plan, s: State, i: int)
    requires Good(p, s) && (p.actor, i) in s.chunks && (Merged(p, s) || !Counts(p, s, i))
    ensures Shielded(p, Apply(s, ExpireChunk(p.actor, i)))
  {
    LastingStep(p, s, ExpireChunk(p.actor, i));
    if !Merged(p, s) {
      ExpiredIsGone(p, s, i);
      UncountedStaysStored(p, s, i);
    }
  }

  lemma ExpiryKeepsCounts(p: Plan, s: State, i: int)
    requires (p.actor, i) in s.chunks && Counts(p, s, i)
    ensures Counts(p, Apply(s, ExpireChunk(p.actor, i)), i)
  {
    var t := Apply(s, ExpireChunk(p.actor, i));
    if r :| PutsIndex(s, r, i) {
      assert PutsIndex(t, r, i);
    } else {
      assert RecordedNow(t, i);
      if r :| BeforeMerge(s, r) { assert BeforeMerge(t, r); }
    }
  }

  /**
   In a calm protocol the bucket expires a stored chunk, and all else stays calm: a compose
   may miss a source exactly when the file is not there yet and the index counts without
   its chunk being sent again.
   */
  lemma {:induction false} ExpiryLosesAChunkIff(p: Plan, s: State, i: int)
    requires Good(p, s) && (p.actor, i) in s.chunks
    ensures MayMissASource(p, Apply(s, ExpireChunk(p.actor, i))) <==> !Merged(p, s) && Counts(p, s, i)
  {
    var t := Apply(s, ExpireChunk(p.actor, i));
    if !Merged(p, s) && Counts(p, s, i) {
      ExpiredIsGone(p, s, i);
      ExpiryKeepsCounts(p, s, i);
      CountedIsMissed(p, t, i);
    } else {
      UncountedIsShielded(p, s, i);
      ShieldedMissesNothing(p, t);
    }
  }
}
