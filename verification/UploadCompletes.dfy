/**
 The upload can always be completed. Whatever has failed, been evicted, expired or been
 answered wrongly, from every state without the file some calm future puts it in place and
 finalizes it: the caller sends the chunks again, a running merge goes on, a failed one is
 retried, or a fresh session is filled (internal/service/upload/upload_service.go:120-276).
 The chunk-0 gate admits the new requests of these futures.
 */
module UploadCompletes {
  import opened Prelude
  import opened UploadProtocol
  import opened UploadSafety
  import opened UploadExactness
  import opened UploadCalm
  import opened UploadRuns
  import opened UploadFill

  // ---- the chunks are sent again ----

  ghost predicate StoredBelow(p: Plan, chunks: map<(Actor, int), Bytes>, n: nat) {
    forall i :: 0 <= i < n ==> (p.actor, i) in chunks.Keys
  }

  lemma StoredToo(p: Plan, before: map<(Actor, int), Bytes>, after: map<(Actor, int), Bytes>, n: nat)
    requires StoredBelow(p, before, n) && after.Keys == before.Keys + {(p.actor, n)}
    ensures StoredBelow(p, after, n + 1)
  {
  }

  /** New requests store chunks 0..n-1. */
  lemma {:induction false} Resends(p: Plan, s: State, n: nat) returns (t: State)
    requires Lasting(p, s) && n <= |p.parts|
    ensures Reaches(p, CALM, s, t) && Lasting(p, t) && t.finals == s.finals && StoredBelow(p, t.chunks, n)
  {
    if n == 0 {
      Stay(p, CALM, s);
      t := s;
    } else {
      var u := Resends(p, s, n - 1);
      var q;
      q, t := Comes(p, u, n - 1);
      Then(p, CALM, s, u, t);
      StoredToo(p, u.chunks, t.chunks, n - 1);
    }
  }

  lemma AllStoredIsStocked(p: Plan, s: State)
    requires Lasting(p, s) && StoredBelow(p, s.chunks, |p.parts|)
    ensures Stocked(p, s)
  {
    forall o, i | 0 <= o < |s.objects| && i in s.objects[o].received ensures (p.actor, i) in s.chunks {
      assert SessionFollows(p, s.objects[o]);
    }
    forall r | r in s.requests && HasPut(s.requests[r].pc) ensures (s.requests[r].actor, s.requests[r].index) in s.chunks {
      assert RequestFollows(p, s.requests[r]);
    }
  }

  // ---- somebody merges ----

  /** A request under way to the compose goes on. */
  lemma MergerGoesOn(p: Plan, s: State, r: RequestId) returns (t: State)
    requires Stocked(p, s) && !Merged(p, s) && (At(s, r, Composing) || Holding(s, r, Probing))
    ensures Reaches(p, CALM, s, t) && Booked(p, s, t, r)
  {
    var u;
    if At(s, r, Composing) { u := Composes(p, s, r); } else { u := Merges(p, s, r, r + 1); }
    t := Books(p, u, r, r + 1);
    Then(p, CALM, s, u, t);
  }

  /** Without one, a new request merges the session in the map, or opens one. */
  lemma NewcomerMerges(p: Plan, s: State) returns (r: RequestId, t: State)
    requires Stocked(p, s) && !Merged(p, s) && p.parts != []
    requires forall r, o :: MergerOf(s, r, o) ==> s.requests[r].pc.Resetting?
    ensures Reaches(p, CALM, s, t) && Booked(p, s, t, r)
  {
    var s1, s2;
    match s.current
    case None =>
      r, s1 := Comes(p, s, 0);
      s2 := Opens(p, s1, r, r + 1);
      Then(p, CALM, s, s1, s2);
      StaysStocked(p, s, s2);
      t := PoisedFinalizes(p, s2, r, |s1.objects|, r + 1);
      Then(p, CALM, s, s2, t);
    case Some(o) =>
      s1 := ClearsFlag(p, s, o);
      r, s2 := ComesAndLoads(p, s1, o, 0);
      Then(p, CALM, s, s1, s2);
      StaysStocked(p, s, s2);
      t := PoisedFinalizes(p, s2, r, o, r + 1);
      Then(p, CALM, s, s2, t);
  }

  lemma StockedCompletes(p: Plan, s: State) returns (r: RequestId, t: State)
    requires Stocked(p, s) && !Merged(p, s) && p.parts != []
    ensures Reaches(p, CALM, s, t) && Booked(p, s, t, r)
  {
    if r' :| At(s, r', Composing) || At(s, r', Probing) {
      r := r';
      t := MergerGoesOn(p, s, r);
    } else {
      forall r, o | MergerOf(s, r, o) ensures s.requests[r].pc.Resetting? {
        assert !AfterCompose(s.requests[r].pc) && !At(s, r, Composing) && !At(s, r, Probing);
      }
      r, t := NewcomerMerges(p, s);
    }
  }

  // ---- main results ----

  /** Some calm future has the file in place, finalized once. */
  ghost predicate CanComplete(p: Plan, s: State) {
    exists run :: Legal(s, run) && RunFollows(p, run) && CalmRun(s, run) &&
      p.actor in After(s, run).finals && After(s, run).finals[p.actor] == Concat(p.parts) && After(s, run).finalized == 1
  }

  lemma {:induction false} NothingToUpload(p: Plan, s: State, run: seq<Action>)
    requires Lasting(p, s) && !Merged(p, s) && p.parts == [] && Legal(s, run) && RunFollows(p, run)
    ensures !Merged(p, After(s, run))
    decreases |run|
  {
    if run != [] {
      var a := run[0];
      LastingStep(p, s, a);
      if Merged(p, Apply(s, a)) { OnlyComposeMerges(p, s, a); }
      assert forall i :: 0 <= i < |run[1..]| ==> run[1..][i] == run[i + 1];
      NothingToUpload(p, Apply(s, a), run[1..]);
    }
  }

  lemma LastingCompletes(p: Plan, s: State)
    requires Lasting(p, s) && !Merged(p, s) && p.parts != []
    ensures CanComplete(p, s)
  {
    var u := Resends(p, s, |p.parts|);
    AllStoredIsStocked(p, u);
    var r, t := StockedCompletes(p, u);
    Then(p, CALM, s, u, t);
    BookedIsComplete(p, s, u, t, r);
  }

  lemma BookedIsComplete(p: Plan, s: State, u: State, t: State, r: RequestId)
    requires Lasting(p, s) && Lasting(p, u) && !Merged(p, u) && Reaches(p, CALM, s, t) && Booked(p, u, t, r)
    ensures CanComplete(p, s)
  {
    var run := CalmRunOf(p, CALM, s, t);
    LastingRun(p, s, run);
  }

  /** From every state a run of the plan may leave without the file, the upload can be completed exactly when there is something to upload. */
  lemma {:induction false} CompletesIff(p: Plan, s: State)
    requires Lasting(p, s) && !Merged(p, s)
    ensures CanComplete(p, s) <==> p.parts != []
  {
    if p.parts == [] {
      forall run | Legal(s, run) && RunFollows(p, run) ensures !Merged(p, After(s, run)) { NothingToUpload(p, s, run); }
    } else {
      LastingCompletes(p, s);
    }
  }

  /** After every run of the plan, whatever lapsed in it: the file is in place, or a calm future completes the upload. */
  lemma {:induction false} EveryUploadCanComplete(p: Plan, run: seq<Action>)
    requires Legal(Start, run) && RunFollows(p, run) && p.parts != []
    ensures Merged(p, After(Start, run)) || CanComplete(p, After(Start, run))
  {
    LastingRun(p, Start, run);
    if !Merged(p, After(Start, run)) { CompletesIff(p, After(Start, run)); }
  }
}
