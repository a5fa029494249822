/**
 Exactness of the final object. All requests on the session id belong to one
 upload plan: one actor, one number of chunks, one payload per index. Nothing is
 assumed about order, overlap, failures, retries, cleanup, eviction or expiry.
 */
module UploadExactness {
  import opened Prelude
  import opened UploadProtocol
  import opened UploadSafety

  /** One file cut into chunks by one caller. */
  datatype Plan = Plan(actor: Actor, parts: seq<Bytes>)

  predicate Follows(p: Plan, a: Action) {
    a.Arrive? ==>
      a.actor == p.actor && a.total == |p.parts| &&
      (0 <= a.index < |p.parts| ==> a.data == p.parts[a.index])
  }

  predicate RunFollows(p: Plan, run: seq<Action>) {
    forall i :: 0 <= i < |run| ==> Follows(p, run[i])
  }

  function Concat(parts: seq<Bytes>): Bytes {
    if parts == [] then [] else Concat(parts[..|parts| - 1]) + parts[|parts| - 1]
  }

  /** The indices 0..n-1. */
  function Indices(n: int): (r: set<int>)
    ensures forall i :: i in r <==> 0 <= i < n
  {
    if n <= 0 then {} else Indices(n - 1) + {n - 1}
  }

  // ---- pigeonhole ----

  lemma {:induction false} IndicesCard(n: nat)
    ensures |Indices(n)| == n
  {
    if n > 0 {
      IndicesCard(n - 1);
    }
  }

  lemma {:induction false} SubsetCard(a: set<int>, b: set<int>)
    requires a <= b
    ensures |a| <= |b| && (|a| == |b| ==> a == b)
  {
    assert b == a + (b - a);
    assert |b| == |a| + |b - a|;
  }

  lemma Pigeonhole(received: set<int>, n: nat)
    requires received <= Indices(n) && |received| >= n
    ensures received == Indices(n)
  {
    IndicesCard(n);
    SubsetCard(received, Indices(n));
  }

  // ---- the invariant ----

  predicate RequestFollows(p: Plan, q: Request) {
    q.pc == Finished(Rejected) ||
    (q.actor == p.actor && q.total == |p.parts| && 0 <= q.index < |p.parts| && q.data == p.parts[q.index])
  }

  predicate SessionFollows(p: Plan, o: Session) {
    o.total == |p.parts| && o.received <= Indices(|p.parts|)
  }

  ghost predicate ChunksFollow(p: Plan, chunks: map<(Actor, int), Bytes>) {
    forall k :: k in chunks ==> k.0 == p.actor && 0 <= k.1 < |p.parts| && chunks[k] == p.parts[k.1]
  }

  ghost predicate FinalsFollow(p: Plan, finals: map<Actor, Bytes>) {
    forall a :: a in finals ==> a == p.actor && finals[a] == Concat(p.parts)
  }

  ghost predicate CleanersFollow(p: Plan, s: State) {
    forall c :: 0 <= c < |s.cleaners| ==> s.cleaners[c].actor == p.actor && s.cleaners[c].total == |p.parts|
  }

  predicate Counted(s: State, r: RequestId) {
    r in s.requests && (s.requests[r].pc.Racing? || s.requests[r].pc.Waiting? || Merging(s.requests[r].pc))
  }

  /** Past the critical section a request knows its session is full. */
  ghost predicate FullOnceCounted(s: State) {
    forall r :: Counted(s, r) ==> s.requests[r].obj < |s.objects| && Full(s.objects[s.requests[r].obj])
  }

  ghost predicate Exact(p: Plan, s: State) {
    && (forall r :: r in s.requests ==> RequestFollows(p, s.requests[r]))
    && (forall o :: 0 <= o < |s.objects| ==> SessionFollows(p, s.objects[o]))
    && ChunksFollow(p, s.chunks)
    && FinalsFollow(p, s.finals)
    && CleanersFollow(p, s)
    && FullOnceCounted(s)
  }

  lemma {:induction false} JoinedPrefix(p: Plan, chunks: map<(Actor, int), Bytes>, n: nat)
    requires ChunksFollow(p, chunks) && n <= |p.parts|
    requires forall i :: 0 <= i < n ==> (p.actor, i) in chunks
    ensures Joined(chunks, p.actor, n) == Concat(p.parts[..n])
  {
    if n > 0 {
      JoinedPrefix(p, chunks, n - 1);
      assert p.parts[..n][..n - 1] == p.parts[..n - 1];
    }
  }

  lemma ExactRequests(p: Plan, s: State, a: Action)
    requires Exact(p, s) && Enabled(s, a) && Follows(p, a)
    ensures forall r :: r in Apply(s, a).requests ==> RequestFollows(p, Apply(s, a).requests[r])
  {
    forall r | r in Apply(s, a).requests ensures RequestFollows(p, Apply(s, a).requests[r]) {
      if Subject(a) != Some(r) { OthersKeepTheirPlace(s, a, r); }
    }
  }

  lemma ExactSessions(p: Plan, s: State, a: Action)
    requires Exact(p, s) && RefsOk(s) && Enabled(s, a)
    ensures forall o :: 0 <= o < |Apply(s, a).objects| ==> SessionFollows(p, Apply(s, a).objects[o])
  {
  }

  lemma ExactChunks(p: Plan, s: State, a: Action)
    requires Exact(p, s) && Enabled(s, a)
    ensures ChunksFollow(p, Apply(s, a).chunks)
  {
    if ComingAction(a) {
      if a.Put? { PutFollows(p, s, a); } else { ComingFrame(s, a); }
    } else if MergeAction(a) {
      MergingFrame(s, a);
    } else if !a.RemoveChunk? && !a.ExpireChunk? {
      RestFrame(s, a);
    }
  }

  lemma PutFollows(p: Plan, s: State, a: Action)
    requires Exact(p, s) && Enabled(s, a) && a.Put?
    ensures ChunksFollow(p, Apply(s, a).chunks)
  {
    assert RequestFollows(p, s.requests[a.r]);
  }

  lemma ComposeFollows(p: Plan, s: State, a: Action)
    requires Exact(p, s) && Enabled(s, a) && a.Compose?
    ensures FinalsFollow(p, Apply(s, a).finals)
  {
    if a.ok {
      JoinedPrefix(p, s.chunks, |p.parts|);
      assert p.parts[..|p.parts|] == p.parts;
    }
  }

  lemma ExactFinals(p: Plan, s: State, a: Action)
    requires Exact(p, s) && Enabled(s, a)
    ensures FinalsFollow(p, Apply(s, a).finals)
  {
    if ComingAction(a) {
      ComingFrame(s, a);
    } else if MergeAction(a) {
      if a.Compose? { ComposeFollows(p, s, a); } else { MergingFrame(s, a); }
    } else {
      RestFrame(s, a);
    }
  }

  lemma CleanupFollows(p: Plan, s: State, a: Action)
    requires Exact(p, s) && Enabled(s, a) && (a.ScheduleCleanup? || a.RemoveChunk? || a.ForgetSession?)
    ensures CleanersFollow(p, Apply(s, a))
  {
  }

  lemma ExactCleaners(p: Plan, s: State, a: Action)
    requires Exact(p, s) && Enabled(s, a)
    ensures CleanersFollow(p, Apply(s, a))
  {
    if a.ScheduleCleanup? || a.RemoveChunk? || a.ForgetSession? {
      CleanupFollows(p, s, a);
    } else if ComingAction(a) {
      ComingFrame(s, a);
    } else if MergeAction(a) {
      MergingFrame(s, a);
    } else {
      RestFrame(s, a);
    }
  }

  lemma FullKept(s: State, a: Action, o: ObjectId)
    requires RefsOk(s) && Enabled(s, a) && o < |s.objects| && Full(s.objects[o])
    ensures o < |Apply(s, a).objects| && Full(Apply(s, a).objects[o])
  {
    if a.Record? {
      CardinalityGrows(Mine(s, a.r).received, s.requests[a.r].index);
    }
  }

  /** A request is counted past the critical section only if it was, or if it just saw a full count. */
  lemma CountedBefore(s: State, a: Action, r: RequestId)
    requires RefsOk(s) && Enabled(s, a) && Counted(Apply(s, a), r)
    ensures var s' := Apply(s, a);
      || (Counted(s, r) && s'.requests[r].obj == s.requests[r].obj)
      || (a == Record(r) && s'.requests[r].obj < |s'.objects| && Full(s'.objects[s'.requests[r].obj]))
  {
    if Subject(a) != Some(r) { OthersKeepTheirPlace(s, a, r); }
  }

  lemma FullStays(s: State, a: Action)
    requires RefsOk(s) && FullOnceCounted(s) && Enabled(s, a)
    ensures FullOnceCounted(Apply(s, a))
  {
    var s' := Apply(s, a);
    forall r | Counted(s', r)
      ensures s'.requests[r].obj < |s'.objects| && Full(s'.objects[s'.requests[r].obj])
    {
      CountedBefore(s, a, r);
      if Counted(s, r) && s'.requests[r].obj == s.requests[r].obj {
        FullKept(s, a, s.requests[r].obj);
      }
    }
  }

  lemma ExactStep(p: Plan, s: State, a: Action)
    requires Exact(p, s) && Safe(s) && Enabled(s, a) && Follows(p, a)
    ensures Exact(p, Apply(s, a))
  {
    ExactRequests(p, s, a);
    ExactSessions(p, s, a);
    ExactChunks(p, s, a);
    ExactFinals(p, s, a);
    ExactCleaners(p, s, a);
    FullStays(s, a);
  }

  lemma {:induction false} ExactRun(p: Plan, s: State, run: seq<Action>)
    requires Exact(p, s) && Safe(s) && Legal(s, run) && RunFollows(p, run)
    ensures Exact(p, After(s, run)) && Safe(After(s, run))
    decreases |run|
  {
    if run != [] {
      ExactStep(p, s, run[0]);
      SafeStep(s, run[0]);
      assert forall i :: 0 <= i < |run[1..]| ==> run[1..][i] == run[i + 1];
      ExactRun(p, Apply(s, run[0]), run[1..]);
    }
  }

  // ---- main results ----

  /** In every reachable state the final object, if present, is the file. */
  lemma FinalObjectIsTheFile(p: Plan, run: seq<Action>)
    requires Legal(Start, run) && RunFollows(p, run)
    ensures forall a :: a in After(Start, run).finals ==> a == p.actor && After(Start, run).finals[a] == Concat(p.parts)
  {
    ExactRun(p, Start, run);
  }

  /** Whoever races for the flag or merges has seen exactly the indices 0..total-1. */
  lemma MergersSawEveryChunk(p: Plan, run: seq<Action>, r: RequestId)
    requires Legal(Start, run) && RunFollows(p, run)
    requires var s := After(Start, run);
      r in s.requests && (s.requests[r].pc.Racing? || Merging(s.requests[r].pc))
    ensures var s := After(Start, run);
      s.requests[r].obj < |s.objects| && Mine(s, r).received == Indices(|p.parts|)
  {
    ExactRun(p, Start, run);
    Pigeonhole(Mine(After(Start, run), r).received, |p.parts|);
  }
}
