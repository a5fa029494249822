/**
 The chunked-upload merge protocol of one session id as an interleaved step
 relation (internal/service/upload/upload_service.go:120-313).

 Any number of chunk requests run at once. Each has a program counter, the
 session object it loaded, and its own metadata. One `Action` is one atomic step
 of one request, of a cleanup goroutine, of the janitor or of the bucket.
 Everything the environment decides (a store call failing, an `Exists` error
 read as "absent", a timeout firing) is a parameter of the action.
 */
module UploadProtocol {
  import opened Prelude

  type Bytes = seq<int>
  type RequestId = nat
  type ObjectId = nat
  type Actor = nat

  /** What a finished chunk request tells its caller about the merge. */
  datatype ChunkResult = ChunkResult(chunkIndex: int, totalChunks: int)

  datatype Reply =
    | Rejected                      // structural validation or the chunk-0 gate
    | Failed                        // the store failed while putting or composing
    | Incomplete                    // "stored, more chunks to come" or the wait timed out
    | AlreadyThere                  // a new session found the final object in place
    | MergedAs(result: ChunkResult) // this request merged
    | WokenWith(result: ChunkResult) // this request waited for the merge

  /** Where a request stands; the comment is the call it is about to make. */
  datatype Pc =
    | Putting        // store.Put of the chunk
    | Loading        // sessions.LoadOrStore
    | Checking       // store.Exists of the final object, new sessions only
    | Dropping       // sessions.Delete after a positive check
    | Recording      // the critical section: add the index, read the count
    | Racing         // mergeStarted.CompareAndSwap(false, true)
    | Probing        // finalize: store.Exists of the final object
    | Composing      // finalize: store.Compose
    | Logging        // finalize: repo.SaveLog
    | Counting       // finalize: repo.IncrementUsage
    | Scheduling     // finalize: go cleanup, then return
    | Publishing     // st.result = result
    | Closing        // close(st.done)
    | Resetting      // mergeStarted.Store(false) after a failed merge
    | Waiting        // select on st.done and the timer
    | Finished(reply: Reply)

  datatype Request = Request(actor: Actor, index: int, total: int, data: Bytes, pc: Pc, obj: ObjectId)

  /** A session object. `merges`, `failures` and `closes` are history counters no step reads. */
  datatype Session = Session(
    total: int,
    received: set<int>,
    mergeStarted: bool,
    doneClosed: bool,
    result: Option<ChunkResult>,
    merges: nat,
    failures: nat,
    closes: nat)

  /** A cleanup goroutine: the chunks 0..total-1 it removes, how far it got, whether it still runs. */
  datatype Cleaner = Cleaner(actor: Actor, total: int, next: int, running: bool)

  datatype State = State(
    requests: map<RequestId, Request>,
    objects: seq<Session>,          // every session object ever created for this id
    current: Option<ObjectId>,      // the entry of the sessions map for this id
    chunks: map<(Actor, int), Bytes>,
    finals: map<Actor, Bytes>,
    cleaners: seq<Cleaner>,
    logs: nat,                      // rows SaveLog appended
    increments: nat,                // IncrementUsage calls that succeeded
    finalized: nat)                 // finalize calls that returned without error

  const Start := State(map[], [], None, map[], map[], [], 0, 0, 0)

  datatype Action =
    | Arrive(r: RequestId, actor: Actor, index: int, total: int, data: Bytes, gate: bool)
    | Put(r: RequestId, ok: bool)
    | LoadOrStore(r: RequestId)
    | CheckFinal(r: RequestId, answer: bool)
    | DropSession(r: RequestId)
    | Record(r: RequestId)
    | CompareAndSwap(r: RequestId)
    | ProbeFinal(r: RequestId, answer: bool)
    | Compose(r: RequestId, ok: bool)
    | SaveLog(r: RequestId, ok: bool)
    | IncrementUsage(r: RequestId, ok: bool)
    | ScheduleCleanup(r: RequestId)
    | Publish(r: RequestId)
    | Close(r: RequestId)
    | ResetFlag(r: RequestId)
    | Wake(r: RequestId)
    | Timeout(r: RequestId)
    | RemoveChunk(c: nat, ok: bool)
    | ForgetSession(c: nat)
    | Evict
    | ExpireChunk(actor: Actor, index: int)

  function FreshSession(total: int): Session {
    Session(total, {}, false, false, None, 0, 0, 0)
  }

  /** The object Compose writes: the chunks 0..n-1 of an actor, in order. */
  function Joined(chunks: map<(Actor, int), Bytes>, actor: Actor, n: int): Bytes
    requires forall i :: 0 <= i < n ==> (actor, i) in chunks
    decreases n
  {
    if n <= 0 then [] else Joined(chunks, actor, n - 1) + chunks[(actor, n - 1)]
  }

  predicate SourcesPresent(s: State, actor: Actor, n: int) {
    forall i :: 0 <= i < n ==> (actor, i) in s.chunks
  }

  predicate At(s: State, r: RequestId, pc: Pc) {
    r in s.requests && s.requests[r].pc == pc
  }

  /** At `pc` holding a session object that exists. */
  predicate Holding(s: State, r: RequestId, pc: Pc) {
    At(s, r, pc) && s.requests[r].obj < |s.objects|
  }

  predicate Enabled(s: State, a: Action) {
    match a
    case Arrive(r, _, _, _, _, _) => r !in s.requests
    case Put(r, _) => At(s, r, Putting)
    case LoadOrStore(r) => At(s, r, Loading)
    case CheckFinal(r, answer) =>
      // an `Exists` error reads as false, so only a positive answer is trustworthy
      Holding(s, r, Checking) && (answer ==> s.requests[r].actor in s.finals)
    case DropSession(r) => At(s, r, Dropping)
    case Record(r) => Holding(s, r, Recording)
    case CompareAndSwap(r) => Holding(s, r, Racing)
    case ProbeFinal(r, answer) =>
      Holding(s, r, Probing) && (answer ==> s.requests[r].actor in s.finals)
    case Compose(r, ok) =>
      Holding(s, r, Composing) &&
      (ok ==> SourcesPresent(s, s.requests[r].actor, s.objects[s.requests[r].obj].total))
    case SaveLog(r, _) => Holding(s, r, Logging)
    case IncrementUsage(r, _) => Holding(s, r, Counting)
    case ScheduleCleanup(r) => Holding(s, r, Scheduling)
    case Publish(r) => Holding(s, r, Publishing)
    case Close(r) => Holding(s, r, Closing)
    case ResetFlag(r) => Holding(s, r, Resetting)
    case Wake(r) =>
      Holding(s, r, Waiting) &&
      var o := s.objects[s.requests[r].obj];
      o.doneClosed && o.result.Some?
    case Timeout(r) => Holding(s, r, Waiting)
    case RemoveChunk(c, _) => c < |s.cleaners| && s.cleaners[c].running && s.cleaners[c].next < s.cleaners[c].total
    case ForgetSession(c) => c < |s.cleaners| && s.cleaners[c].running && s.cleaners[c].next >= s.cleaners[c].total
    case Evict => s.current.Some?
    case ExpireChunk(actor, index) => (actor, index) in s.chunks
  }

  function Goto(s: State, r: RequestId, pc: Pc): State
    requires r in s.requests
  {
    s.(requests := s.requests[r := s.requests[r].(pc := pc)])
  }

  function SetObject(s: State, o: ObjectId, x: Session): State
    requires o < |s.objects|
  {
    s.(objects := s.objects[o := x])
  }

  function Mine(s: State, r: RequestId): Session
    requires r in s.requests && s.requests[r].obj < |s.objects|
  {
    s.objects[s.requests[r].obj]
  }

  function DoArrive(s: State, r: RequestId, actor: Actor, index: int, total: int, data: Bytes, gate: bool): State {
    var pc :=
      if total <= 0 || index < 0 || index >= total then Finished(Rejected)
      else if index == 0 && !gate then Finished(Rejected)
      else Putting;
    s.(requests := s.requests[r := Request(actor, index, total, data, pc, 0)])
  }

  function DoPut(s: State, r: RequestId, ok: bool): State
    requires r in s.requests
  {
    var q := s.requests[r];
    if ok then Goto(s, r, Loading).(chunks := s.chunks[(q.actor, q.index) := q.data])
    else Goto(s, r, Finished(Failed))
  }

  function DoLoadOrStore(s: State, r: RequestId): State
    requires r in s.requests
  {
    var q := s.requests[r];
    match s.current
    case Some(o) => s.(requests := s.requests[r := q.(pc := Recording, obj := o)])
    case None =>
      s.(requests := s.requests[r := q.(pc := Checking, obj := |s.objects|)],
         objects := s.objects + [FreshSession(q.total)],
         current := Some(|s.objects|))
  }

  function DoRecord(s: State, r: RequestId): State
    requires r in s.requests && s.requests[r].obj < |s.objects|
  {
    var q := s.requests[r];
    var o := Mine(s, r);
    var received := o.received + {q.index};
    Goto(SetObject(s, q.obj, o.(received := received)), r,
         if |received| < o.total then Finished(Incomplete) else Racing)
  }

  function DoCompareAndSwap(s: State, r: RequestId): State
    requires r in s.requests && s.requests[r].obj < |s.objects|
  {
    var o := Mine(s, r);
    if o.mergeStarted then Goto(s, r, Waiting)
    else Goto(SetObject(s, s.requests[r].obj, o.(mergeStarted := true)), r, Probing)
  }

  function DoCompose(s: State, r: RequestId, ok: bool): State
    requires r in s.requests && s.requests[r].obj < |s.objects|
    requires ok ==> SourcesPresent(s, s.requests[r].actor, Mine(s, r).total)
  {
    var q := s.requests[r];
    if ok then
      Goto(s, r, Logging).(finals := s.finals[q.actor := Joined(s.chunks, q.actor, Mine(s, r).total)])
    else Goto(s, r, Resetting)
  }

  function DoScheduleCleanup(s: State, r: RequestId): State
    requires r in s.requests && s.requests[r].obj < |s.objects|
  {
    var q := s.requests[r];
    var o := Mine(s, r);
    Goto(SetObject(s, q.obj, o.(merges := o.merges + 1)), r, Publishing)
      .(cleaners := s.cleaners + [Cleaner(q.actor, o.total, 0, true)], finalized := s.finalized + 1)
  }

  function DoClose(s: State, r: RequestId): State
    requires r in s.requests && s.requests[r].obj < |s.objects|
  {
    var q := s.requests[r];
    var o := Mine(s, r);
    Goto(SetObject(s, q.obj, o.(doneClosed := true, closes := o.closes + 1)), r,
         Finished(MergedAs(ChunkResult(q.index, q.total))))
  }

  function DoRemoveChunk(s: State, c: nat, ok: bool): State
    requires c < |s.cleaners|
  {
    var k := s.cleaners[c];
    // Remove stops at the first error; the session entry is deleted either way
    if ok then s.(chunks := s.chunks - {(k.actor, k.next)}, cleaners := s.cleaners[c := k.(next := k.next + 1)])
    else s.(cleaners := s.cleaners[c := k.(next := k.total)])
  }

  function Apply(s: State, a: Action): State
    requires Enabled(s, a)
  {
    match a
    case Arrive(r, actor, index, total, data, gate) => DoArrive(s, r, actor, index, total, data, gate)
    case Put(r, ok) => DoPut(s, r, ok)
    case LoadOrStore(r) => DoLoadOrStore(s, r)
    case CheckFinal(r, answer) => Goto(s, r, if answer then Dropping else Recording)
    case DropSession(r) => Goto(s, r, Finished(AlreadyThere)).(current := None)
    case Record(r) => DoRecord(s, r)
    case CompareAndSwap(r) => DoCompareAndSwap(s, r)
    case ProbeFinal(r, answer) => Goto(s, r, if answer then Logging else Composing)
    case Compose(r, ok) => DoCompose(s, r, ok)
    case SaveLog(r, ok) => Goto(s, r, Counting).(logs := s.logs + if ok then 1 else 0)
    case IncrementUsage(r, ok) => Goto(s, r, Scheduling).(increments := s.increments + if ok then 1 else 0)
    case ScheduleCleanup(r) => DoScheduleCleanup(s, r)
    case Publish(r) =>
      var q := s.requests[r];
      Goto(SetObject(s, q.obj, Mine(s, r).(result := Some(ChunkResult(q.index, q.total)))), r, Closing)
    case Close(r) => DoClose(s, r)
    case ResetFlag(r) =>
      var o := Mine(s, r);
      Goto(SetObject(s, s.requests[r].obj, o.(mergeStarted := false, failures := o.failures + 1)), r, Finished(Failed))
    case Wake(r) => Goto(s, r, Finished(WokenWith(Mine(s, r).result.value)))
    case Timeout(r) => Goto(s, r, Finished(Incomplete))
    case RemoveChunk(c, ok) => DoRemoveChunk(s, c, ok)
    case ForgetSession(c) => s.(current := None, cleaners := s.cleaners[c := s.cleaners[c].(running := false)])
    case Evict => s.(current := None)
    case ExpireChunk(actor, index) => s.(chunks := s.chunks - {(actor, index)})
  }

  /** The request whose step the action is; None for a cleanup goroutine, the janitor or the bucket. */
  function Subject(a: Action): Option<RequestId> {
    if a.RemoveChunk? || a.ForgetSession? || a.Evict? || a.ExpireChunk? then None else Some(a.r)
  }

  // ---- what a step leaves alone, by kind of step ----

  /** From arrival to the count. */
  predicate ComingAction(a: Action) {
    a.Arrive? || a.Put? || a.LoadOrStore? || a.CheckFinal? || a.DropSession? || a.Record?
  }

  /** The merging branch: from winning the flag to giving it back or closing. */
  predicate MergeAction(a: Action) {
    a.CompareAndSwap? || a.ProbeFinal? || a.Compose? || a.SaveLog? || a.IncrementUsage? ||
    a.ScheduleCleanup? || a.Publish? || a.Close? || a.ResetFlag?
  }

  lemma OthersKeepWhileComing(s: State, a: Action, r: RequestId)
    requires Enabled(s, a) && ComingAction(a) && a.r != r
    ensures r in Apply(s, a).requests <==> r in s.requests
    ensures r in s.requests ==> Apply(s, a).requests[r] == s.requests[r]
  {
  }

  lemma OthersKeepWhileMerging(s: State, a: Action, r: RequestId)
    requires Enabled(s, a) && MergeAction(a) && a.r != r
    ensures r in Apply(s, a).requests <==> r in s.requests
    ensures r in s.requests ==> Apply(s, a).requests[r] == s.requests[r]
  {
  }

  /** A step moves its own request only. */
  lemma OthersKeepTheirPlace(s: State, a: Action, r: RequestId)
    requires Enabled(s, a) && Subject(a) != Some(r)
    ensures r in Apply(s, a).requests <==> r in s.requests
    ensures r in s.requests ==> Apply(s, a).requests[r] == s.requests[r]
  {
    if ComingAction(a) {
      OthersKeepWhileComing(s, a, r);
    } else if MergeAction(a) {
      OthersKeepWhileMerging(s, a, r);
    }
  }

  /** A step changes no session object but its own request's. */
  lemma OtherObjectsKeep(s: State, a: Action, o: ObjectId)
    requires Enabled(s, a) && o < |s.objects|
    requires Subject(a).Some? && Subject(a).value in s.requests ==> s.requests[Subject(a).value].obj != o
    ensures o < |Apply(s, a).objects| && Apply(s, a).objects[o] == s.objects[o]
  {
  }

  lemma CountsFrame(s: State, a: Action)
    requires Enabled(s, a) && !a.ScheduleCleanup? && !a.SaveLog? && !a.IncrementUsage?
    ensures Apply(s, a).finalized == s.finalized && Apply(s, a).logs == s.logs && Apply(s, a).increments == s.increments
  {
  }

  lemma FinalizedFrame(s: State, a: Action)
    requires Enabled(s, a) && !a.ScheduleCleanup?
    ensures Apply(s, a).finalized == s.finalized
  {
    if !a.SaveLog? && !a.IncrementUsage? { CountsFrame(s, a); }
  }

  lemma CounterFrameMerging(s: State, a: Action, o: ObjectId)
    requires Enabled(s, a) && MergeAction(a) && !a.ScheduleCleanup? && o < |s.objects|
    ensures o < |Apply(s, a).objects| && Apply(s, a).objects[o].merges == s.objects[o].merges
  {
  }

  lemma FlagFrameMerging(s: State, a: Action, o: ObjectId)
    requires Enabled(s, a) && MergeAction(a) && !a.CompareAndSwap? && !a.ResetFlag? && o < |s.objects|
    ensures o < |Apply(s, a).objects| && Apply(s, a).objects[o].mergeStarted == s.objects[o].mergeStarted
  {
  }

  /** Only ScheduleCleanup counts a merge, only SaveLog and IncrementUsage write the books, only CompareAndSwap and ResetFlag move a flag. */
  lemma CounterFrame(s: State, a: Action, o: ObjectId)
    requires Enabled(s, a) && o < |s.objects|
    ensures var s' := Apply(s, a);
      && o < |s'.objects|
      && (a.ScheduleCleanup? || (s'.finalized == s.finalized && s'.objects[o].merges == s.objects[o].merges))
      && (a.CompareAndSwap? || a.ResetFlag? || s'.objects[o].mergeStarted == s.objects[o].mergeStarted)
  {
    if !a.ScheduleCleanup? { FinalizedFrame(s, a); }
    if !MergeAction(a) {
      ObjectFrame(s, a, o);
    } else {
      if !a.ScheduleCleanup? { CounterFrameMerging(s, a, o); }
      if !a.CompareAndSwap? && !a.ResetFlag? { FlagFrameMerging(s, a, o); }
    }
  }

  lemma ComingFrame(s: State, a: Action)
    requires Enabled(s, a) && ComingAction(a)
    ensures a.Put? || Apply(s, a).chunks == s.chunks
    ensures Apply(s, a).finals == s.finals && Apply(s, a).cleaners == s.cleaners
  {
  }

  lemma MergingFrame(s: State, a: Action)
    requires Enabled(s, a) && MergeAction(a)
    ensures Apply(s, a).chunks == s.chunks
    ensures a.Compose? || Apply(s, a).finals == s.finals
    ensures a.ScheduleCleanup? || Apply(s, a).cleaners == s.cleaners
  {
  }

  lemma RestFrame(s: State, a: Action)
    requires Enabled(s, a) && !ComingAction(a) && !MergeAction(a)
    ensures a.RemoveChunk? || a.ExpireChunk? || Apply(s, a).chunks == s.chunks
    ensures Apply(s, a).finals == s.finals
    ensures a.RemoveChunk? || a.ForgetSession? || Apply(s, a).cleaners == s.cleaners
  {
  }

  /** Outside the merging branch an object only gains indices. */
  lemma ObjectFrame(s: State, a: Action, o: ObjectId)
    requires Enabled(s, a) && !MergeAction(a) && o < |s.objects|
    ensures o < |Apply(s, a).objects|
    ensures Apply(s, a).objects[o] == s.objects[o].(received := Apply(s, a).objects[o].received)
  {
  }

  /** New objects are fresh, and all others stay. */
  lemma ObjectsGrow(s: State, a: Action)
    requires Enabled(s, a)
    ensures |s.objects| <= |Apply(s, a).objects| <= |s.objects| + 1
    ensures |Apply(s, a).objects| > |s.objects| ==>
      a.LoadOrStore? && Apply(s, a).objects[|s.objects|] == FreshSession(s.requests[a.r].total)
  {
  }

  // ---- runs ----

  predicate Legal(s: State, run: seq<Action>)
    decreases |run|
  {
    run == [] || (Enabled(s, run[0]) && Legal(Apply(s, run[0]), run[1..]))
  }

  function After(s: State, run: seq<Action>): State
    requires Legal(s, run)
    decreases |run|
  {
    if run == [] then s else After(Apply(s, run[0]), run[1..])
  }

  ghost predicate CanReach(s: State, t: State) {
    exists run :: Legal(s, run) && After(s, run) == t
  }

  lemma {:induction false} AfterAppend(s: State, run: seq<Action>, more: seq<Action>)
    requires Legal(s, run) && Legal(After(s, run), more)
    ensures Legal(s, run + more) && After(s, run + more) == After(After(s, run), more)
    decreases |run|
  {
    if run == [] {
      assert run + more == more;
    } else {
      assert (run + more)[1..] == run[1..] + more;
      AfterAppend(Apply(s, run[0]), run[1..], more);
    }
  }

  lemma ReachStay(s: State)
    ensures CanReach(s, s)
  {
    assert Legal(s, []) && After(s, []) == s;
  }

  /** Whatever reaches `s` reaches the state one action later. */
  lemma ReachOn(s0: State, s: State, a: Action)
    requires CanReach(s0, s) && Enabled(s, a)
    ensures CanReach(s0, Apply(s, a))
  {
    var run :| Legal(s0, run) && After(s0, run) == s;
    var one := [a];
    assert one[1..] == [] && Legal(Apply(s, a), one[1..]) && After(Apply(s, a), one[1..]) == Apply(s, a);
    assert Legal(s, one) && After(s, one) == Apply(s, a);
    AfterAppend(s0, run, one);
  }
}
