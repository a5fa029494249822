/**
 The upload service as the source writes it: a session object with mutable fields,
 the service's map entry for one session id, the object store, and the methods
 UploadChunk, finalize, cleanup and the janitor's sweep. A call runs to its end
 before the next begins. Each statement is matched with the protocol step it is,
 so every call is a legal run of the protocol and its reply is the protocol's.
 */
module UploadService {
  import opened Prelude
  import opened UploadProtocol
  import opened UploadSafety
  import DC = DocumentCache
  import SC = SharedCache

  const SESSION_IDLE_TTL: int := 30 * 60

  class SessionObject {
    const total: int
    var received: set<int>
    var lastActivity: int
    var mergeStarted: bool
    var doneClosed: bool
    var result: Option<ChunkResult>
    ghost var merges: nat
    ghost var failures: nat
    ghost var closes: nat

    ghost function View(): Session
      reads this
    {
      Session(total, received, mergeStarted, doneClosed, result, merges, failures, closes)
    }

    constructor (total: int, now: int)
      ensures View() == FreshSession(total) && lastActivity == now
    {
      this.total := total;
      received := {};
      lastActivity := now;
      mergeStarted := false;
      doneClosed := false;
      result := None;
      merges, failures, closes := 0, 0, 0;
    }

    /** The critical section: the add and the count share it. */
    method Record(index: int, now: int) returns (count: nat)
      modifies `received, `lastActivity
      ensures View() == old(View()).(received := old(received) + {index})
      ensures count == |old(received) + {index}| && lastActivity == now
    {
      received := received + {index};
      lastActivity := now;
      count := |received|;
    }

    method CompareAndSwap() returns (won: bool)
      modifies `mergeStarted
      ensures won == !old(mergeStarted)
      ensures View() == old(View()).(mergeStarted := true)
    {
      won := !mergeStarted;
      if won { mergeStarted := true; }
    }

    method GiveBack()
      modifies `mergeStarted, `failures
      ensures View() == old(View()).(mergeStarted := false, failures := old(failures) + 1)
    {
      mergeStarted := false;
      failures := failures + 1;
    }

    method Publish(res: ChunkResult)
      modifies `result
      ensures View() == old(View()).(result := Some(res))
    {
      result := Some(res);
    }

    method CloseDone()
      modifies `doneClosed, `closes
      ensures View() == old(View()).(doneClosed := true, closes := old(closes) + 1)
    {
      doneClosed := true;
      closes := closes + 1;
    }
  }

  /** What the world answers during one call; an `Exists` error reads as absent. */
  datatype World = World(gate: bool, putOk: bool, checkFails: bool, probeFails: bool, composeFails: bool,
                         logOk: bool, invalidateOk: bool, countOk: bool)

  /** The caller of a chunk request, the metadata it sent, and the row a completed upload leaves in the log. */
  datatype Caller = Caller(actor: Actor, index: int, total: int, row: SC.Doc)

  function DocFaults(w: World): DC.Faults {
    DC.Faults(false, !w.logOk, false, !w.invalidateOk)
  }

  /** The documents after a merge, as the document cache's own step has them. */
  function Documented(before: DC.World, merged: bool, c: Caller, w: World): DC.World {
    if merged then DC.CachedStep(before, DC.Complete(c.row), DocFaults(w)).0 else before
  }

  // ---- what a chunk request is answered, from what it finds ----

  predicate Admitted(c: Caller, w: World) {
    0 <= c.index < c.total && (c.index == 0 ==> w.gate)
  }

  /** The session a request works on: the one in the map, or a fresh one. */
  function Met(e: Option<Session>, c: Caller): Session {
    match e
    case Some(x) => x
    case None => FreshSession(c.total)
  }

  /** With no session in the map, the final object is there and the check says so. */
  predicate ThereBefore(e: Option<Session>, finals: map<Actor, Bytes>, c: Caller, w: World) {
    e.None? && !w.checkFails && c.actor in finals
  }

  predicate CompletesSet(x: Session, c: Caller) {
    |x.received + {c.index}| >= x.total
  }

  /** Finalize succeeds: the object is there, or all its sources are and the store composes them. */
  ghost predicate CanMerge(chunks: map<(Actor, int), Bytes>, finals: map<Actor, Bytes>, c: Caller, total: int, w: World) {
    (!w.probeFails && c.actor in finals) || (!w.composeFails && forall i :: 0 <= i < total ==> (c.actor, i) in chunks)
  }

  /** With the set complete: the first one in merges if it can, the others are told the published result, or nothing yet. */
  predicate RaceAnswers(x: Session, mergeable: bool, c: Caller, reply: Reply) {
    && (reply == MergedAs(ChunkResult(c.index, c.total)) <==> !x.mergeStarted && mergeable)
    && (reply == Failed <==> !x.mergeStarted && !mergeable)
    && (reply.WokenWith? <==> x.mergeStarted && x.doneClosed)
    && (reply == Incomplete <==> x.mergeStarted && !x.doneClosed)
    && (reply.WokenWith? ==> x.result == Some(reply.result))
  }

  /** From the session lookup on. */
  ghost predicate TrackAnswers(e: Option<Session>, chunks: map<(Actor, int), Bytes>, finals: map<Actor, Bytes>, c: Caller, w: World, reply: Reply) {
    if ThereBefore(e, finals, c, w) then reply == AlreadyThere
    else if !CompletesSet(Met(e, c), c) then reply == Incomplete
    else RaceAnswers(Met(e, c), CanMerge(chunks, finals, c, Met(e, c).total, w), c, reply)
  }

  /** The session as the race for its flag and what follows leave it. */
  function SessionWon(x: Session, reply: Reply): Session {
    match reply
    case MergedAs(res) => x.(mergeStarted := true, doneClosed := true, result := Some(res), merges := x.merges + 1, closes := x.closes + 1)
    case Failed => x.(mergeStarted := false, failures := x.failures + 1)
    case _ => x
  }

  /** The same from the critical section on. */
  function SessionLeft(x: Session, c: Caller, reply: Reply): Session {
    SessionWon(x.(received := x.received + {c.index}), reply)
  }

  /** What is left of the chunks when those below n of an actor are gone. */
  ghost function Left(before: map<(Actor, int), Bytes>, actor: Actor, n: int): map<(Actor, int), Bytes> {
    map c | c in before && !(c.0 == actor && 0 <= c.1 < n) :: before[c]
  }

  lemma NoneRemoved(before: map<(Actor, int), Bytes>, actor: Actor)
    ensures Left(before, actor, 0) == before
  {
  }

  lemma OneFewer(before: map<(Actor, int), Bytes>, actor: Actor, n: nat)
    ensures Left(before, actor, n + 1) == Left(before, actor, n) - {(actor, n)}
  {
  }

  class Service {
    var entry: SessionObject?             // sessions[sessionID]
    var chunks: map<(Actor, int), Bytes>  // temp objects of the session id
    var finals: map<Actor, Bytes>         // final objects of the session id
    var logs: nat
    var increments: nat
    var cleaners: seq<Cleaner>            // cleanup goroutines started so far
    const docs: DC.CachedDocuments        // the log of completed uploads and the cache in front of it
    ghost var proto: State

    /** The session in the map. */
    ghost function Current(): Option<Session>
      reads this, entry
    {
      if entry == null then None else Some(entry.View())
    }

    ghost predicate Valid()
      reads this, entry
    {
      && CanReach(Start, proto)
      && proto.chunks == chunks && proto.finals == finals && proto.cleaners == cleaners
      && proto.logs == logs && proto.increments == increments
      && (entry == null <==> proto.current == None)
      && (entry != null ==>
            proto.current.value < |proto.objects| && entry.View() == proto.objects[proto.current.value])
    }

    /** Request `r` of caller `c` stands at `pc`; whatever has been done since `s0` is a legal run. */
    ghost predicate Stands(s0: State, r: RequestId, c: Caller, pc: Pc)
      reads this, entry
    {
      && Valid() && CanReach(s0, proto) && At(proto, r, pc)
      && proto.requests[r].actor == c.actor && proto.requests[r].index == c.index && proto.requests[r].total == c.total
    }

    /** The same, working on the session object `st`, which is the one in the map. */
    ghost predicate Works(s0: State, r: RequestId, c: Caller, st: SessionObject, pc: Pc)
      reads this, entry, st
    {
      Stands(s0, r, c, pc) && entry == st && proto.current == Some(proto.requests[r].obj)
    }

    constructor (docs: DC.CachedDocuments)
      ensures Valid() && proto == Start && this.docs == docs
    {
      this.docs := docs;
      entry := null;
      chunks, finals := map[], map[];
      logs, increments, cleaners := 0, 0, [];
      proto := Start;
      new;
      ReachStay(Start);
    }

    /** One protocol step, on the record. */
    ghost method Note(s0: State, a: Action)
      requires CanReach(Start, proto) && CanReach(s0, proto) && Enabled(proto, a)
      modifies this`proto
      ensures proto == Apply(old(proto), a)
      ensures CanReach(Start, proto) && CanReach(s0, proto)
    {
      ReachOn(Start, proto, a);
      ReachOn(s0, proto, a);
      proto := Apply(proto, a);
    }

    // ---- the steps of UploadChunk ----

    /** Structural validation and the chunk-0 gate. */
    method Admit(ghost s0: State, ghost r: RequestId, c: Caller, data: Bytes, gate: bool) returns (ok: bool)
      requires Valid() && CanReach(s0, proto) && r !in proto.requests
      modifies this`proto
      ensures ok == (0 <= c.index < c.total && (c.index == 0 ==> gate))
      ensures Stands(s0, r, c, if ok then Putting else Finished(Rejected))
      ensures ok ==> proto.requests[r].data == data
    {
      Note(s0, Arrive(r, c.actor, c.index, c.total, data, gate));
      ok := !(c.total <= 0 || c.index < 0 || c.index >= c.total) && !(c.index == 0 && !gate);
    }

    method StoreChunk(ghost s0: State, ghost r: RequestId, c: Caller, data: Bytes, putOk: bool)
      requires Stands(s0, r, c, Putting) && proto.requests[r].data == data
      modifies this`proto, this`chunks
      ensures Stands(s0, r, c, if putOk then Loading else Finished(Failed))
      ensures chunks == if putOk then old(chunks)[(c.actor, c.index) := data] else old(chunks)
    {
      if putOk { chunks := chunks[(c.actor, c.index) := data]; }
      Note(s0, Put(r, putOk));
    }

    /** Load-or-store; `isNew` is the negation of Go's `loaded`. */
    method LoadSession(ghost s0: State, ghost r: RequestId, c: Caller, now: int) returns (st: SessionObject, isNew: bool)
      requires Stands(s0, r, c, Loading)
      modifies this`proto, this`entry
      ensures Works(s0, r, c, st, if isNew then Checking else Recording)
      ensures entry == st && isNew == (old(entry) == null) && (if isNew then fresh(st) else st == old(entry))
      ensures st.View() == Met(old(Current()), c)
    {
      isNew := entry == null;
      if isNew {
        entry := new SessionObject(c.total, now);
      }
      st := entry;
      Note(s0, LoadOrStore(r));
    }

    /** A new session looks for the final object of a merge that ran before it. */
    method CheckNew(ghost s0: State, ghost r: RequestId, c: Caller, st: SessionObject, checkFails: bool) returns (there: bool)
      requires Works(s0, r, c, st, Checking)
      modifies this`proto, this`entry
      ensures there == (!checkFails && c.actor in finals)
      ensures if there then Stands(s0, r, c, Finished(AlreadyThere)) && entry == null else Works(s0, r, c, st, Recording)
    {
      there := !checkFails && c.actor in finals;
      Note(s0, CheckFinal(r, there));
      if there {
        entry := null;
        Note(s0, DropSession(r));
      }
    }

    method CountIn(ghost s0: State, ghost r: RequestId, c: Caller, st: SessionObject, now: int) returns (full: bool)
      requires Works(s0, r, c, st, Recording)
      modifies this`proto, st
      ensures Works(s0, r, c, st, if full then Racing else Finished(Incomplete))
      ensures full == CompletesSet(old(st.View()), c) && st.lastActivity == now
      ensures st.View() == old(st.View()).(received := old(st.received) + {c.index})
    {
      var count := st.Record(c.index, now);
      full := count >= st.total;
      Note(s0, Record(r));
    }

    method Race(ghost s0: State, ghost r: RequestId, c: Caller, st: SessionObject) returns (won: bool)
      requires Works(s0, r, c, st, Racing)
      modifies this`proto, st
      ensures Works(s0, r, c, st, if won then Probing else Waiting)
      ensures won == !old(st.mergeStarted) && st.View() == old(st.View()).(mergeStarted := true) && st.lastActivity == old(st.lastActivity)
    {
      won := st.CompareAndSwap();
      Note(s0, CompareAndSwap(r));
    }

    method Probe(ghost s0: State, ghost r: RequestId, c: Caller, st: SessionObject, probeFails: bool) returns (there: bool)
      requires Works(s0, r, c, st, Probing)
      modifies this`proto
      ensures Works(s0, r, c, st, if there then Logging else Composing)
      ensures there == (!probeFails && c.actor in finals)
    {
      there := !probeFails && c.actor in finals;
      Note(s0, ProbeFinal(r, there));
    }

    /** store.Compose over the chunk keys 0..total-1: all or nothing, failing on a missing source. */
    method ComposeChunks(actor: Actor, total: int, fails: bool) returns (ok: bool, data: Bytes)
      ensures ok <==> !fails && forall i :: 0 <= i < total ==> (actor, i) in chunks
      ensures ok ==> data == Joined(chunks, actor, total)
    {
      var srcs: seq<(Actor, int)> := [];
      var i := 0;
      while i < total
        invariant |srcs| == i && (i == 0 || i <= total)
        invariant forall j :: 0 <= j < i ==> srcs[j] == (actor, j)
      {
        srcs := srcs + [(actor, i)];
        i := i + 1;
      }
      ok, data := !fails, [];
      var k := 0;
      while ok && k < |srcs|
        invariant 0 <= k <= |srcs|
        invariant ok ==> !fails && (forall j :: 0 <= j < k ==> (actor, j) in chunks) && data == Joined(chunks, actor, k)
        invariant !ok ==> fails || exists j :: 0 <= j < |srcs| && (actor, j) !in chunks
        decreases |srcs| - k, ok
      {
        if srcs[k] in chunks {
          data := data + chunks[srcs[k]];
          k := k + 1;
        } else {
          ok := false;
        }
      }
    }

    method Merge(ghost s0: State, ghost r: RequestId, c: Caller, st: SessionObject, composeFails: bool) returns (ok: bool)
      requires Works(s0, r, c, st, Composing)
      modifies this`proto, this`finals
      ensures Works(s0, r, c, st, if ok then Logging else Resetting)
      ensures ok <==> !composeFails && forall i :: 0 <= i < st.total ==> (c.actor, i) in chunks
      ensures ok ==> finals == old(finals)[c.actor := Joined(chunks, c.actor, st.total)]
      ensures !ok ==> finals == old(finals)
    {
      var data;
      ok, data := ComposeChunks(c.actor, st.total, composeFails);
      if ok { finals := finals[c.actor := data]; }
      Note(s0, Compose(r, ok));
    }

    /** The audit row, then the invalidation of the lists it shows up in. */
    method Log(ghost s0: State, ghost r: RequestId, c: Caller, st: SessionObject, w: World)
      requires Works(s0, r, c, st, Logging)
      modifies this`proto, this`logs, docs`log, docs.cache
      ensures Works(s0, r, c, st, Counting)
      ensures logs == old(logs) + if w.logOk then 1 else 0
      ensures docs.Now() == Documented(old(docs.Now()), true, c, w)
    {
      if w.logOk { logs := logs + 1; }
      docs.UploadCompleted(c.row, DocFaults(w));
      Note(s0, SaveLog(r, w.logOk));
    }

    method Count(ghost s0: State, ghost r: RequestId, c: Caller, st: SessionObject, ok: bool)
      requires Works(s0, r, c, st, Counting)
      modifies this`proto, this`increments
      ensures Works(s0, r, c, st, Scheduling)
      ensures increments == old(increments) + if ok then 1 else 0
    {
      if ok { increments := increments + 1; }
      Note(s0, IncrementUsage(r, ok));
    }

    method Schedule(ghost s0: State, ghost r: RequestId, c: Caller, st: SessionObject)
      requires Works(s0, r, c, st, Scheduling)
      modifies this`proto, this`cleaners, st`merges
      ensures Works(s0, r, c, st, Publishing) && st.merges == old(st.merges) + 1
      ensures cleaners == old(cleaners) + [Cleaner(c.actor, st.total, 0, true)]
    {
      hide CanReach;
      cleaners := cleaners + [Cleaner(c.actor, st.total, 0, true)];
      st.merges := st.merges + 1;
      Note(s0, ScheduleCleanup(r));
    }

    /** One log row and one increment, unless the database refused them, and one cleanup goroutine. */
    ghost predicate Booked(logs0: nat, increments0: nat, cleaners0: seq<Cleaner>, c: Caller, st: SessionObject, w: World)
      reads this
    {
      && logs == logs0 + (if w.logOk then 1 else 0)
      && increments == increments0 + (if w.countOk then 1 else 0)
      && cleaners == cleaners0 + [Cleaner(c.actor, st.total, 0, true)]
    }

    /** The bookkeeping after the final object is in place; none of its failures is fatal. */
    method Account(ghost s0: State, ghost r: RequestId, c: Caller, st: SessionObject, w: World)
      requires Works(s0, r, c, st, Logging)
      modifies this`proto, this`logs, this`increments, this`cleaners, st`merges, docs`log, docs.cache
      ensures Works(s0, r, c, st, Publishing) && st.merges == old(st.merges) + 1
      ensures Booked(old(logs), old(increments), old(cleaners), c, st, w)
      ensures docs.Now() == Documented(old(docs.Now()), true, c, w)
    {
      hide Works, CanReach;
      Log(s0, r, c, st, w);
      Count(s0, r, c, st, w.countOk);
      Schedule(s0, r, c, st);
    }

    /** The final object, composed unless it is there. */
    method Assemble(ghost s0: State, ghost r: RequestId, c: Caller, st: SessionObject, w: World) returns (ok: bool)
      requires Works(s0, r, c, st, Probing)
      modifies this`proto, this`finals
      ensures Works(s0, r, c, st, if ok then Logging else Resetting)
      ensures ok <==> CanMerge(chunks, old(finals), c, st.total, w)
      ensures ok ==> c.actor in finals
      ensures ok && (w.probeFails || c.actor !in old(finals)) ==>
                (forall i :: 0 <= i < st.total ==> (c.actor, i) in chunks) &&
                finals == old(finals)[c.actor := Joined(chunks, c.actor, st.total)]
      ensures !ok || (!w.probeFails && c.actor in old(finals)) ==> finals == old(finals)
    {
      hide Works, CanReach;
      var there := Probe(s0, r, c, st, w.probeFails);
      ok := true;
      if !there {
        ok := Merge(s0, r, c, st, w.composeFails);
      }
    }

    /**
     What a request leaves behind, `merged` or not: only a merging request writes the final object, and
     then by joining the `total` stored chunks in order unless it finds it in place;
     only a merging request books the upload and starts a cleanup.
     */
    ghost predicate Settled(finals0: map<Actor, Bytes>, logs0: nat, increments0: nat, cleaners0: seq<Cleaner>, c: Caller, merged: bool, w: World, total: int)
      reads this
    {
      && (merged ==> c.actor in finals)
      && logs == logs0 + (if merged && w.logOk then 1 else 0)
      && increments == increments0 + (if merged && w.countOk then 1 else 0)
      && cleaners == cleaners0 + (if merged then [Cleaner(c.actor, total, 0, true)] else [])
      && (if merged && (w.probeFails || c.actor !in finals0)
          then (forall i :: 0 <= i < total ==> (c.actor, i) in chunks) && finals == finals0[c.actor := Joined(chunks, c.actor, total)]
          else finals == finals0)
    }

    /** finalize: compose unless the final object is there, then log, count and schedule the cleanup. */
    method Finalize(ghost s0: State, ghost r: RequestId, c: Caller, st: SessionObject, w: World) returns (ok: bool)
      requires Works(s0, r, c, st, Probing)
      modifies this`proto, this`finals, this`logs, this`increments, this`cleaners, st`merges, docs`log, docs.cache
      ensures Works(s0, r, c, st, if ok then Publishing else Resetting)
      ensures ok <==> CanMerge(chunks, old(finals), c, st.total, w)
      ensures st.View() == old(st.View()).(merges := old(st.merges) + if ok then 1 else 0)
      ensures docs.Now() == Documented(old(docs.Now()), ok, c, w)
      ensures Settled(old(finals), old(logs), old(increments), old(cleaners), c, ok, w, st.total)
    {
      hide Works, CanReach, DC.CachedStep;
      ok := Assemble(s0, r, c, st, w);
      if ok { Account(s0, r, c, st, w); }
    }

    /** The merge is told to everybody waiting. */
    method Announce(ghost s0: State, ghost r: RequestId, c: Caller, st: SessionObject)
      requires Works(s0, r, c, st, Publishing)
      modifies this`proto, st`result, st`doneClosed, st`closes
      ensures Stands(s0, r, c, Finished(MergedAs(ChunkResult(c.index, c.total))))
      ensures st.View() == old(st.View()).(result := Some(ChunkResult(c.index, c.total)), doneClosed := true, closes := old(st.closes) + 1)
    {
      st.Publish(ChunkResult(c.index, c.total));
      Note(s0, Publish(r));
      st.CloseDone();
      Note(s0, Close(r));
    }

    /** The flag is given back for the next one to try. */
    method GiveBack(ghost s0: State, ghost r: RequestId, c: Caller, st: SessionObject)
      requires Works(s0, r, c, st, Resetting)
      modifies this`proto, st`mergeStarted, st`failures
      ensures Stands(s0, r, c, Finished(Failed))
      ensures st.View() == old(st.View()).(mergeStarted := false, failures := old(st.failures) + 1)
    {
      st.GiveBack();
      Note(s0, ResetFlag(r));
    }

    /** Everybody else waits for `done`, or for the timer when nobody has closed it. */
    method Await(ghost s0: State, ghost r: RequestId, c: Caller, st: SessionObject) returns (reply: Reply)
      requires Works(s0, r, c, st, Waiting)
      modifies this`proto
      ensures Stands(s0, r, c, Finished(reply))
      ensures if st.doneClosed then reply.WokenWith? && st.result == Some(reply.result) else reply == Incomplete
    {
      if st.doneClosed {
        ClosedHasResult(proto, proto.requests[r].obj);
        reply := WokenWith(st.result.value);
        Note(s0, Wake(r));
      } else {
        reply := Incomplete;
        Note(s0, Timeout(r));
      }
    }

    /** The winner of the flag, to its reply. */
    method MergeNow(ghost s0: State, ghost r: RequestId, c: Caller, st: SessionObject, w: World) returns (reply: Reply)
      requires Works(s0, r, c, st, Probing) && st.mergeStarted
      modifies this`proto, this`finals, this`logs, this`increments, this`cleaners, st, docs`log, docs.cache
      ensures Stands(s0, r, c, Finished(reply))
      ensures reply == if CanMerge(chunks, old(finals), c, st.total, w) then MergedAs(ChunkResult(c.index, c.total)) else Failed
      ensures docs.Now() == Documented(old(docs.Now()), reply.MergedAs?, c, w)
      ensures Settled(old(finals), old(logs), old(increments), old(cleaners), c, reply.MergedAs?, w, st.total)
      ensures st.View() == SessionWon(old(st.View()), reply) && st.lastActivity == old(st.lastActivity)
    {
      hide Works, Stands, CanReach, DC.CachedStep;
      var merged := Finalize(s0, r, c, st, w);
      if merged {
        Announce(s0, r, c, st);
        reply := MergedAs(ChunkResult(c.index, c.total));
      } else {
        GiveBack(s0, r, c, st);
        reply := Failed;
      }
    }

    /** All chunks are in: merge, or wait for whoever does. */
    method MergeOrWait(ghost s0: State, ghost r: RequestId, c: Caller, st: SessionObject, w: World) returns (reply: Reply)
      requires Works(s0, r, c, st, Racing)
      modifies this`proto, this`finals, this`logs, this`increments, this`cleaners, st, docs`log, docs.cache
      ensures Stands(s0, r, c, Finished(reply))
      ensures RaceAnswers(old(st.View()), CanMerge(chunks, old(finals), c, st.total, w), c, reply)
      ensures docs.Now() == Documented(old(docs.Now()), reply.MergedAs?, c, w)
      ensures Settled(old(finals), old(logs), old(increments), old(cleaners), c, reply.MergedAs?, w, st.total)
      ensures st.View() == SessionWon(old(st.View()), reply) && st.lastActivity == old(st.lastActivity)
    {
      hide Works, Stands, CanReach, DC.CachedStep;
      var won := Race(s0, r, c, st);
      if won {
        reply := MergeNow(s0, r, c, st, w);
      } else {
        reply := Await(s0, r, c, st);
      }
    }

    /** From the critical section to the reply. */
    method Proceed(ghost s0: State, ghost r: RequestId, c: Caller, st: SessionObject, w: World, now: int) returns (reply: Reply)
      requires Works(s0, r, c, st, Recording)
      modifies this`proto, this`finals, this`logs, this`increments, this`cleaners, st, docs`log, docs.cache
      ensures Stands(s0, r, c, Finished(reply))
      ensures
        if CompletesSet(old(st.View()), c) then RaceAnswers(old(st.View()), CanMerge(chunks, old(finals), c, st.total, w), c, reply)
        else reply == Incomplete
      ensures docs.Now() == Documented(old(docs.Now()), reply.MergedAs?, c, w)
      ensures Settled(old(finals), old(logs), old(increments), old(cleaners), c, reply.MergedAs?, w, st.total)
      ensures st.View() == SessionLeft(old(st.View()), c, reply) && st.lastActivity == now
    {
      hide Works, Stands, CanReach, DC.CachedStep;
      var full := CountIn(s0, r, c, st, now);
      if !full { return Incomplete; }
      reply := MergeOrWait(s0, r, c, st, w);
    }

    /** The entry after a request that got as far as the session lookup. */
    ghost predicate EntryLeft(e: Option<Session>, c: Caller, reply: Reply, now: int)
      reads this, entry
    {
      if reply == AlreadyThere then entry == null
      else Current() == Some(SessionLeft(Met(e, c), c, reply)) && entry.lastActivity == now
    }

    /** The session of the request, unless a new one finds the final object in place. */
    method Lookup(ghost s0: State, ghost r: RequestId, c: Caller, w: World, now: int) returns (st: SessionObject, there: bool)
      requires Stands(s0, r, c, Loading)
      modifies this`proto, this`entry
      ensures there == ThereBefore(old(Current()), finals, c, w)
      ensures if there then Stands(s0, r, c, Finished(AlreadyThere)) && entry == null else Works(s0, r, c, st, Recording) && entry == st
      ensures st.View() == Met(old(Current()), c) && if old(entry) == null then fresh(st) else st == old(entry)
    {
      hide Works, Stands, CanReach;
      var isNew;
      st, isNew := LoadSession(s0, r, c, now);
      there := false;
      if isNew { there := CheckNew(s0, r, c, st, w.checkFails); }
    }

    /** From the session lookup to the reply. */
    method Track(ghost s0: State, ghost r: RequestId, c: Caller, w: World, now: int) returns (reply: Reply)
      requires Stands(s0, r, c, Loading)
      modifies this`proto, this`entry, this`finals, this`logs, this`increments, this`cleaners, entry, docs`log, docs.cache
      ensures Stands(s0, r, c, Finished(reply))
      ensures TrackAnswers(old(Current()), chunks, old(finals), c, w, reply)
      ensures docs.Now() == Documented(old(docs.Now()), reply.MergedAs?, c, w)
      ensures Settled(old(finals), old(logs), old(increments), old(cleaners), c, reply.MergedAs?, w, Met(old(Current()), c).total)
      ensures EntryLeft(old(Current()), c, reply, now) && (old(entry) != null ==> entry == old(entry))
    {
      hide Works, Stands, CanReach, DC.CachedStep;
      var st, there := Lookup(s0, r, c, w, now);
      if there { return AlreadyThere; }
      reply := Proceed(s0, r, c, st, w, now);
    }

    /** Validation, the gate and the put; None when the request goes on to its session. */
    method Receive(ghost s0: State, ghost r: RequestId, c: Caller, data: Bytes, w: World) returns (early: Option<Reply>)
      requires Valid() && CanReach(s0, proto) && r !in proto.requests
      modifies this`proto, this`chunks
      ensures Stands(s0, r, c, match early case None => Loading case Some(reply) => Finished(reply))
      ensures early == (if !Admitted(c, w) then Some(Rejected) else if !w.putOk then Some(Failed) else None)
      ensures chunks == if early.None? then old(chunks)[(c.actor, c.index) := data] else old(chunks)
    {
      hide Stands, CanReach;
      var ok := Admit(s0, r, c, data, w.gate);
      if !ok { return Some(Rejected); }
      StoreChunk(s0, r, c, data, w.putOk);
      early := if w.putOk then None else Some(Failed);
    }

    /**
     One chunk request. What it does is a legal run of the protocol from the state
     before to the state after, and its reply is the one the protocol records. Each
     reply is given exactly when the session, the store and the world ask for it.
     */
    method UploadChunk(ghost r: RequestId, c: Caller, data: Bytes, w: World, now: int) returns (reply: Reply)
      requires Valid() && r !in proto.requests
      modifies this, entry, docs`log, docs.cache
      ensures Stands(old(proto), r, c, Finished(reply))
      ensures reply == Rejected <==> !Admitted(c, w)
      ensures chunks == if Admitted(c, w) && w.putOk then old(chunks)[(c.actor, c.index) := data] else old(chunks)
      ensures Admitted(c, w) && !w.putOk ==> reply == Failed
      ensures Admitted(c, w) && w.putOk ==>
        TrackAnswers(old(Current()), chunks, old(finals), c, w, reply) && EntryLeft(old(Current()), c, reply, now)
      ensures !(Admitted(c, w) && w.putOk) ==> Current() == old(Current()) && (entry != null ==> entry.lastActivity == old(entry.lastActivity))
      ensures old(entry) != null ==> entry == old(entry)
      ensures docs.Now() == Documented(old(docs.Now()), reply.MergedAs?, c, w)
      ensures Settled(old(finals), old(logs), old(increments), old(cleaners), c, reply.MergedAs?, w, Met(old(Current()), c).total)
    {
      hide Stands, CanReach, DC.CachedStep;
      ghost var s0 := proto;
      ReachStay(s0);
      var early := Receive(s0, r, c, data, w);
      if early.Some? { return early.value; }
      reply := Track(s0, r, c, w, now);
    }

    // ---- the janitor and the cleanup goroutine ----

    /** The janitor's visit to this entry: drop it when its last chunk is too old. */
    method Sweep(now: int)
      requires Valid()
      modifies this`proto, this`entry
      ensures Valid() && CanReach(old(proto), proto)
      ensures entry == (if old(entry) != null && old(entry).lastActivity < now - SESSION_IDLE_TTL then null else old(entry))
    {
      ghost var s0 := proto;
      ReachStay(s0);
      if entry != null && entry.lastActivity < now - SESSION_IDLE_TTL {
        entry := null;
        Note(s0, Evict);
      }
    }

    ghost predicate Cleaning(s0: State, k: nat, x: Cleaner)
      reads this, entry
    {
      Valid() && CanReach(s0, proto) && k < |cleaners| && cleaners[k] == x
    }

    method RemoveNext(ghost s0: State, k: nat, x: Cleaner, ok: bool)
      requires Cleaning(s0, k, x) && x.running && x.next < x.total
      modifies this`proto, this`chunks, this`cleaners
      ensures Cleaning(s0, k, x.(next := if ok then x.next + 1 else x.total))
      ensures chunks == if ok then old(chunks) - {(x.actor, x.next)} else old(chunks)
    {
      if ok { chunks := chunks - {(x.actor, x.next)}; }
      cleaners := cleaners[k := x.(next := if ok then x.next + 1 else x.total)];
      Note(s0, RemoveChunk(k, ok));
    }

    method Forget(ghost s0: State, k: nat, x: Cleaner)
      requires Cleaning(s0, k, x) && x.running && x.next >= x.total
      modifies this`proto, this`entry, this`cleaners
      ensures Cleaning(s0, k, x.(running := false)) && entry == null
    {
      entry := null;
      cleaners := cleaners[k := x.(running := false)];
      Note(s0, ForgetSession(k));
    }

    /** Remove the chunks in order, up to the one whose removal fails. */
    method RemoveUntil(ghost s0: State, k: nat, x: Cleaner, failAt: int) returns (i: int)
      requires Cleaning(s0, k, x) && x.running && x.next == 0 <= x.total
      modifies this`proto, this`chunks, this`cleaners
      ensures i == (if 0 <= failAt < x.total then failAt else x.total)
      ensures Cleaning(s0, k, x.(next := i)) && chunks == Left(old(chunks), x.actor, i)
    {
      i := 0;
      NoneRemoved(chunks, x.actor);
      while i < x.total && i != failAt
        invariant Cleaning(s0, k, x.(next := i)) && 0 <= i <= x.total && !(0 <= failAt < i)
        invariant chunks == Left(old(chunks), x.actor, i)
      {
        OneFewer(old(chunks), x.actor, i);
        RemoveNext(s0, k, x.(next := i), true);
        i := i + 1;
      }
    }

    /** A cleanup goroutine to its end: remove the chunks in order until the removal at `failAt` fails, then drop the entry. */
    method Cleanup(k: nat, failAt: int)
      requires Valid() && k < |cleaners| && cleaners[k].running && cleaners[k].next == 0 <= cleaners[k].total
      modifies this
      ensures Valid() && CanReach(old(proto), proto) && entry == null
      ensures unchanged(`finals, `logs, `increments)
      ensures
        var x := old(cleaners)[k];
        chunks == Left(old(chunks), x.actor, if 0 <= failAt < x.total then failAt else x.total)
    {
      ghost var s0 := proto;
      ReachStay(s0);
      var x := cleaners[k];
      var i := RemoveUntil(s0, k, x, failAt);
      if i < x.total {
        RemoveNext(s0, k, x.(next := i), false);
      }
      Forget(s0, k, x.(next := x.total));
    }
  }

  lemma ClosedHasResult(s: State, o: ObjectId)
    requires CanReach(Start, s) && o < |s.objects| && s.objects[o].doneClosed
    ensures s.objects[o].result.Some?
  {
    var run :| Legal(Start, run) && After(Start, run) == s;
    SafeRun(Start, run);
  }
}
