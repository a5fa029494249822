/**
 What the sliding window keeps, with increasing creation times: a user's sessions are
 always the last of those the user opened and did not delete, whatever fails; they are the
 newest 20 as long as no insert fails after an eviction.
 */
module ChatWindow {
  import opened Prelude
  import opened Strings
  import opened ChatStore
  import opened Chat

  const EMPTY := Store([], [], 0)

  /** The user's session ids in creation order. */
  function Mine(ss: seq<Session>, user: nat): seq<string> {
    if ss == [] then [] else if ss[0].user == user then [ss[0].id] + Mine(ss[1..], user) else Mine(ss[1..], user)
  }

  function Newest(ids: seq<string>): seq<string> {
    if |ids| <= MAX_SESSIONS then ids else ids[|ids| - MAX_SESSIONS..]
  }

  /** Rows in creation order, one per id. */
  ghost predicate InOrder(ss: seq<Session>) {
    forall i, j :: 0 <= i < j < |ss| ==> ss[i].createdAt < ss[j].createdAt && ss[i].id != ss[j].id
  }

  ghost predicate OlderThan(ss: seq<Session>, now: int) {
    forall i :: 0 <= i < |ss| ==> ss[i].createdAt < now
  }

  lemma {:induction false} MineAppend(ss: seq<Session>, x: Session, user: nat)
    ensures Mine(ss + [x], user) == Mine(ss, user) + if x.user == user then [x.id] else []
  {
    if ss == [] {
      assert ss + [x] == [x];
    } else {
      assert (ss + [x])[1..] == ss[1..] + [x];
      MineAppend(ss[1..], x, user);
    }
  }

  lemma {:induction false} MineTouch(ss: seq<Session>, id: string, now: int, user: nat)
    ensures Mine(Touch(ss, id, now), user) == Mine(ss, user)
  {
    if ss != [] { MineTouch(ss[1..], id, now, user); }
  }

  lemma {:induction false} MineCount(ss: seq<Session>, user: nat)
    ensures |Mine(ss, user)| == Count(ss, user)
  {
    if ss != [] { MineCount(ss[1..], user); }
  }

  lemma {:induction false} WithoutAbsent(ss: seq<Session>, id: string)
    requires forall x :: x in ss ==> x.id != id
    ensures Without(ss, id) == ss
  {
    if ss != [] { WithoutAbsent(ss[1..], id); }
  }

  /** The oldest session is the first of the user's, and removing it leaves everybody's other sessions. */
  lemma {:induction false} OldestIsFirst(ss: seq<Session>, user: nat, other: nat)
    requires InOrder(ss) && Oldest(ss, user).Some?
    ensures Mine(ss, user) != [] && Mine(ss, user)[0] == Oldest(ss, user).value.id
    ensures Mine(Without(ss, Oldest(ss, user).value.id), other) == if other == user then Mine(ss, user)[1..] else Mine(ss, other)
  {
    var rest := Oldest(ss[1..], user);
    if rest.Some? {
      OldestIsOldest(ss[1..], user);
      assert rest.value in ss[1..];
    }
    if ss[0].user == user {
      WithoutAbsent(ss[1..], ss[0].id);
    } else {
      OldestIsFirst(ss[1..], user, other);
      assert ([ss[0]] + Without(ss[1..], rest.value.id))[1..] == Without(ss[1..], rest.value.id);
    }
  }

  lemma {:induction false} WithoutKeepsRows(ss: seq<Session>, id: string)
    ensures forall x :: x in Without(ss, id) ==> x in ss
  {
    if ss != [] { WithoutKeepsRows(ss[1..], id); }
  }

  lemma {:induction false} WithoutInOrder(ss: seq<Session>, id: string)
    requires InOrder(ss)
    ensures InOrder(Without(ss, id))
  {
    if ss != [] {
      WithoutInOrder(ss[1..], id);
      WithoutKeepsRows(ss[1..], id);
      forall x | x in Without(ss[1..], id) ensures ss[0].createdAt < x.createdAt && ss[0].id != x.id { assert x in ss[1..]; }
    }
  }

  lemma {:induction false} TouchInOrder(ss: seq<Session>, id: string, now: int)
    ensures |Touch(ss, id, now)| == |ss|
    ensures forall i :: 0 <= i < |ss| ==> SameSession(Touch(ss, id, now)[i], ss[i])
  {
    if ss != [] { TouchInOrder(ss[1..], id, now); }
  }

  // ---- one request ----

  /** The request opened a session. */
  predicate Opens(s: Store, r: Request, f: Faults) {
    Find(s.sessions, r.session).None? && Find(Ask(s, r, f).0.sessions, r.session).Some?
  }

  lemma ConverseKeepsMine(s: Store, r: Request, f: Faults, user: nat)
    requires InOrder(s.sessions)
    ensures Mine(Converse(s, r, f).0.sessions, user) == Mine(s.sessions, user)
    ensures InOrder(Converse(s, r, f).0.sessions)
    ensures forall now :: OlderThan(s.sessions, now) ==> OlderThan(Converse(s, r, f).0.sessions, now)
  {
    MineTouch(s.sessions, r.session, r.now, user);
    TouchInOrder(s.sessions, r.session, r.now);
  }

  lemma EnforceDropsTheFirst(s: Store, r: Request, f: Faults, user: nat)
    requires InOrder(s.sessions) && OlderThan(s.sessions, r.now)
    ensures var (s', ok) := Enforce(s, r.user, f);
      && InOrder(s'.sessions) && OlderThan(s'.sessions, r.now)
      && (ok || s' == s)
      && Mine(s'.sessions, user) ==
           (if ok && user == r.user && |Mine(s.sessions, user)| >= MAX_SESSIONS then Mine(s.sessions, user)[1..] else Mine(s.sessions, user))
  {
    MineCount(s.sessions, r.user);
    OldestIsOldest(s.sessions, r.user);
    if Oldest(s.sessions, r.user).Some? {
      OldestIsFirst(s.sessions, r.user, user);
      WithoutInOrder(s.sessions, Oldest(s.sessions, r.user).value.id);
      WithoutKeepsRows(s.sessions, Oldest(s.sessions, r.user).value.id);
    }
  }

  lemma InsertSlides(s: Store, r: Request, user: nat, mine: seq<string>)
    requires InOrder(s.sessions) && OlderThan(s.sessions, r.now) && Find(s.sessions, r.session).None?
    requires |mine| <= MAX_SESSIONS
    requires Mine(s.sessions, user) == if user == r.user && |mine| >= MAX_SESSIONS then mine[1..] else mine
    ensures var s' := CreateSession(s, NewSession(r));
      && InOrder(s'.sessions) && OlderThan(s'.sessions, r.now + 1)
      && Mine(s'.sessions, user) == if user == r.user then Newest(mine + [r.session]) else mine
  {
    FindIs(s.sessions, r.session);
    MineAppend(s.sessions, NewSession(r), user);
  }

  /** The insert fails although the oldest session has been evicted for it. */
  predicate Wasted(s: Store, r: Request, f: Faults) {
    Evicted(s, r, f).Some? && f.createFails
  }

  /** The user's sessions after a request, from those before it. */
  function Moved(s: Store, r: Request, f: Faults, user: nat): seq<string> {
    var mine := Mine(s.sessions, user);
    if user != r.user then mine
    else if Opens(s, r, f) then Newest(mine + [r.session])
    else if Wasted(s, r, f) && mine != [] then mine[1..]
    else mine
  }

  lemma OpenMoves(s: Store, r: Request, f: Faults, user: nat)
    requires InOrder(s.sessions) && OlderThan(s.sessions, r.now) && ValidId(r.session) && !f.getFails
    requires Find(s.sessions, r.session).None? && |Mine(s.sessions, user)| <= MAX_SESSIONS
    ensures var (s', ok) := Open(s, r, f);
      && InOrder(s'.sessions) && OlderThan(s'.sessions, r.now + 1)
      && Mine(s'.sessions, user) ==
           if user != r.user then Mine(s.sessions, user)
           else if ok then Newest(Mine(s.sessions, user) + [r.session])
           else if Wasted(s, r, f) && Mine(s.sessions, user) != [] then Mine(s.sessions, user)[1..]
           else Mine(s.sessions, user)
  {
    EnforceDropsTheFirst(s, r, f, user);
    MineCount(s.sessions, user);
    OldestIsOldest(s.sessions, r.user);
    var (s', ok) := Enforce(s, r.user, f);
    if ok && !f.createFails {
      assert Find(s'.sessions, r.session).None? by {
        if s' != s { FindWithout(s.sessions, Oldest(s.sessions, r.user).value.id, r.session); }
      }
      InsertSlides(s', r, user, Mine(s.sessions, user));
    }
  }

  lemma AskMoves(s: Store, r: Request, f: Faults, user: nat)
    requires InOrder(s.sessions) && OlderThan(s.sessions, r.now) && NoOrphans(s) && |Mine(s.sessions, user)| <= MAX_SESSIONS
    ensures var s' := Ask(s, r, f).0;
      && InOrder(s'.sessions) && OlderThan(s'.sessions, r.now + 1)
      && Mine(s'.sessions, user) == Moved(s, r, f, user)
  {
    if ValidId(r.session) && !f.getFails {
      if Find(s.sessions, r.session).Some? {
        ConverseKeepsMine(s, r, f, user);
      } else {
        LogIsEmptyIff(s.messages, r.session);
        OpenCreates(s, r, f);
        OpenMoves(s, r, f, user);
        var (ready, ok) := Open(s, r, f);
        ConverseKeepsMine(ready, r, f, user);
        if ok { ConverseSpeaks(ready, r, f); }
      }
    }
  }

  lemma WastedEvicts(s: Store, r: Request, f: Faults)
    requires Wasted(s, r, f)
    ensures !Opens(s, r, f) && Mine(s.sessions, r.user) != []
  {
    MineCount(s.sessions, r.user);
    OldestIsOldest(s.sessions, r.user);
    FindWithout(s.sessions, Evicted(s, r, f).value.id, r.session);
  }

  /**
   A request leaves its user the newest 20 of the sessions before it and the one it opened,
   if any, exactly when it does not fail to insert after evicting.
   */
  lemma {:induction false} WindowSlidesIff(s: Store, r: Request, f: Faults)
    requires InOrder(s.sessions) && OlderThan(s.sessions, r.now) && Valid(s)
    ensures Mine(Ask(s, r, f).0.sessions, r.user) ==
      Newest(Mine(s.sessions, r.user) + if Opens(s, r, f) then [r.session] else [])
      <==> !(Evicted(s, r, f).Some? && f.createFails)
  {
    MineCount(s.sessions, r.user);
    AskMoves(s, r, f, r.user);
    assert Mine(s.sessions, r.user) + [] == Mine(s.sessions, r.user);
    if Wasted(s, r, f) { WastedEvicts(s, r, f); }
  }

  // ---- deletions by the user ----

  function Minus(ids: seq<string>, gone: string): seq<string> {
    if ids == [] then [] else if ids[0] == gone then Minus(ids[1..], gone) else [ids[0]] + Minus(ids[1..], gone)
  }

  lemma {:induction false} MineWithout(ss: seq<Session>, gone: string, user: nat)
    ensures Mine(Without(ss, gone), user) == Minus(Mine(ss, user), gone)
  {
    if ss != [] {
      MineWithout(ss[1..], gone, user);
      if ss[0].id != gone { assert ([ss[0]] + Without(ss[1..], gone))[1..] == Without(ss[1..], gone); }
      if ss[0].user == user { assert ([ss[0].id] + Mine(ss[1..], user))[1..] == Mine(ss[1..], user); }
    }
  }

  lemma {:induction false} MinusAbsent(ids: seq<string>, gone: string)
    requires gone !in ids
    ensures Minus(ids, gone) == ids
  {
    if ids != [] { MinusAbsent(ids[1..], gone); }
  }

  lemma {:induction false} MinusAdds(a: seq<string>, b: seq<string>, gone: string)
    ensures Minus(a + b, gone) == Minus(a, gone) + Minus(b, gone)
  {
    if a == [] {
      assert a + b == b;
    } else {
      assert (a + b)[1..] == a[1..] + b;
      MinusAdds(a[1..], b, gone);
    }
  }

  lemma {:induction false} MineIsOwned(ss: seq<Session>, user: nat, id: string)
    requires InOrder(ss) && id in Mine(ss, user)
    ensures Find(ss, id).Some? && Find(ss, id).value.user == user
  {
    if !(ss[0].user == user && ss[0].id == id) {
      MineIsOwned(ss[1..], user, id);
      FindIs(ss[1..], id);
      assert Find(ss[1..], id).value in ss[1..];
    }
  }

  lemma RemoveMoves(s: Store, id: string, actor: nat, f: Faults, user: nat, now: int)
    requires InOrder(s.sessions) && OlderThan(s.sessions, now)
    ensures var (s', reply) := Remove(s, id, actor, f);
      && InOrder(s'.sessions) && OlderThan(s'.sessions, now)
      && Mine(s'.sessions, user) == (if reply == Deleted && actor == user then Minus(Mine(s.sessions, user), id) else Mine(s.sessions, user))
  {
    MineWithout(s.sessions, id, user);
    WithoutInOrder(s.sessions, id);
    WithoutKeepsRows(s.sessions, id);
    forall x | x in Without(s.sessions, id) ensures x.createdAt < now { assert x in s.sessions; }
    if actor != user && Remove(s, id, actor, f).1 == Deleted {
      if id in Mine(s.sessions, user) { MineIsOwned(s.sessions, user, id); }
      MinusAbsent(Mine(s.sessions, user), id);
    }
  }

  // ---- runs ----

  /** One event's effect on the list of what a user opened and did not delete. */
  function KeptNext(s: Store, ev: Event, user: nat, kept: seq<string>): seq<string> {
    match ev
    case Asks(r, f) => if r.user == user && Opens(s, r, f) then kept + [r.session] else kept
    case Removes(id, actor, f) => if actor == user && Remove(s, id, actor, f).1 == Deleted then Minus(kept, id) else kept
  }

  /** The ids the user opened and did not delete, in order of opening. */
  function Kept(run: seq<Event>, user: nat): seq<string> {
    if run == [] then []
    else KeptNext(After(EMPTY, run[..|run| - 1]), run[|run| - 1], user, Kept(run[..|run| - 1], user))
  }

  /** The event deletes one of the user's sessions, or evicts one and then fails to insert. */
  predicate Disturbs(s: Store, ev: Event, user: nat) {
    match ev
    case Asks(r, f) => r.user == user && Wasted(s, r, f)
    case Removes(id, actor, f) => actor == user && Remove(s, id, actor, f).1 == Deleted
  }

  /** Questions are asked at increasing times. */
  predicate Ticking(run: seq<Event>) {
    forall i, j :: 0 <= i < j < |run| && run[i].Asks? && run[j].Asks? ==> run[i].r.now < run[j].r.now
  }

  predicate BeforeTime(run: seq<Event>, now: int) {
    forall i :: 0 <= i < |run| && run[i].Asks? ==> run[i].r.now < now
  }

  predicate Undisturbed(run: seq<Event>, user: nat) {
    run == [] ||
    (Undisturbed(run[..|run| - 1], user) && !Disturbs(After(EMPTY, run[..|run| - 1]), run[|run| - 1], user))
  }

  predicate IsSuffix(a: seq<string>, b: seq<string>) {
    |a| <= |b| && b[|b| - |a|..] == a
  }

  lemma SuffixSlides(a: seq<string>, b: seq<string>, id: string)
    requires IsSuffix(a, b)
    ensures IsSuffix(Newest(a + [id]), b + [id])
    ensures a != [] ==> IsSuffix(a[1..], b)
  {
  }

  lemma SuffixMinus(a: seq<string>, b: seq<string>, id: string)
    requires IsSuffix(a, b)
    ensures IsSuffix(Minus(a, id), Minus(b, id))
  {
    var lost := b[..|b| - |a|];
    assert b == lost + a;
    MinusAdds(lost, a, id);
  }

  lemma NewestIsIncremental(ids: seq<string>, id: string)
    ensures Newest(Newest(ids) + [id]) == Newest(ids + [id])
  {
  }

  ghost predicate Windowed(s: Store, now: int) {
    Valid(s) && InOrder(s.sessions) && OlderThan(s.sessions, now)
  }

  lemma StepKeepsWindowed(s: Store, ev: Event, now: int)
    requires Windowed(s, if ev.Asks? then ev.r.now else now) && (ev.Asks? ==> ev.r.now < now)
    ensures Windowed(Next(s, ev), now)
  {
    match ev
    case Asks(r, f) =>
      MineCount(s.sessions, r.user);
      AskKeepsValid(s, r, f);
      AskMoves(s, r, f, r.user);
    case Removes(id, actor, f) =>
      RemoveKeepsValid(s, id, actor, f);
      RemoveMoves(s, id, actor, f, actor, now);
  }

  lemma {:induction false} RunKeepsWindowed(run: seq<Event>, now: int)
    requires Ticking(run) && BeforeTime(run, now)
    ensures Windowed(After(EMPTY, run), now)
    decreases |run|
  {
    if run != [] {
      var before, ev := run[..|run| - 1], run[|run| - 1];
      RunKeepsWindowed(before, if ev.Asks? then ev.r.now else now);
      StepKeepsWindowed(After(EMPTY, before), ev, now);
    }
  }

  lemma StepKeepsSuffix(s: Store, ev: Event, now: int, user: nat, kept: seq<string>)
    requires Windowed(s, if ev.Asks? then ev.r.now else now) && IsSuffix(Mine(s.sessions, user), kept)
    ensures IsSuffix(Mine(Next(s, ev).sessions, user), KeptNext(s, ev, user, kept))
  {
    match ev
    case Asks(r, f) =>
      MineCount(s.sessions, user);
      AskMoves(s, r, f, user);
      SuffixSlides(Mine(s.sessions, user), kept, r.session);
    case Removes(id, actor, f) =>
      RemoveMoves(s, id, actor, f, user, now);
      SuffixMinus(Mine(s.sessions, user), kept, id);
  }

  /**
   From no conversations, over every run of questions and deletions by any users with any store
   call failing: what a user still has are the last sessions the user opened and did not
   delete, at most 20; whatever is gone is older than whatever is left.
   */
  lemma {:induction false} WindowKeepsTheLast(run: seq<Event>, user: nat, now: int)
    requires Ticking(run) && BeforeTime(run, now)
    ensures var mine := Mine(After(EMPTY, run).sessions, user);
      IsSuffix(mine, Kept(run, user)) && |mine| <= MAX_SESSIONS
    decreases |run|
  {
    RunKeepsWindowed(run, now);
    MineCount(After(EMPTY, run).sessions, user);
    if run != [] {
      var before, ev := run[..|run| - 1], run[|run| - 1];
      var time := if ev.Asks? then ev.r.now else now;
      WindowKeepsTheLast(before, user, time);
      RunKeepsWindowed(before, time);
      StepKeepsSuffix(After(EMPTY, before), ev, now, user, Kept(before, user));
    }
  }

  lemma StepKeepsNewest(s: Store, ev: Event, now: int, user: nat, kept: seq<string>)
    requires Windowed(s, if ev.Asks? then ev.r.now else now) && Mine(s.sessions, user) == Newest(kept)
    requires !Disturbs(s, ev, user)
    ensures Mine(Next(s, ev).sessions, user) == Newest(KeptNext(s, ev, user, kept))
  {
    match ev
    case Asks(r, f) =>
      MineCount(s.sessions, user);
      AskMoves(s, r, f, user);
      NewestIsIncremental(kept, r.session);
    case Removes(id, actor, f) =>
      RemoveMoves(s, id, actor, f, user, now);
  }

  /** And they are exactly the newest 20 the user opened, unless a deletion or a wasted eviction of the user's came between. */
  lemma {:induction false} WindowKeepsTheNewest(run: seq<Event>, user: nat, now: int)
    requires Ticking(run) && BeforeTime(run, now) && Undisturbed(run, user)
    ensures Mine(After(EMPTY, run).sessions, user) == Newest(Kept(run, user))
    decreases |run|
  {
    if run != [] {
      var before, ev := run[..|run| - 1], run[|run| - 1];
      var time := if ev.Asks? then ev.r.now else now;
      WindowKeepsTheNewest(before, user, time);
      RunKeepsWindowed(before, time);
      StepKeepsNewest(After(EMPTY, before), ev, now, user, Kept(before, user));
    }
  }

  /** The insert failing at the cap costs the user the oldest session for nothing. */
  lemma FailedInsertStillEvicts(s: Store, r: Request, f: Faults)
    requires Evicted(s, r, f).Some? && f.createFails
    ensures Ask(s, r, f).1 == Failed
    ensures Find(Ask(s, r, f).0.sessions, Evicted(s, r, f).value.id).None? && Find(Ask(s, r, f).0.sessions, r.session).None?
  {
    FindWithout(s.sessions, Evicted(s, r, f).value.id, Evicted(s, r, f).value.id);
    FindWithout(s.sessions, Evicted(s, r, f).value.id, r.session);
  }
}
