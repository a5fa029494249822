/**
 Conversations: the session and message tables (internal/repository/chat/chat_repository.go).
 Rows are kept in insertion order, which is the order of their creation times in the
 database; sessions are ordered by creation time and id, messages by insertion.
 */
module ChatStore {
  import opened Prelude
  import opened Strings

  datatype Session = Session(id: string, user: nat, org: string, title: string, createdAt: int, updatedAt: int)

  datatype Role = FromUser | FromAssistant

  datatype Message = Message(id: nat, session: string, role: Role, content: string, createdAt: int)

  /** `nextId` numbers the messages. */
  datatype Store = Store(sessions: seq<Session>, messages: seq<Message>, nextId: nat)

  // ---- queries ----

  function Find(ss: seq<Session>, id: string): Option<Session> {
    if ss == [] then None else if ss[0].id == id then Some(ss[0]) else Find(ss[1..], id)
  }

  function Count(ss: seq<Session>, user: nat): nat {
    if ss == [] then 0 else Count(ss[1..], user) + if ss[0].user == user then 1 else 0
  }

  /** ORDER BY created_at, id. */
  predicate Before(a: Session, b: Session) {
    a.createdAt < b.createdAt || (a.createdAt == b.createdAt && Less(a.id, b.id))
  }

  function Oldest(ss: seq<Session>, user: nat): Option<Session> {
    if ss == [] then None
    else
      var rest := Oldest(ss[1..], user);
      if ss[0].user != user then rest
      else if rest.Some? && Before(rest.value, ss[0]) then rest
      else Some(ss[0])
  }

  /** One session's messages. */
  function Log(ms: seq<Message>, id: string): seq<Message> {
    if ms == [] then [] else if ms[0].session == id then [ms[0]] + Log(ms[1..], id) else Log(ms[1..], id)
  }

  // ---- writes ----

  function Without(ss: seq<Session>, id: string): seq<Session> {
    if ss == [] then [] else if ss[0].id == id then Without(ss[1..], id) else [ss[0]] + Without(ss[1..], id)
  }

  function Unsaid(ms: seq<Message>, id: string): seq<Message> {
    if ms == [] then [] else if ms[0].session == id then Unsaid(ms[1..], id) else [ms[0]] + Unsaid(ms[1..], id)
  }

  /** The transaction that removes a session and its messages. */
  function Delete(s: Store, id: string): Store {
    s.(sessions := Without(s.sessions, id), messages := Unsaid(s.messages, id))
  }

  /** INSERT ... ON CONFLICT DO NOTHING. */
  function CreateSession(s: Store, x: Session): Store {
    if Find(s.sessions, x.id).Some? then s else s.(sessions := s.sessions + [x])
  }

  function Touch(ss: seq<Session>, id: string, now: int): seq<Session> {
    if ss == [] then [] else [if ss[0].id == id then ss[0].(updatedAt := now) else ss[0]] + Touch(ss[1..], id, now)
  }

  function AddMessage(s: Store, session: string, role: Role, content: string, now: int): Store {
    s.(messages := s.messages + [Message(s.nextId, session, role, content, now)], nextId := s.nextId + 1)
  }

  // ---- what the writes do to each session ----

  lemma {:induction false} FindWithout(ss: seq<Session>, gone: string, id: string)
    ensures Find(Without(ss, gone), id) == if id == gone then None else Find(ss, id)
  {
    if ss != [] {
      FindWithout(ss[1..], gone, id);
      if ss[0].id != gone { assert ([ss[0]] + Without(ss[1..], gone))[1..] == Without(ss[1..], gone); }
    }
  }

  lemma {:induction false} FindAppend(ss: seq<Session>, x: Session, id: string)
    ensures Find(ss + [x], id) == if Find(ss, id).Some? then Find(ss, id) else if x.id == id then Some(x) else None
  {
    if ss == [] {
      assert ss + [x] == [x];
    } else {
      assert (ss + [x])[1..] == ss[1..] + [x];
      FindAppend(ss[1..], x, id);
    }
  }

  lemma {:induction false} FindTouch(ss: seq<Session>, touched: string, now: int, id: string)
    ensures Find(Touch(ss, touched, now), id) ==
      if id == touched && Find(ss, id).Some? then Some(Find(ss, id).value.(updatedAt := now)) else Find(ss, id)
  {
    if ss != [] { FindTouch(ss[1..], touched, now, id); }
  }

  lemma {:induction false} FindIs(ss: seq<Session>, id: string)
    ensures Find(ss, id).Some? ==> Find(ss, id).value in ss && Find(ss, id).value.id == id
    ensures Find(ss, id).None? ==> forall x :: x in ss ==> x.id != id
  {
    if ss != [] { FindIs(ss[1..], id); }
  }

  lemma {:induction false} LogUnsaid(ms: seq<Message>, gone: string, id: string)
    ensures Log(Unsaid(ms, gone), id) == if id == gone then [] else Log(ms, id)
  {
    if ms != [] {
      LogUnsaid(ms[1..], gone, id);
      if ms[0].session != gone { assert ([ms[0]] + Unsaid(ms[1..], gone))[1..] == Unsaid(ms[1..], gone); }
    }
  }

  lemma {:induction false} LogAppend(ms: seq<Message>, m: Message, id: string)
    ensures Log(ms + [m], id) == Log(ms, id) + if m.session == id then [m] else []
  {
    if ms == [] {
      assert ms + [m] == [m];
    } else {
      assert (ms + [m])[1..] == ms[1..] + [m];
      LogAppend(ms[1..], m, id);
    }
  }

  lemma {:induction false} LogIsOfTheSession(ms: seq<Message>, id: string)
    ensures forall m :: m in Log(ms, id) ==> m.session == id && m in ms
  {
    if ms != [] { LogIsOfTheSession(ms[1..], id); }
  }

  /** A session without a message in its log has none in the table. */
  lemma {:induction false} LogIsEmptyIff(ms: seq<Message>, id: string)
    ensures Log(ms, id) == [] <==> forall m :: m in ms ==> m.session != id
  {
    if ms != [] { LogIsEmptyIff(ms[1..], id); }
  }

  lemma {:induction false} CountAppend(ss: seq<Session>, x: Session, user: nat)
    ensures Count(ss + [x], user) == Count(ss, user) + if x.user == user then 1 else 0
  {
    if ss == [] {
      assert ss + [x] == [x];
    } else {
      assert (ss + [x])[1..] == ss[1..] + [x];
      CountAppend(ss[1..], x, user);
    }
  }

  lemma {:induction false} CountTouch(ss: seq<Session>, id: string, now: int, user: nat)
    ensures Count(Touch(ss, id, now), user) == Count(ss, user)
  {
    if ss != [] { CountTouch(ss[1..], id, now, user); }
  }

  lemma {:induction false} CountWithout(ss: seq<Session>, gone: string, user: nat)
    ensures Count(Without(ss, gone), user) <= Count(ss, user)
  {
    if ss != [] {
      CountWithout(ss[1..], gone, user);
      if ss[0].id != gone { assert ([ss[0]] + Without(ss[1..], gone))[1..] == Without(ss[1..], gone); }
    }
  }

  /** The oldest session is the user's own, and none of the user's sessions precedes it. */
  lemma {:induction false} OldestIsOldest(ss: seq<Session>, user: nat)
    ensures Oldest(ss, user).None? <==> Count(ss, user) == 0
    ensures Oldest(ss, user).None? ==> forall x :: x in ss ==> x.user != user
    ensures Oldest(ss, user).Some? ==> Oldest(ss, user).value in ss && Oldest(ss, user).value.user == user
    ensures Oldest(ss, user).Some? ==> forall x :: x in ss && x.user == user ==> !Before(x, Oldest(ss, user).value)
  {
    if ss != [] {
      OldestIsOldest(ss[1..], user);
      forall x | x in ss && x.user == user ensures Oldest(ss, user).Some? && !Before(x, Oldest(ss, user).value) {
        LessTrichotomy(x.id, x.id);
        OldestStep(ss[0], Oldest(ss[1..], user), x);
        assert x == ss[0] || x in ss[1..];
      }
    }
  }

  lemma OldestStep(head: Session, rest: Option<Session>, x: Session)
    requires rest.Some? ==> x == head || !Before(x, rest.value)
    ensures rest.Some? && Before(rest.value, head) ==> !Before(head, rest.value)
    ensures rest.Some? && !Before(rest.value, head) ==> !Before(x, head)
    ensures !Before(head, head)
  {
    LessTrichotomy(head.id, head.id);
    if rest.Some? {
      LessTrichotomy(head.id, rest.value.id);
      LessTrichotomy(x.id, rest.value.id);
      if Less(x.id, head.id) && Less(head.id, rest.value.id) { LessTransitive(x.id, head.id, rest.value.id); }
    }
  }

  // ---- insertion order is id order ----

  ghost predicate Increasing(ms: seq<Message>) {
    forall i, j :: 0 <= i < j < |ms| ==> ms[i].id < ms[j].id
  }

  ghost predicate Numbered(s: Store) {
    Increasing(s.messages) && forall i :: 0 <= i < |s.messages| ==> s.messages[i].id < s.nextId
  }

  lemma {:induction false} UnsaidIncreasing(ms: seq<Message>, gone: string)
    requires Increasing(ms)
    ensures Increasing(Unsaid(ms, gone)) && forall m :: m in Unsaid(ms, gone) ==> m in ms
  {
    if ms != [] {
      UnsaidIncreasing(ms[1..], gone);
      forall m | m in Unsaid(ms[1..], gone) ensures ms[0].id < m.id { assert m in ms[1..]; }
    }
  }

  /** A session's messages are listed by increasing id. */
  lemma {:induction false} LogIncreasing(ms: seq<Message>, id: string)
    requires Increasing(ms)
    ensures Increasing(Log(ms, id))
  {
    if ms != [] {
      LogIncreasing(ms[1..], id);
      LogIsOfTheSession(ms[1..], id);
      forall m | m in Log(ms[1..], id) ensures ms[0].id < m.id { assert m in ms[1..]; }
    }
  }

  lemma DeleteKeepsNumbered(s: Store, id: string)
    requires Numbered(s)
    ensures Numbered(Delete(s, id))
  {
    UnsaidIncreasing(s.messages, id);
    forall m | m in Unsaid(s.messages, id) ensures m.id < s.nextId { assert m in s.messages; }
  }
}
