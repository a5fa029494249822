/**
 The conversation service (internal/service/chat/chat_service.go:56-147, 162-217): each
 request is atomic, any of its store calls may fail, and the client chooses the session id.
 */
module Chat {
  import opened Prelude
  import opened Strings
  import opened ChatStore

  const MAX_SESSIONS := 20
  const TITLE_MAX := 80
  const FALLBACK := "Mohon maaf, terjadi kendala saat memproses pertanyaan Anda. Silakan coba lagi."

  /** What fails during one request. */
  datatype Faults = Faults(getFails: bool, countFails: bool, oldestFails: bool, deleteFails: bool, createFails: bool,
                           questionFails: bool, answerFails: bool, touchFails: bool)

  /** `answer` is what the AI service says, None when the call fails or times out. */
  datatype Request = Request(user: nat, org: string, session: string, question: string, answer: Option<string>,
                             now: int, answeredAt: int)

  datatype Reply = Answered(answer: string) | Deleted | InvalidSession | SessionNotFound | Failed

  predicate IdChar(c: char) {
    'a' <= c <= 'z' || 'A' <= c <= 'Z' || '0' <= c <= '9' || c == '-'
  }

  predicate ValidId(id: string) {
    8 <= |id| <= 64 && forall i :: 0 <= i < |id| ==> IdChar(id[i])
  }

  /** A session id has 8 to 64 characters, and ids of each of these lengths are accepted. */
  lemma IdsOfLengthIff(n: nat)
    ensures (exists id :: |id| == n && ValidId(id)) <==> 8 <= n <= 64
  {
    var id := seq(n, _ => 'a');
    assert |id| == n && (8 <= n <= 64 ==> ValidId(id));
  }

  function Title(question: string): string {
    var q := Trim(question);
    if |q| > TITLE_MAX then q[..TITLE_MAX] else q
  }

  // ---- the requests ----

  /** The sliding window: room for one more session, if the store allows. */
  function Enforce(s: Store, user: nat, f: Faults): (Store, bool) {
    if f.countFails then (s, false)
    else if Count(s.sessions, user) < MAX_SESSIONS then (s, true)
    else if f.oldestFails then (s, false)
    else
      match Oldest(s.sessions, user)
      case None => (s, true)
      case Some(x) => if f.deleteFails then (s, false) else (Delete(s, x.id), true)
  }

  function NewSession(r: Request): Session {
    Session(r.session, r.user, r.org, Title(r.question), r.now, r.now)
  }

  function Open(s: Store, r: Request, f: Faults): (Store, bool) {
    var (s', ok) := Enforce(s, r.user, f);
    if !ok || f.createFails then (s', false) else (CreateSession(s', NewSession(r)), true)
  }

  function AnswerTo(r: Request): string {
    if r.answer.Some? then r.answer.value else FALLBACK
  }

  /** Save the question, ask, save the answer, touch the session. */
  function Converse(s: Store, r: Request, f: Faults): (Store, Reply) {
    if f.questionFails then (s, Failed)
    else
      var asked := AddMessage(s, r.session, FromUser, r.question, r.now);
      if f.answerFails then (asked, Failed)
      else
        var said := AddMessage(asked, r.session, FromAssistant, AnswerTo(r), r.answeredAt);
        (if f.touchFails then said else said.(sessions := Touch(said.sessions, r.session, r.now)), Answered(AnswerTo(r)))
  }

  function Ask(s: Store, r: Request, f: Faults): (Store, Reply) {
    if !ValidId(r.session) then (s, InvalidSession)
    else if f.getFails then (s, Failed)
    else
      match Find(s.sessions, r.session)
      case Some(x) => if x.user != r.user then (s, SessionNotFound) else Converse(s, r, f)
      case None =>
        var (ready, ok) := Open(s, r, f);
        if ok then Converse(ready, r, f) else (ready, Failed)
  }

  function Remove(s: Store, id: string, user: nat, f: Faults): (Store, Reply) {
    if f.getFails then (s, Failed)
    else
      match Find(s.sessions, id)
      case None => (s, SessionNotFound)
      case Some(x) =>
        if x.user != user then (s, SessionNotFound)
        else if f.deleteFails then (s, Failed)
        else (Delete(s, id), Deleted)
  }

  // ---- what a request does to the sessions ----

  /** The session an `Ask` evicts: only for a new id, at the cap. */
  function Evicted(s: Store, r: Request, f: Faults): Option<Session> {
    if ValidId(r.session) && !f.getFails && Find(s.sessions, r.session).None?
      && !f.countFails && Count(s.sessions, r.user) >= MAX_SESSIONS && !f.oldestFails && !f.deleteFails
    then Oldest(s.sessions, r.user)
    else None
  }

  /** The same row, except perhaps for the time it was last touched. */
  predicate SameSession(a: Session, b: Session) {
    a.(updatedAt := 0) == b.(updatedAt := 0)
  }

  lemma EvictedIsOwnOldest(s: Store, r: Request, f: Faults)
    ensures Evicted(s, r, f).Some? ==>
      var x := Evicted(s, r, f).value;
      x in s.sessions && x.user == r.user && forall y :: y in s.sessions && y.user == r.user ==> !Before(y, x)
  {
    OldestIsOldest(s.sessions, r.user);
  }

  lemma ConverseLeavesOthersAlone(s: Store, r: Request, f: Faults, id: string)
    requires id != r.session
    ensures var s' := Converse(s, r, f).0;
      Find(s'.sessions, id) == Find(s.sessions, id) && Log(s'.messages, id) == Log(s.messages, id)
  {
    var question := Message(s.nextId, r.session, FromUser, r.question, r.now);
    LogAppend(s.messages, question, id);
    LogAppend(s.messages + [question], Message(s.nextId + 1, r.session, FromAssistant, AnswerTo(r), r.answeredAt), id);
    FindTouch(s.sessions, r.session, r.now, id);
  }

  lemma OpenLeavesOthersAlone(s: Store, r: Request, f: Faults, id: string)
    requires id != r.session && ValidId(r.session) && !f.getFails && Find(s.sessions, r.session).None?
    ensures var (s', gone) := (Open(s, r, f).0, Evicted(s, r, f));
      if gone.Some? && gone.value.id == id then Find(s'.sessions, id) == None && Log(s'.messages, id) == []
      else Find(s'.sessions, id) == Find(s.sessions, id) && Log(s'.messages, id) == Log(s.messages, id)
  {
    var s' := Enforce(s, r.user, f).0;
    if Evicted(s, r, f).Some? {
      var gone := Evicted(s, r, f).value.id;
      FindWithout(s.sessions, gone, id);
      LogUnsaid(s.messages, gone, id);
    }
    FindAppend(s'.sessions, NewSession(r), id);
  }

  /** An `Ask` leaves every other session's row and messages alone, except the one it evicts, which is gone with its messages. */
  lemma AskLeavesOthersAlone(s: Store, r: Request, f: Faults, id: string)
    requires id != r.session
    ensures var (s', gone) := (Ask(s, r, f).0, Evicted(s, r, f));
      if gone.Some? && gone.value.id == id then Find(s'.sessions, id) == None && Log(s'.messages, id) == []
      else Find(s'.sessions, id) == Find(s.sessions, id) && Log(s'.messages, id) == Log(s.messages, id)
  {
    if ValidId(r.session) && !f.getFails {
      if Find(s.sessions, r.session).Some? {
        ConverseLeavesOthersAlone(s, r, f, id);
      } else {
        OpenLeavesOthersAlone(s, r, f, id);
        ConverseLeavesOthersAlone(Open(s, r, f).0, r, f, id);
      }
    }
  }

  predicate Says(m: Message, session: string, role: Role, content: string, at: int) {
    m.session == session && m.role == role && m.content == content && m.createdAt == at
  }

  /** What the AI said, or the apology when it said nothing. */
  predicate IsAnswer(text: string, r: Request) {
    match r.answer
    case Some(a) => text == a
    case None => text == FALLBACK
  }

  /** The messages an `Ask` adds to its session: the question, and the answer it replies. */
  predicate IsTurn(added: seq<Message>, r: Request, reply: Reply) {
    && |added| <= 2 && (|added| == 2 <==> reply.Answered?)
    && (|added| >= 1 ==> Says(added[0], r.session, FromUser, r.question, r.now))
    && (|added| == 2 ==> Says(added[1], r.session, FromAssistant, reply.answer, r.answeredAt) && IsAnswer(reply.answer, r))
  }

  /** The row of a session the request opens: the title is the question without the spaces around it, cut at 80. */
  ghost predicate IsNewRow(x: Session, r: Request) {
    && x.id == r.session && x.user == r.user && x.org == r.org && x.createdAt == r.now
    && exists q :: IsTrimmed(r.question, q) && x.title <= q && |x.title| == if |q| <= TITLE_MAX then |q| else TITLE_MAX
  }

  lemma NewSessionIsNewRow(x: Session, r: Request)
    requires SameSession(x, NewSession(r))
    ensures IsNewRow(x, r)
  {
    TrimIs(r.question);
    assert Title(r.question) <= Trim(r.question);
  }

  lemma ConverseSpeaks(s: Store, r: Request, f: Faults)
    requires Find(s.sessions, r.session).Some?
    ensures var (s', reply) := Converse(s, r, f);
      && Find(s'.sessions, r.session).Some? && SameSession(Find(s'.sessions, r.session).value, Find(s.sessions, r.session).value)
      && Log(s.messages, r.session) <= Log(s'.messages, r.session)
      && IsTurn(Log(s'.messages, r.session)[|Log(s.messages, r.session)|..], r, reply)
  {
    var question := Message(s.nextId, r.session, FromUser, r.question, r.now);
    LogAppend(s.messages, question, r.session);
    LogAppend(s.messages + [question], Message(s.nextId + 1, r.session, FromAssistant, AnswerTo(r), r.answeredAt), r.session);
    FindTouch(s.sessions, r.session, r.now, r.session);
  }

  lemma OpenCreates(s: Store, r: Request, f: Faults)
    requires Find(s.sessions, r.session).None? && Log(s.messages, r.session) == []
    ensures var (s', ok) := Open(s, r, f);
      && Log(s'.messages, r.session) == []
      && Find(s'.sessions, r.session) == if ok then Some(NewSession(r)) else None
  {
    var s' := Enforce(s, r.user, f).0;
    if s' != s {
      var gone := Oldest(s.sessions, r.user).value.id;
      FindWithout(s.sessions, gone, r.session);
      LogUnsaid(s.messages, gone, r.session);
    }
    FindAppend(s'.sessions, NewSession(r), r.session);
  }

  /** No message without its session. */
  ghost predicate NoOrphans(s: Store) {
    forall m :: m in s.messages ==> Find(s.sessions, m.session).Some?
  }

  /** The session an `Ask` talks in belongs to the caller, keeps its row, and gains this turn and nothing else. */
  lemma AskSpeaksInOwnSession(s: Store, r: Request, f: Faults)
    requires NoOrphans(s)
    ensures var (s', reply) := Ask(s, r, f);
      var before, after := Log(s.messages, r.session), Log(s'.messages, r.session);
      && before <= after && IsTurn(after[|before|..], r, reply)
      && (before != after ==> Find(s'.sessions, r.session).Some? && Find(s'.sessions, r.session).value.user == r.user)
      && (match Find(s.sessions, r.session)
          case Some(x) => Find(s'.sessions, r.session).Some? && SameSession(Find(s'.sessions, r.session).value, x)
          case None =>
            before == [] && (Find(s'.sessions, r.session).None? || IsNewRow(Find(s'.sessions, r.session).value, r)))
  {
    hide IsNewRow, Says, Enforce;
    LogIsEmptyIff(s.messages, r.session);
    if ValidId(r.session) && !f.getFails {
      if Find(s.sessions, r.session).Some? {
        ConverseSpeaks(s, r, f);
      } else {
        OpenCreates(s, r, f);
        if Open(s, r, f).1 {
          ConverseSpeaks(Open(s, r, f).0, r, f);
          NewSessionIsNewRow(Find(Ask(s, r, f).0.sessions, r.session).value, r);
        }
      }
    }
  }

  // ---- when a request is answered ----

  /** A new session may be opened: the store works and the user has fewer than 20, or loses the oldest. */
  predicate HasRoom(s: Store, user: nat, f: Faults) {
    !f.countFails && (Count(s.sessions, user) < MAX_SESSIONS || (!f.oldestFails && !f.deleteFails))
  }

  /** The session is the caller's, or new and opened. */
  predicate InOwnSession(s: Store, r: Request, f: Faults) {
    match Find(s.sessions, r.session)
    case Some(x) => x.user == r.user
    case None => HasRoom(s, r.user, f) && !f.createFails
  }

  predicate IsForeign(s: Store, id: string, user: nat) {
    Find(s.sessions, id).Some? && Find(s.sessions, id).value.user != user
  }

  /** Each reply is given exactly when the id, the session and the store ask for it. */
  lemma AskAnswersIff(s: Store, r: Request, f: Faults)
    ensures var reply := Ask(s, r, f).1;
      && (reply.Answered? <==> ValidId(r.session) && !f.getFails && InOwnSession(s, r, f) && !f.questionFails && !f.answerFails)
      && (reply == InvalidSession <==> !ValidId(r.session))
      && (reply == SessionNotFound <==> ValidId(r.session) && !f.getFails && IsForeign(s, r.session, r.user))
      && (reply.Answered? || reply == InvalidSession || reply == SessionNotFound || reply == Failed)
  {
    OldestIsOldest(s.sessions, r.user);
  }

  /** An answered question is the latest thing in its session, unless the store fails to note the time. */
  lemma AnsweringTouches(s: Store, r: Request, f: Faults)
    requires NoOrphans(s) && Ask(s, r, f).1.Answered? && !f.touchFails
    ensures var x := Find(Ask(s, r, f).0.sessions, r.session);
      x.Some? && x.value.updatedAt == r.now
  {
    LogIsEmptyIff(s.messages, r.session);
    var ready := s;
    if Find(s.sessions, r.session).None? {
      OpenCreates(s, r, f);
      ready := Open(s, r, f).0;
    }
    FindTouch(ready.sessions, r.session, r.now, r.session);
  }

  // ---- the invariant of every run ----

  /** (user assistant?)*: an answer directly follows a question. */
  predicate Alternates(log: seq<Message>) {
    forall i :: 0 <= i < |log| && log[i].role == FromAssistant ==> i > 0 && log[i - 1].role == FromUser
  }

  ghost predicate Valid(s: Store) {
    && NoOrphans(s)
    && (forall user: nat :: Count(s.sessions, user) <= MAX_SESSIONS)
    && (forall id :: Alternates(Log(s.messages, id)))
  }

  lemma EnforceMakesRoom(s: Store, user: nat, f: Faults, other: nat)
    requires Count(s.sessions, user) <= MAX_SESSIONS
    ensures Count(Enforce(s, user, f).0.sessions, other) <= Count(s.sessions, other)
    ensures Enforce(s, user, f).1 ==> Count(Enforce(s, user, f).0.sessions, user) < MAX_SESSIONS
  {
    OldestIsOldest(s.sessions, user);
    var oldest := Oldest(s.sessions, user);
    if oldest.Some? {
      CountWithout(s.sessions, oldest.value.id, other);
      RemovingARow(s.sessions, oldest.value);
    }
  }

  /** Removing a row's id takes at least one session away from its owner. */
  lemma {:induction false} RemovingARow(ss: seq<Session>, x: Session)
    requires x in ss
    ensures Count(Without(ss, x.id), x.user) < Count(ss, x.user)
  {
    CountWithout(ss[1..], x.id, x.user);
    if ss[0].id != x.id {
      RemovingARow(ss[1..], x);
      assert ([ss[0]] + Without(ss[1..], x.id))[1..] == Without(ss[1..], x.id);
    } else if ss[0] != x {
      RemovingARow(ss[1..], x);
    }
  }

  lemma AskKeepsCounts(s: Store, r: Request, f: Faults, user: nat)
    requires Valid(s)
    ensures Count(Ask(s, r, f).0.sessions, user) <= MAX_SESSIONS
  {
    EnforceMakesRoom(s, r.user, f, user);
    var ready := Open(s, r, f).0;
    CountAppend(Enforce(s, r.user, f).0.sessions, NewSession(r), user);
    CountTouch(s.sessions, r.session, r.now, user);
    CountTouch(ready.sessions, r.session, r.now, user);
  }

  lemma AskKeepsNoOrphans(s: Store, r: Request, f: Faults, m: Message)
    requires NoOrphans(s) && m in Ask(s, r, f).0.messages
    ensures Find(Ask(s, r, f).0.sessions, m.session).Some?
  {
    LogIsEmptyIff(Ask(s, r, f).0.messages, m.session);
    LogIsEmptyIff(s.messages, m.session);
    if m.session == r.session { AskSpeaksInOwnSession(s, r, f); } else { AskLeavesOthersAlone(s, r, f, m.session); }
  }

  lemma TurnAlternates(before: seq<Message>, after: seq<Message>, r: Request, reply: Reply)
    requires Alternates(before) && before <= after && IsTurn(after[|before|..], r, reply)
    ensures Alternates(after)
  {
    assert after == before + after[|before|..];
  }

  lemma AskKeepsValid(s: Store, r: Request, f: Faults)
    requires Valid(s)
    ensures Valid(Ask(s, r, f).0)
  {
    var (s', reply) := Ask(s, r, f);
    forall m | m in s'.messages ensures Find(s'.sessions, m.session).Some? { AskKeepsNoOrphans(s, r, f, m); }
    forall user: nat ensures Count(s'.sessions, user) <= MAX_SESSIONS { AskKeepsCounts(s, r, f, user); }
    forall id ensures Alternates(Log(s'.messages, id)) {
      if id == r.session {
        AskSpeaksInOwnSession(s, r, f);
        TurnAlternates(Log(s.messages, id), Log(s'.messages, id), r, reply);
      } else {
        AskLeavesOthersAlone(s, r, f, id);
      }
    }
  }

  /** Deleting removes the caller's own session with its messages, or changes nothing. */
  lemma RemoveIsExact(s: Store, id: string, user: nat, f: Faults, other: string)
    ensures var (s', reply) := Remove(s, id, user, f);
      && (reply == Deleted <==> !f.getFails && !f.deleteFails && Find(s.sessions, id).Some? && Find(s.sessions, id).value.user == user)
      && (reply == SessionNotFound <==> !f.getFails && (Find(s.sessions, id).None? || Find(s.sessions, id).value.user != user))
      && (reply != Deleted ==> s' == s)
      && Find(s'.sessions, other) == (if reply == Deleted && other == id then None else Find(s.sessions, other))
      && Log(s'.messages, other) == (if reply == Deleted && other == id then [] else Log(s.messages, other))
      && Count(s'.sessions, user) <= Count(s.sessions, user)
  {
    FindWithout(s.sessions, id, other);
    LogUnsaid(s.messages, id, other);
    CountWithout(s.sessions, id, user);
  }

  lemma RemoveKeepsValid(s: Store, id: string, user: nat, f: Faults)
    requires Valid(s)
    ensures Valid(Remove(s, id, user, f).0)
  {
    var s' := Remove(s, id, user, f).0;
    forall m | m in s'.messages ensures Find(s'.sessions, m.session).Some? {
      RemoveIsExact(s, id, user, f, m.session);
      LogIsEmptyIff(s'.messages, m.session);
      LogIsEmptyIff(s.messages, m.session);
    }
    forall u: nat ensures Count(s'.sessions, u) <= MAX_SESSIONS { CountWithout(s.sessions, id, u); }
    forall other ensures Alternates(Log(s'.messages, other)) { RemoveIsExact(s, id, user, f, other); }
  }

  datatype Event = Asks(r: Request, f: Faults) | Removes(id: string, user: nat, f: Faults)

  function Next(s: Store, ev: Event): Store {
    match ev
    case Asks(r, f) => Ask(s, r, f).0
    case Removes(id, user, f) => Remove(s, id, user, f).0
  }

  function After(s: Store, run: seq<Event>): Store {
    if run == [] then s else Next(After(s, run[..|run| - 1]), run[|run| - 1])
  }

  /**
   Over every run, with any store call failing: at most 20 sessions a user, every message
   in a live session, and every log of the form (user assistant?)*.
   */
  lemma {:induction false} RunsStayValid(s: Store, run: seq<Event>)
    requires Valid(s)
    ensures Valid(After(s, run))
  {
    if run != [] {
      RunsStayValid(s, run[..|run| - 1]);
      var last, ev := After(s, run[..|run| - 1]), run[|run| - 1];
      match ev
      case Asks(r, f) => AskKeepsValid(last, r, f);
      case Removes(id, user, f) => RemoveKeepsValid(last, id, user, f);
    }
  }

  lemma AddKeepsNumbered(s: Store, session: string, role: Role, content: string, now: int)
    requires Numbered(s)
    ensures Numbered(AddMessage(s, session, role, content, now))
  {
  }

  lemma ConverseKeepsNumbered(s: Store, r: Request, f: Faults)
    requires Numbered(s)
    ensures Numbered(Converse(s, r, f).0)
  {
    AddKeepsNumbered(s, r.session, FromUser, r.question, r.now);
    AddKeepsNumbered(AddMessage(s, r.session, FromUser, r.question, r.now), r.session, FromAssistant, AnswerTo(r), r.answeredAt);
  }

  lemma OpenKeepsNumbered(s: Store, r: Request, f: Faults)
    requires Numbered(s)
    ensures Numbered(Open(s, r, f).0)
  {
    var oldest := Oldest(s.sessions, r.user);
    if oldest.Some? { DeleteKeepsNumbered(s, oldest.value.id); }
  }

  lemma AskKeepsNumbered(s: Store, r: Request, f: Faults)
    requires Numbered(s)
    ensures Numbered(Ask(s, r, f).0)
  {
    OpenKeepsNumbered(s, r, f);
    ConverseKeepsNumbered(s, r, f);
    ConverseKeepsNumbered(Open(s, r, f).0, r, f);
  }

  /** Over every run message ids increase in insertion order, so a log read by id is read in the order it was written. */
  lemma {:induction false} MessageIdsIncrease(s: Store, run: seq<Event>, id: string)
    requires Numbered(s)
    ensures Numbered(After(s, run)) && Increasing(Log(After(s, run).messages, id))
  {
    if run != [] {
      MessageIdsIncrease(s, run[..|run| - 1], id);
      var last, ev := After(s, run[..|run| - 1]), run[|run| - 1];
      match ev
      case Asks(r, f) => AskKeepsNumbered(last, r, f);
      case Removes(gone, user, f) => DeleteKeepsNumbered(last, gone);
    }
    LogIncreasing(After(s, run).messages, id);
  }

  lemma StepKeepsOwner(s: Store, ev: Event, id: string)
    requires NoOrphans(s) && Find(s.sessions, id).Some? && Find(Next(s, ev).sessions, id).Some?
    ensures SameSession(Find(Next(s, ev).sessions, id).value, Find(s.sessions, id).value)
  {
    match ev
    case Asks(r, f) => if r.session == id { AskSpeaksInOwnSession(s, r, f); } else { AskLeavesOthersAlone(s, r, f, id); }
    case Removes(gone, user, f) => RemoveIsExact(s, gone, user, f, id);
  }

  /** While a session lives, its owner, organization, title and creation time never change. */
  lemma {:induction false} OwnersNeverChange(s: Store, run: seq<Event>, id: string)
    requires Valid(s)
    requires forall k :: 0 <= k <= |run| ==> Find(After(s, run[..k]).sessions, id).Some?
    ensures Find(s.sessions, id).Some? && Find(After(s, run).sessions, id).Some?
    ensures SameSession(Find(After(s, run).sessions, id).value, Find(s.sessions, id).value)
  {
    assert run[..0] == [] && run[..|run|] == run;
    if run != [] {
      var most := run[..|run| - 1];
      forall k | 0 <= k <= |most| ensures Find(After(s, most[..k]).sessions, id).Some? { assert most[..k] == run[..k]; }
      OwnersNeverChange(s, most, id);
      RunsStayValid(s, most);
      StepKeepsOwner(After(s, most), run[|run| - 1], id);
    }
  }

  // ---- the service as the source writes it ----

  datatype MessageView = MessageView(id: nat, role: Role, content: string, createdAt: int)

  datatype Detail = Detail(title: string, org: string, messages: seq<MessageView>) | NoDetail(why: Reply)

  predicate Shows(v: MessageView, m: Message) {
    v.id == m.id && v.role == m.role && v.content == m.content && v.createdAt == m.createdAt
  }

  class ChatService {
    var sessions: seq<Session>
    var messages: seq<Message>
    var nextId: nat

    ghost function Now(): Store
      reads this
    {
      Store(sessions, messages, nextId)
    }

    constructor ()
      ensures Now() == Store([], [], 0)
    {
      sessions, messages, nextId := [], [], 0;
    }

    method EnforceSlidingWindow(user: nat, f: Faults) returns (ok: bool)
      modifies this
      ensures (Now(), ok) == Enforce(old(Now()), user, f)
    {
      if f.countFails { return false; }
      if Count(sessions, user) < MAX_SESSIONS { return true; }
      if f.oldestFails { return false; }
      var oldest := Oldest(sessions, user);
      if oldest.None? { return true; }
      if f.deleteFails { return false; }
      sessions, messages := Without(sessions, oldest.value.id), Unsaid(messages, oldest.value.id);
      return true;
    }

    method Add(session: string, role: Role, content: string, now: int)
      modifies this
      ensures Now() == AddMessage(old(Now()), session, role, content, now)
    {
      messages := messages + [Message(nextId, session, role, content, now)];
      nextId := nextId + 1;
    }

    method AskQuestion(r: Request, f: Faults) returns (reply: Reply)
      modifies this
      ensures (Now(), reply) == Ask(old(Now()), r, f)
    {
      if !ValidId(r.session) { return InvalidSession; }
      if f.getFails { return Failed; }
      var found := Find(sessions, r.session);
      if found.Some? && found.value.user != r.user { return SessionNotFound; }
      if found.None? {
        var ok := EnforceSlidingWindow(r.user, f);
        if !ok || f.createFails { return Failed; }
        if Find(sessions, r.session).None? { sessions := sessions + [NewSession(r)]; }
      }
      if f.questionFails { return Failed; }
      Add(r.session, FromUser, r.question, r.now);
      var answer := FALLBACK;
      if r.answer.Some? { answer := r.answer.value; }
      if f.answerFails { return Failed; }
      Add(r.session, FromAssistant, answer, r.answeredAt);
      if !f.touchFails { sessions := Touch(sessions, r.session, r.now); }
      return Answered(answer);
    }

    method RemoveSession(id: string, user: nat, f: Faults) returns (reply: Reply)
      modifies this
      ensures (Now(), reply) == Remove(old(Now()), id, user, f)
    {
      if f.getFails { return Failed; }
      var found := Find(sessions, id);
      if found.None? || found.value.user != user { return SessionNotFound; }
      if f.deleteFails { return Failed; }
      sessions, messages := Without(sessions, id), Unsaid(messages, id);
      return Deleted;
    }

    /** The owner gets exactly the session's messages, in order; anyone else learns nothing. */
    method GetSessionDetail(id: string, user: nat, getFails: bool, listFails: bool) returns (d: Detail)
      ensures d.Detail? <==> !getFails && !listFails && Find(sessions, id).Some? && Find(sessions, id).value.user == user
      ensures d.Detail? ==> d.title == Find(sessions, id).value.title && d.org == Find(sessions, id).value.org
      ensures d.Detail? ==> |d.messages| == |Log(messages, id)|
      ensures d.Detail? ==> forall i :: 0 <= i < |d.messages| ==> Shows(d.messages[i], Log(messages, id)[i])
      ensures d.NoDetail? ==> d.why == (if getFails || (Find(sessions, id).Some? && Find(sessions, id).value.user == user) then Failed else SessionNotFound)
    {
      if getFails { return NoDetail(Failed); }
      var found := Find(sessions, id);
      if found.None? || found.value.user != user { return NoDetail(SessionNotFound); }
      if listFails { return NoDetail(Failed); }
      var log := Log(messages, id);
      var out: seq<MessageView> := [];
      for k := 0 to |log|
        invariant |out| == k
        invariant forall i :: 0 <= i < k ==> Shows(out[i], log[i])
      {
        out := out + [MessageView(log[k].id, log[k].role, log[k].content, log[k].createdAt)];
      }
      return Detail(found.value.title, found.value.org, out);
    }
  }
}
