/**
 Bounded staleness of every cached read, organizations and documents alike, when reads
 and writes interleave step by step and invalidations may be lost: a reader may be
 overtaken between its database read and its cache set. A served text was the database's
 answer at an instant no earlier than now - TTL - (the filling reader's delay between its
 read and its set), exactly when the TTL is positive: the Redis client takes any other
 for "no expiry", and the configuration accepts it (internal/config/config.go:136).
 */
module CacheStaleness {
  import opened Prelude
  import opened CacheKeys
  import Repo = OrganizationRepository
  import opened SharedCache
  import OC = OrganizationCache
  import DC = DocumentCache

  type Time = int

  /** The two scopes on one key are told apart in DocumentCache.OtherScopeIsRightIff; here "__all__" is no organization. */
  type Query = r: Read | r != DocListRead(ALL_ORGS) witness ListRead

  datatype Database = Database(orgs: Repo.Table, docs: DC.Log)

  // ---- the five cached reads ----

  function OrgOp(r: Query): OC.Op
    requires r.ExistsRead? || r.GetRead? || r.ListRead?
  {
    match r
    case ExistsRead(code) => OC.Exists(code)
    case GetRead(code) => OC.Get(code)
    case ListRead => OC.List
  }

  /** The text a read caches for the database's answer; a document that is not there is not cached. */
  function FreshText(db: Database, r: Query): Option<Text> {
    match r
    case DocListRead(scope) => Some(DocsText(DC.List(db.docs, scope)))
    case DocRead(id) => (match DC.FindById(db.docs, id) case Some(d) => Some(DocText(d)) case None => None)
    case _ => Some(OC.FreshText(db.orgs, OrgOp(r)))
  }

  datatype Answer = OrgAnswer(org: OC.Reply) | DocAnswer(doc: DC.Reply)

  /** What the bare repositories answer. */
  function BareAnswer(db: Database, r: Query): Answer {
    match r
    case DocListRead(scope) => DocAnswer(DC.BareReply(db.docs, DC.ListOp(scope)))
    case DocRead(id) => DocAnswer(DC.BareReply(db.docs, DC.FindOp(id)))
    case _ => OrgAnswer(OC.BareReply(db.orgs, OrgOp(r)))
  }

  /** What a hit makes of a text: the reply of the cached repositories on a cache holding it. */
  function ReadText(r: Query, v: Text): Option<Answer> {
    match r
    case DocListRead(_) => if v.DocsText? then Some(DocAnswer(DC.Listed(v.ds))) else if v.Null? then Some(DocAnswer(DC.Listed([]))) else None
    case DocRead(_) => if v.DocText? then Some(DocAnswer(DC.Found(Some(v.d)))) else None
    case _ => (match OC.ReadText(OrgOp(r), v) case Some(reply) => Some(OrgAnswer(reply)) case None => None)
  }

  // ---- the steps ----

  /** The database's contents from `at` until the next version. */
  datatype Version = Version(at: Time, db: Database)

  /** A cache entry with its expiry, if it has one; `query`, `readAt` and `setAt` are history no step reads. */
  datatype Entry = Entry(text: Text, expires: Option<Time>, query: Query, readAt: Time, setAt: Time)

  /** A reader that missed, has the database's answer and is about to set it. */
  datatype Reader = Reader(query: Query, text: Text, readAt: Time)

  datatype State = State(now: Time, history: seq<Version>, entries: map<string, Entry>, readers: map<nat, Reader>)

  /** Committed writes and their invalidations are steps of their own; a lost invalidation is one that never happens. */
  datatype Action =
    | Tick(d: nat)
    | WriteOrgs(table: Repo.Table)
    | InvalidateOrg(code: string)
    | AppendDoc(doc: Doc)            // SaveLog of a completed upload
    | InvalidateDocs(org: string)
    | Fetch(r: nat, query: Query)    // database read after a miss
    | Fill(r: nat)                   // cache set
    | GiveUp(r: nat)                 // cache set failed
    | Vanish(keys: set<string>)      // expiry or flush

  predicate Enabled(s: State, a: Action) {
    s.history != [] &&
    match a
    case Fetch(r, _) => r !in s.readers
    case Fill(r) => r in s.readers
    case GiveUp(r) => r in s.readers
    case _ => true
  }

  function Current(s: State): Database
    requires s.history != []
  {
    s.history[|s.history| - 1].db
  }

  /** A TTL that is not positive sets no expiry. */
  function Expiry(setAt: Time, ttl: int): Option<Time> {
    if ttl > 0 then Some(setAt + ttl) else None
  }

  function Write(s: State, db: Database): State {
    s.(history := s.history + [Version(s.now, db)])
  }

  function Next(s: State, a: Action, ttl: int): State
    requires Enabled(s, a)
  {
    match a
    case Tick(d) => s.(now := s.now + d)
    case WriteOrgs(table) => Write(s, Current(s).(orgs := table))
    case InvalidateOrg(code) => s.(entries := s.entries - (set k | k in OrgKeys(code)))
    case AppendDoc(d) => Write(s, Current(s).(docs := Current(s).docs + [d]))
    case InvalidateDocs(org) => s.(entries := s.entries - (set k | k in DocListKeysForOrg(org)))
    case Fetch(r, query) =>
      (match FreshText(Current(s), query)
       case Some(text) => s.(readers := s.readers[r := Reader(query, text, s.now)])
       case None => s)
    case Fill(r) =>
      var x := s.readers[r];
      s.(entries := s.entries[KeyOf(x.query) := Entry(x.text, Expiry(s.now, ttl), x.query, x.readAt, s.now)],
         readers := s.readers - {r})
    case GiveUp(r) => s.(readers := s.readers - {r})
    case Vanish(keys) => s.(entries := s.entries - keys)
  }

  predicate Legal(s: State, run: seq<Action>, ttl: int)
    decreases |run|
  {
    run == [] || (Enabled(s, run[0]) && Legal(Next(s, run[0], ttl), run[1..], ttl))
  }

  function After(s: State, run: seq<Action>, ttl: int): State
    requires Legal(s, run, ttl)
    decreases |run|
  {
    if run == [] then s else After(Next(s, run[0], ttl), run[1..], ttl)
  }

  /** The entry a hit uses: present and not expired. */
  predicate Serves(s: State, q: Query) {
    KeyOf(q) in s.entries && (s.entries[KeyOf(q)].expires.Some? ==> s.now < s.entries[KeyOf(q)].expires.value)
  }

  /** An invalidation takes its three keys out of service and no other read. */
  lemma ServedAfterOrgInvalidationIff(s: State, code: string, q: Query, ttl: int)
    requires s.history != []
    ensures Serves(Next(s, InvalidateOrg(code), ttl), q) <==>
      Serves(s, q) && q != ExistsRead(code) && q != GetRead(code) && q != ListRead
  {
    assert OrgKeys(code)[0] == OrgExists(code) && OrgKeys(code)[1] == OrgGet(code) && OrgKeys(code)[2] == OrgList();
    KeysCollideIff(q, ExistsRead(code));
    KeysCollideIff(q, GetRead(code));
    KeysCollideIff(q, ListRead);
  }

  /** Likewise the two lists a document shows up in. */
  lemma ServedAfterDocsInvalidationIff(s: State, org: string, q: Query, ttl: int)
    requires s.history != []
    ensures Serves(Next(s, InvalidateDocs(org), ttl), q) <==> Serves(s, q) && q != DocListRead(org) && q != DocListRead("")
  {
    assert DocListKeysForOrg(org)[0] == DocList(org) && DocListKeysForOrg(org)[1] == DocList("");
    KeysCollideIff(q, DocListRead(org));
    KeysCollideIff(q, DocListRead(""));
  }

  // ---- the database's answers over time ----

  predicate Holds(history: seq<Version>, i: int, u: Time) {
    0 <= i < |history| && history[i].at <= u && (i + 1 < |history| ==> u <= history[i + 1].at)
  }

  /** `text` encodes the database's answer at instant `u`. */
  ghost predicate AnswerAt(history: seq<Version>, q: Query, u: Time, text: Text) {
    exists i :: Holds(history, i, u) && FreshText(history[i].db, q) == Some(text)
  }

  ghost predicate Timed(s: State) {
    s.history != [] && s.history[|s.history| - 1].at <= s.now
  }

  ghost predicate EntriesOk(s: State, ttl: int) {
    forall k :: k in s.entries ==>
      var e := s.entries[k];
      k == KeyOf(e.query) && e.readAt <= e.setAt <= s.now && e.expires == Expiry(e.setAt, ttl) && AnswerAt(s.history, e.query, e.readAt, e.text)
  }

  ghost predicate ReadersOk(s: State) {
    forall r :: r in s.readers ==>
      s.readers[r].readAt <= s.now && AnswerAt(s.history, s.readers[r].query, s.readers[r].readAt, s.readers[r].text)
  }

  ghost predicate Inv(s: State, ttl: int) {
    Timed(s) && EntriesOk(s, ttl) && ReadersOk(s)
  }

  /** The past does not change when the database moves on. */
  lemma AnswerStays(history: seq<Version>, v: Version, q: Query, u: Time, text: Text)
    requires AnswerAt(history, q, u, text) && u <= v.at
    ensures AnswerAt(history + [v], q, u, text)
  {
    var i :| Holds(history, i, u) && FreshText(history[i].db, q) == Some(text);
    assert Holds(history + [v], i, u) && (history + [v])[i] == history[i];
  }

  lemma WriteKeepsInv(s: State, db: Database, ttl: int)
    requires Inv(s, ttl)
    ensures Inv(Write(s, db), ttl)
  {
    var v := Version(s.now, db);
    forall k | k in s.entries
      ensures AnswerAt(s.history + [v], s.entries[k].query, s.entries[k].readAt, s.entries[k].text)
    {
      AnswerStays(s.history, v, s.entries[k].query, s.entries[k].readAt, s.entries[k].text);
    }
    forall r | r in s.readers
      ensures AnswerAt(s.history + [v], s.readers[r].query, s.readers[r].readAt, s.readers[r].text)
    {
      AnswerStays(s.history, v, s.readers[r].query, s.readers[r].readAt, s.readers[r].text);
    }
  }

  lemma FetchKeepsInv(s: State, a: Action, ttl: int)
    requires Inv(s, ttl) && Enabled(s, a) && a.Fetch?
    ensures Inv(Next(s, a, ttl), ttl)
  {
    assert Holds(s.history, |s.history| - 1, s.now);
  }

  lemma FillKeepsInv(s: State, a: Action, ttl: int)
    requires Inv(s, ttl) && Enabled(s, a) && a.Fill?
    ensures Inv(Next(s, a, ttl), ttl)
  {
  }

  lemma InvStep(s: State, a: Action, ttl: int)
    requires Inv(s, ttl) && Enabled(s, a)
    ensures Inv(Next(s, a, ttl), ttl)
  {
    match a
    case WriteOrgs(table) => WriteKeepsInv(s, Current(s).(orgs := table), ttl);
    case AppendDoc(d) => WriteKeepsInv(s, Current(s).(docs := Current(s).docs + [d]), ttl);
    case Fetch(_, _) => FetchKeepsInv(s, a, ttl);
    case Fill(_) => FillKeepsInv(s, a, ttl);
    case _ =>
  }

  lemma {:induction false} InvRun(s: State, run: seq<Action>, ttl: int)
    requires Inv(s, ttl) && Legal(s, run, ttl)
    ensures Inv(After(s, run, ttl), ttl)
    decreases |run|
  {
    if run != [] {
      InvStep(s, run[0], ttl);
      InvRun(Next(s, run[0], ttl), run[1..], ttl);
    }
  }

  function Initial(db: Database, at: Time): State {
    State(at, [Version(at, db)], map[], map[])
  }

  /** The filling reader's delay between its database read and its set. */
  function Delay(e: Entry): int {
    e.setAt - e.readAt
  }

  lemma ServedTextIsRecent(s: State, ttl: int, q: Query)
    requires EntriesOk(s, ttl) && Serves(s, q) && ttl > 0
    ensures var e := s.entries[KeyOf(q)];
      s.now - ttl - Delay(e) < e.readAt <= s.now && AnswerAt(s.history, q, e.readAt, e.text)
  {
    KeysCollideIff(q, s.entries[KeyOf(q)].query);
  }

  ghost predicate StaleBy(s: State, q: Query, text: Text, bound: int) {
    exists u :: s.now - bound < u <= s.now && AnswerAt(s.history, q, u, text)
  }

  /** Bounded staleness of every text the cache serves, for all five reads, in every run. */
  lemma StalenessIsBounded(db: Database, start: Time, run: seq<Action>, ttl: int, s: State, q: Query)
    requires Legal(Initial(db, start), run, ttl) && s == After(Initial(db, start), run, ttl)
    requires Serves(s, q) && ttl > 0
    ensures var e := s.entries[KeyOf(q)]; StaleBy(s, q, e.text, ttl + Delay(e))
  {
    InvRun(Initial(db, start), run, ttl);
    ServedTextIsRecent(s, ttl, q);
  }

  /** A cached text means the answer it was made from. */
  lemma FreshTextMeansTheAnswer(db: Database, q: Query)
    requires Repo.Sorted(db.orgs) && FreshText(db, q).Some?
    ensures ReadText(q, FreshText(db, q).value) == Some(BareAnswer(db, q))
  {
    if q.ExistsRead? || q.GetRead? || q.ListRead? { OC.FreshTextMeansTheAnswer(db.orgs, OrgOp(q)); }
  }

  /** The reply a hit gives is the bare repository's reply on contents the database held at that instant. */
  lemma ServedReplyIsAnOldReply(s: State, q: Query, text: Text, bound: int)
    requires StaleBy(s, q, text, bound)
    requires forall i :: 0 <= i < |s.history| ==> Repo.Sorted(s.history[i].db.orgs)
    ensures exists i, u ::
      && Holds(s.history, i, u) && s.now - bound < u <= s.now
      && ReadText(q, text) == Some(BareAnswer(s.history[i].db, q))
  {
    var u :| s.now - bound < u <= s.now && AnswerAt(s.history, q, u, text);
    var i :| Holds(s.history, i, u) && FreshText(s.history[i].db, q) == Some(text);
    FreshTextMeansTheAnswer(s.history[i].db, q);
  }

  /** `ReadText` is what the two cached repositories do on a hit. */
  lemma HitsAnswerByReadText(entries: Entries, db: Database, q: Query, f: OC.Faults, g: DC.Faults)
    requires KeyOf(q) in entries && ReadText(q, entries[KeyOf(q)]).Some? && !f.getFails && !g.getFails
    ensures ReadText(q, entries[KeyOf(q)]).value ==
      match q
      case DocListRead(scope) => DocAnswer(DC.CachedStep(DC.World(db.docs, entries), DC.ListOp(scope), g).1)
      case DocRead(id) => DocAnswer(DC.CachedStep(DC.World(db.docs, entries), DC.FindOp(id), g).1)
      case _ => OrgAnswer(OC.CachedStep(OC.World(db.orgs, entries), OrgOp(q), f).1)
  {
  }

  // ---- the bound is met ----

  lemma RunOfOne(s: State, a: Action, rest: seq<Action>, ttl: int)
    requires Enabled(s, a) && Legal(Next(s, a, ttl), rest, ttl)
    ensures Legal(s, [a] + rest, ttl) && After(s, [a] + rest, ttl) == After(Next(s, a, ttl), rest, ttl)
  {
    assert ([a] + rest)[1..] == rest;
  }

  /** The second half: the write, its invalidation, the overtaken set, and a wait that stays short of the expiry, if there is one. */
  lemma OvertakenSet(s: State, write: Action, forget: Action, ttl: int, wait: nat) returns (run: seq<Action>, t: State)
    requires s.history != [] && (ttl <= 0 || wait < ttl) && 0 in s.readers
    requires (write.WriteOrgs? || write.AppendDoc?) && (forget.InvalidateOrg? || forget.InvalidateDocs?)
    ensures Legal(s, run, ttl) && t == After(s, run, ttl)
    ensures t.now == s.now + wait && t.history == Next(s, write, ttl).history
    ensures Serves(t, s.readers[0].query)
    ensures t.entries[KeyOf(s.readers[0].query)].text == s.readers[0].text && Delay(t.entries[KeyOf(s.readers[0].query)]) == s.now - s.readers[0].readAt
  {
    var s3 := Next(s, write, ttl);
    var s4 := Next(s3, forget, ttl);
    var s5 := Next(s4, Fill(0), ttl);
    t := Next(s5, Tick(wait), ttl);
    var last := [Tick(wait)] + [];
    RunOfOne(s5, Tick(wait), [], ttl);
    RunOfOne(s4, Fill(0), last, ttl);
    RunOfOne(s3, forget, [Fill(0)] + last, ttl);
    RunOfOne(s, write, [forget] + ([Fill(0)] + last), ttl);
    run := [write] + ([forget] + ([Fill(0)] + last));
  }

  lemma OvertakenRun(db: Database, q: Query, delay: nat, write: Action, forget: Action, ttl: int, wait: nat) returns (run: seq<Action>, t: State)
    requires (ttl <= 0 || wait < ttl) && FreshText(db, q).Some?
    requires (write.WriteOrgs? || write.AppendDoc?) && (forget.InvalidateOrg? || forget.InvalidateDocs?)
    ensures Legal(Initial(db, 0), run, ttl) && t == After(Initial(db, 0), run, ttl)
    ensures t.now == delay + wait && Serves(t, q)
    ensures t.entries[KeyOf(q)].text == FreshText(db, q).value && Delay(t.entries[KeyOf(q)]) == delay
    ensures t.history == [Version(0, db), Version(delay, Current(Next(Initial(db, 0), write, ttl)))]
  {
    var s := Initial(db, 0);
    var s1 := Next(s, Fetch(0, q), ttl);
    var s2 := Next(s1, Tick(delay), ttl);
    run, t := OvertakenSet(s2, write, forget, ttl, wait);
    RunOfOne(s1, Tick(delay), run, ttl);
    RunOfOne(s, Fetch(0, q), [Tick(delay)] + run, ttl);
    run := [Fetch(0, q)] + ([Tick(delay)] + run);
  }

  const PLN := Repo.Org("pln", "PLN", "", true, 0, 0, false)
  const LIVE := Database([PLN], [])
  const GONE := Database([PLN.(deleted := true)], [])

  /** The run serves an outdated text, `wait` after it was set by a reader delayed by `delay`. */
  ghost predicate ServesStale(db: Database, run: seq<Action>, ttl: int, q: Query, delay: nat, wait: nat) {
    Legal(Initial(db, 0), run, ttl) &&
    var s := After(Initial(db, 0), run, ttl);
    s.now == delay + wait && Serves(s, q) && s.history != [] && FreshText(Current(s), q) != Some(s.entries[KeyOf(q)].text)
  }

  /**
   A successful invalidation does not help a reader under way: a deleted organization is
   "active" at any time short of delay + TTL, and at any time at all when the TTL is not positive.
   */
  lemma OvertakenReaderServesDeletedOrganization(ttl: int, delay: nat, wait: nat)
    requires ttl <= 0 || wait < ttl
    ensures exists run :: ServesStale(LIVE, run, ttl, ExistsRead("pln"), delay, wait)
  {
    var run, t := OvertakenRun(LIVE, ExistsRead("pln"), delay, WriteOrgs(GONE.orgs), InvalidateOrg("pln"), ttl, wait);
    PlnIsDeleted();
    assert ServesStale(LIVE, run, ttl, ExistsRead("pln"), delay, wait);
  }

  lemma PlnIsDeleted()
    ensures FreshText(LIVE, ExistsRead("pln")) == Some(One) && FreshText(GONE, ExistsRead("pln")) == Some(Zero)
  {
    assert Repo.ExistsActive([PLN], "pln") && !Repo.ExistsActive([PLN.(deleted := true)], "pln");
  }

  /** Nor a list reader: a new document is missing from its organization's list for as long. */
  lemma OvertakenReaderHidesDocument(ttl: int, delay: nat, wait: nat, d: Doc)
    requires (ttl <= 0 || wait < ttl) && d.org != ALL_ORGS
    ensures exists run :: ServesStale(Database([], []), run, ttl, DocListRead(d.org), delay, wait)
  {
    var run, t := OvertakenRun(Database([], []), DocListRead(d.org), delay, AppendDoc(d), InvalidateDocs(d.org), ttl, wait);
    assert [d][..0] == [];
    assert DC.List([d], d.org) == [d];
    assert ServesStale(Database([], []), run, ttl, DocListRead(d.org), delay, wait);
  }

  // ---- exactly which TTLs bound staleness ----

  /** What the run serves for the read is no older than `limit` and the filling reader's delay. */
  ghost predicate Respects(ttl: int, limit: int, db: Database, start: Time, run: seq<Action>, q: Query) {
    Legal(Initial(db, start), run, ttl) && Serves(After(Initial(db, start), run, ttl), q) ==>
      var s := After(Initial(db, start), run, ttl);
      StaleBy(s, q, s.entries[KeyOf(q)].text, limit + Delay(s.entries[KeyOf(q)]))
  }

  ghost predicate Bounds(ttl: int, limit: int) {
    forall db, start, run, q :: Respects(ttl, limit, db, start, run, q)
  }

  /** Without expiry the deleted organization outlives every limit. */
  lemma NoExpiryNoBound(ttl: int, limit: int)
    requires ttl <= 0
    ensures !Bounds(ttl, limit)
  {
    var wait: nat := if limit < 0 then 0 else limit;
    var q: Query := ExistsRead("pln");
    var run, t := OvertakenRun(LIVE, q, 1, WriteOrgs(GONE.orgs), InvalidateOrg("pln"), ttl, wait + 1);
    PlnIsDeleted();
    forall u | t.now - (limit + 1) < u <= t.now ensures !AnswerAt(t.history, q, u, One) {
      forall i | Holds(t.history, i, u) ensures FreshText(t.history[i].db, q) == Some(Zero) {}
    }
    assert !Respects(ttl, limit, LIVE, 0, run, q);
  }

  /** Staleness has a bound that holds in every run exactly when the TTL is positive, and then the TTL is one. */
  lemma {:induction false} BoundedIff(ttl: int)
    ensures (exists limit :: Bounds(ttl, limit)) <==> ttl > 0
    ensures ttl > 0 ==> Bounds(ttl, ttl)
  {
    if ttl > 0 {
      forall db, start, run, q: Query | Legal(Initial(db, start), run, ttl) && Serves(After(Initial(db, start), run, ttl), q)
        ensures Respects(ttl, ttl, db, start, run, q)
      {
        StalenessIsBounded(db, start, run, ttl, After(Initial(db, start), run, ttl), q);
      }
      assert Bounds(ttl, ttl);
    } else {
      forall limit ensures !Bounds(ttl, limit) { NoExpiryNoBound(ttl, limit); }
    }
  }
}
