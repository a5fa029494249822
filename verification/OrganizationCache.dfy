/**
 The cache-aside organization repository (internal/repository/organization/cache.go)
 and its refinement of the bare repository: with successful invalidations every run
 answers what the bare repository answers, under any cache failure, expiry or flush.
 */
module OrganizationCache {
  import opened Prelude
  import opened CacheKeys
  import Repo = OrganizationRepository
  import opened SharedCache

  type Org = Repo.Org

  /** What fails during one call. */
  datatype Faults = Faults(getFails: bool, dbFails: bool, setFails: bool, deleteFails: bool)

  datatype World = World(table: Repo.Table, entries: Entries)

  datatype Reply =
    | Flag(b: bool)
    | Found(o: Option<Org>)
    | Listed(os: seq<Org>)
    | Done
    | Failed

  datatype Op =
    | Exists(code: string)
    | Get(code: string)
    | List
    | Create(o: Org)
    | Update(o: Org)
    | SoftDelete(code: string)
    | Vanish(keys: set<string>)

  // ---- the bare repository as a specification ----

  function BareTable(t: Repo.Table, op: Op): Outcome<Repo.Table> {
    match op
    case Create(o) => Repo.Create(t, o)
    case Update(o) => Ok(Repo.Save(t, o))
    case SoftDelete(code) => Ok(Repo.SoftDelete(t, code))
    case _ => Ok(t)
  }

  /** The answer of the bare repository when the database works. */
  function BareReply(t: Repo.Table, op: Op): Reply {
    match op
    case Exists(code) => Flag(Repo.ExistsActive(t, code))
    case Get(code) => Found(Repo.GetByCode(t, code))
    case List => Listed(Repo.List(t))
    case _ => if BareTable(t, op).Ok? then Done else Failed
  }

  function BareNext(t: Repo.Table, op: Op, dbFails: bool): Repo.Table {
    match BareTable(t, op)
    case Ok(t') => if dbFails then t else t'
    case Err => t
  }

  // ---- the cached repository ----

  predicate IsRead(op: Op) {
    op.Exists? || op.Get? || op.List?
  }

  function ReadKey(op: Op): string
    requires IsRead(op)
  {
    match op
    case Exists(code) => OrgExists(code)
    case Get(code) => OrgGet(code)
    case List => OrgList()
  }

  /** What a text under the read's key is taken to mean; None sends the read to the database. */
  function ReadText(op: Op, v: Text): Option<Reply>
    requires IsRead(op)
  {
    match op
    case Exists(_) => Some(Flag(v == One))
    case Get(_) =>
      if v == Null then Some(Found(None)) else if v.OrgText? then Some(Found(Some(Decode(v.o)))) else None
    case List =>
      if v.OrgsText? then Some(Listed(DecodeAll(v.os))) else if v == Null then Some(Listed([])) else None
  }

  /** The text a read caches for the database's answer. */
  function FreshText(t: Repo.Table, op: Op): Text
    requires IsRead(op)
  {
    match op
    case Exists(code) => if Repo.ExistsActive(t, code) then One else Zero
    case Get(code) =>
      (match Repo.GetByCode(t, code) case None => Null case Some(o) => OrgText(Encode(o)))
    case List => OrgsText(EncodeAll(Repo.List(t)))
  }

  /** The cached answer a read uses, if the cache gives one. */
  function Hit(entries: Entries, op: Op, getFails: bool): Option<Reply>
    requires IsRead(op)
  {
    if getFails || ReadKey(op) !in entries then None else ReadText(op, entries[ReadKey(op)])
  }

  function Remaining(entries: Entries, code: string): Entries {
    entries - (set k | k in OrgKeys(code))
  }

  function WrittenCode(op: Op): string
    requires op.Create? || op.Update? || op.SoftDelete?
  {
    match op
    case Create(o) => o.code
    case Update(o) => o.code
    case SoftDelete(code) => code
  }

  function CachedStep(w: World, op: Op, f: Faults): (World, Reply) {
    if IsRead(op) then
      match Hit(w.entries, op, f.getFails)
      case Some(reply) => (w, reply)
      case None =>
        if f.dbFails then (w, Failed)
        else (if f.setFails then w else w.(entries := w.entries[ReadKey(op) := FreshText(w.table, op)]), BareReply(w.table, op))
    else if op.Vanish? then (w.(entries := w.entries - op.keys), Done)
    else
      match BareTable(w.table, op)
      case Err => (w, Failed)
      case Ok(t') =>
        if f.dbFails then (w, Failed)
        else (World(t', if f.deleteFails then w.entries else Remaining(w.entries, WrittenCode(op))), Done)
  }

  // ---- agreement of cache and database ----

  ghost predicate Agrees(t: Repo.Table, entries: Entries) {
    && (forall code :: OrgExists(code) in entries ==> entries[OrgExists(code)] == FreshText(t, Exists(code)))
    && (forall code :: OrgGet(code) in entries ==> entries[OrgGet(code)] == FreshText(t, Get(code)))
    && (OrgList() in entries ==> entries[OrgList()] == FreshText(t, List))
  }

  ghost predicate Coherent(w: World) {
    Repo.Sorted(w.table) && Agrees(w.table, w.entries)
  }

  lemma FreshTextMeansTheAnswer(t: Repo.Table, op: Op)
    requires Repo.Sorted(t) && IsRead(op)
    ensures ReadText(op, FreshText(t, op)) == Some(BareReply(t, op))
  {
    match op
    case Exists(_) =>
    case Get(code) =>
    case List =>
      Repo.ListIsOrderedAndComplete(t);
      JsonRoundTripAll(Repo.List(t));
  }

  lemma HitIsTheAnswer(w: World, op: Op, getFails: bool)
    requires Coherent(w) && IsRead(op)
    ensures Hit(w.entries, op, getFails).Some? ==> Hit(w.entries, op, getFails).value == BareReply(w.table, op)
  {
    FreshTextMeansTheAnswer(w.table, op);
  }

  function AsRead(op: Op): Read
    requires IsRead(op)
  {
    match op
    case Exists(code) => ExistsRead(code)
    case Get(code) => GetRead(code)
    case List => ListRead
  }

  lemma FillKeepsAgreement(t: Repo.Table, entries: Entries, op: Op)
    requires Agrees(t, entries) && IsRead(op)
    ensures Agrees(t, entries[ReadKey(op) := FreshText(t, op)])
  {
    forall code ensures OrgExists(code) == ReadKey(op) ==> op == Exists(code) { KeysCollideIff(ExistsRead(code), AsRead(op)); }
    forall code ensures OrgGet(code) == ReadKey(op) ==> op == Get(code) { KeysCollideIff(GetRead(code), AsRead(op)); }
    KeysCollideIff(ListRead, AsRead(op));
  }

  lemma WriteRows(t: Repo.Table, op: Op, code: string)
    requires Repo.Sorted(t) && (op.Create? || op.Update? || op.SoftDelete?) && BareTable(t, op).Ok?
    ensures Repo.Sorted(BareTable(t, op).value)
    ensures code != WrittenCode(op) ==> Repo.RowOf(BareTable(t, op).value, code) == Repo.RowOf(t, code)
  {
    match op
    case Create(o) =>
      Repo.PutSorted(t, o.(active := true, deleted := false));
      Repo.PutRow(t, o.(active := true, deleted := false), code);
    case Update(o) =>
      Repo.PutSorted(t, o);
      Repo.PutRow(t, o, code);
    case SoftDelete(c) =>
      if Repo.RowOf(t, c).Some? {
        Repo.RowOfMember(t, c);
        var o := Repo.RowOf(t, c).value.(deleted := true);
        Repo.PutSorted(t, o);
        Repo.PutRow(t, o, code);
      }
  }

  /** A write leaves the cached facts about every other code true. */
  lemma WriteThenInvalidateKeepsAgreement(w: World, op: Op)
    requires Coherent(w) && (op.Create? || op.Update? || op.SoftDelete?) && BareTable(w.table, op).Ok?
    ensures Coherent(World(BareTable(w.table, op).value, Remaining(w.entries, WrittenCode(op))))
  {
    var code := WrittenCode(op);
    var left := Remaining(w.entries, code);
    assert OrgExists(code) in OrgKeys(code) && OrgGet(code) in OrgKeys(code) && OrgList() in OrgKeys(code) by {
      assert OrgKeys(code)[0] == OrgExists(code) && OrgKeys(code)[1] == OrgGet(code) && OrgKeys(code)[2] == OrgList();
    }
    WriteRows(w.table, op, code);
    var t' := BareTable(w.table, op).value;
    forall c | OrgExists(c) in left ensures left[OrgExists(c)] == FreshText(t', Exists(c)) {
      assert c != code;
      WriteRows(w.table, op, c);
    }
    forall c | OrgGet(c) in left ensures left[OrgGet(c)] == FreshText(t', Get(c)) {
      assert c != code;
      WriteRows(w.table, op, c);
    }
  }

  /** A reply is the bare repository's, or a failure the database caused. */
  predicate Refines(reply: Reply, bare: Reply, dbFails: bool) {
    reply == bare || (dbFails && reply == Failed)
  }

  lemma StepRefines(w: World, op: Op, f: Faults)
    requires Coherent(w) && !f.deleteFails
    ensures var r := CachedStep(w, op, f);
      Coherent(r.0) && r.0.table == BareNext(w.table, op, f.dbFails) && Refines(r.1, BareReply(w.table, op), f.dbFails)
  {
    if IsRead(op) {
      HitIsTheAnswer(w, op, f.getFails);
      FillKeepsAgreement(w.table, w.entries, op);
    } else if op.Vanish? {
    } else if BareTable(w.table, op).Ok? {
      WriteThenInvalidateKeepsAgreement(w, op);
    }
  }

  /** An answer that could be stored is given again without the database, which may have failed since. */
  lemma AnswersAreKept(w: World, op: Op, f: Faults, g: Faults)
    requires Coherent(w) && IsRead(op) && !f.setFails && !g.getFails && CachedStep(w, op, f).1 != Failed
    ensures CachedStep(CachedStep(w, op, f).0, op, g) == CachedStep(w, op, f)
  {
    FreshTextMeansTheAnswer(w.table, op);
  }

  // ---- runs ----

  datatype Call = Call(op: Op, faults: Faults)

  function CachedRun(w: World, calls: seq<Call>): (World, seq<Reply>)
    decreases |calls|
  {
    if calls == [] then (w, [])
    else
      var first := CachedStep(w, calls[0].op, calls[0].faults);
      var rest := CachedRun(first.0, calls[1..]);
      (rest.0, [first.1] + rest.1)
  }

  function BareRun(t: Repo.Table, calls: seq<Call>): (Repo.Table, seq<Reply>)
    decreases |calls|
  {
    if calls == [] then (t, [])
    else
      var rest := BareRun(BareNext(t, calls[0].op, calls[0].faults.dbFails), calls[1..]);
      (rest.0, [BareReply(t, calls[0].op)] + rest.1)
  }

  /**
   Cache refinement. `BareRun` lists the answers a working database gives at each call;
   the cached repository gives exactly those, except that a call whose database access
   fails may report the failure. With a working database the runs are equal.
   */
  lemma {:induction false} CacheRefinesRepository(w: World, calls: seq<Call>)
    requires Coherent(w) && forall i :: 0 <= i < |calls| ==> !calls[i].faults.deleteFails
    ensures var cached, bare := CachedRun(w, calls), BareRun(w.table, calls);
      && Coherent(cached.0) && cached.0.table == bare.0 && |cached.1| == |bare.1| == |calls|
      && forall i :: 0 <= i < |calls| ==> Refines(cached.1[i], bare.1[i], calls[i].faults.dbFails)
    decreases |calls|
  {
    if calls != [] {
      StepRefines(w, calls[0].op, calls[0].faults);
      var first := CachedStep(w, calls[0].op, calls[0].faults);
      assert forall i :: 0 <= i < |calls[1..]| ==> calls[1..][i] == calls[i + 1];
      CacheRefinesRepository(first.0, calls[1..]);
    }
  }

  // ---- the repository as the source writes it ----

  class CachedRepository {
    var table: Repo.Table   // the inner repository's rows
    const cache: Redis

    ghost function Now(): World
      reads this, cache
    {
      World(table, cache.entries)
    }

    constructor (table: Repo.Table, cache: Redis)
      ensures this.table == table && this.cache == cache
    {
      this.table := table;
      this.cache := cache;
    }

    method ExistsActive(code: string, f: Faults) returns (r: Outcome<bool>)
      modifies cache
      ensures Now() == CachedStep(old(Now()), Exists(code), f).0
      ensures (if r.Ok? then Flag(r.value) else Failed) == CachedStep(old(Now()), Exists(code), f).1
    {
      var key := OrgExists(code);
      var got := cache.Get(key, f.getFails);
      if got.Ok? && got.value.Some? {
        return Ok(got.value.value == One);
      }
      if f.dbFails { return Err; }
      var v := Repo.ExistsActive(table, code);
      var text := Zero;
      if v { text := One; }
      cache.Set(key, text, f.setFails);
      return Ok(v);
    }

    method GetByCode(code: string, f: Faults) returns (r: Outcome<Option<Org>>)
      modifies cache
      ensures Now() == CachedStep(old(Now()), Get(code), f).0
      ensures (if r.Ok? then Found(r.value) else Failed) == CachedStep(old(Now()), Get(code), f).1
    {
      var key := OrgGet(code);
      var got := cache.Get(key, f.getFails);
      if got.Ok? && got.value.Some? {
        if got.value.value == Null { return Ok(None); }
        if got.value.value.OrgText? { return Ok(Some(Decode(got.value.value.o))); }
      }
      if f.dbFails { return Err; }
      var o := Repo.GetByCode(table, code);
      if o == None {
        cache.Set(key, Null, f.setFails);
      } else {
        cache.Set(key, OrgText(Encode(o.value)), f.setFails);
      }
      return Ok(o);
    }

    method ListAll(f: Faults) returns (r: Outcome<seq<Org>>)
      modifies cache
      ensures Now() == CachedStep(old(Now()), List, f).0
      ensures (if r.Ok? then Listed(r.value) else Failed) == CachedStep(old(Now()), List, f).1
    {
      var got := cache.Get(OrgList(), f.getFails);
      if got.Ok? && got.value.Some? {
        if got.value.value.OrgsText? { return Ok(DecodeAll(got.value.value.os)); }
        if got.value.value == Null { return Ok([]); }
      }
      if f.dbFails { return Err; }
      var orgs := Repo.List(table);
      cache.Set(OrgList(), OrgsText(EncodeAll(orgs)), f.setFails);
      return Ok(orgs);
    }

    method Create(o: Org, f: Faults) returns (ok: bool)
      modifies this`table, cache
      ensures Now() == CachedStep(old(Now()), Op.Create(o), f).0
      ensures (if ok then Done else Failed) == CachedStep(old(Now()), Op.Create(o), f).1
    {
      var t := Repo.Create(table, o);
      if f.dbFails || t.Err? { return false; }
      table := t.value;
      Invalidate(o.code, f.deleteFails);
      return true;
    }

    method Update(o: Org, f: Faults) returns (ok: bool)
      modifies this`table, cache
      ensures Now() == CachedStep(old(Now()), Op.Update(o), f).0
      ensures (if ok then Done else Failed) == CachedStep(old(Now()), Op.Update(o), f).1
    {
      if f.dbFails { return false; }
      table := Repo.Save(table, o);
      Invalidate(o.code, f.deleteFails);
      return true;
    }

    method SoftDelete(code: string, f: Faults) returns (ok: bool)
      modifies this`table, cache
      ensures Now() == CachedStep(old(Now()), Op.SoftDelete(code), f).0
      ensures (if ok then Done else Failed) == CachedStep(old(Now()), Op.SoftDelete(code), f).1
    {
      if f.dbFails { return false; }
      table := Repo.SoftDelete(table, code);
      Invalidate(code, f.deleteFails);
      return true;
    }

    method Invalidate(code: string, fails: bool)
      modifies cache
      ensures cache.entries == if fails then old(cache.entries) else Remaining(old(cache.entries), code)
    {
      cache.Delete(OrgKeys(code), fails);
    }
  }
}
