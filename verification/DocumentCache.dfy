/**
 Documents: the read-only repository over the append-only upload log
 (internal/repository/document/document_repository.go), its cache
 (internal/repository/document/cache.go) and the invalidation done by another module,
 the upload service, when an upload completes (upload_service.go:244-264).
 Rows with equal creation times are listed latest insert first.
 */
module DocumentCache {
  import opened Prelude
  import opened CacheKeys
  import opened SharedCache
  import OC = OrganizationCache
  import Repo = OrganizationRepository

  type Log = seq<Doc>   // completed uploads in insertion order

  // ---- the bare repository ----

  /** Put a row before the first one that is not newer. */
  function Insert(d: Doc, docs: seq<Doc>): seq<Doc> {
    if docs == [] || docs[0].createdAt <= d.createdAt then [d] + docs else [docs[0]] + Insert(d, docs[1..])
  }

  predicate InScope(d: Doc, scope: string) {
    scope == "" || d.org == scope
  }

  /** Newest first; the empty scope is every organization. */
  function List(log: Log, scope: string): seq<Doc> {
    if log == [] then []
    else
      var before, last := List(log[..|log| - 1], scope), log[|log| - 1];
      if InScope(last, scope) then Insert(last, before) else before
  }

  function FindById(log: Log, id: nat): Option<Doc> {
    if log == [] then None else if log[0].id == id then Some(log[0]) else FindById(log[1..], id)
  }

  predicate NewestFirst(docs: seq<Doc>) {
    forall i, j :: 0 <= i < j < |docs| ==> docs[i].createdAt >= docs[j].createdAt
  }

  lemma {:induction false} InsertAdds(d: Doc, docs: seq<Doc>)
    ensures multiset(Insert(d, docs)) == multiset(docs) + multiset{d}
  {
    if docs != [] {
      assert docs == [docs[0]] + docs[1..];
      InsertAdds(d, docs[1..]);
    }
  }

  lemma {:induction false} InsertIsOrdered(d: Doc, docs: seq<Doc>)
    requires NewestFirst(docs)
    ensures NewestFirst(Insert(d, docs))
  {
    if docs != [] && docs[0].createdAt > d.createdAt {
      InsertIsOrdered(d, docs[1..]);
      InsertAdds(d, docs[1..]);
      forall x | x in Insert(d, docs[1..]) ensures x.createdAt <= docs[0].createdAt {
        assert x in multiset(docs[1..]) + multiset{d};
      }
    }
  }

  function CountInScope(log: Log, scope: string, d: Doc): nat {
    if InScope(d, scope) then multiset(log)[d] else 0
  }

  /** The listing is newest first and holds every row of the scope as often as the log does, and nothing else. */
  lemma {:induction false} ListIsOrderedAndComplete(log: Log, scope: string)
    ensures NewestFirst(List(log, scope))
    ensures forall d :: multiset(List(log, scope))[d] == CountInScope(log, scope, d)
  {
    if log != [] {
      var before, last := log[..|log| - 1], log[|log| - 1];
      ListIsOrderedAndComplete(before, scope);
      assert log == before + [last];
      if InScope(last, scope) {
        InsertIsOrdered(last, List(before, scope));
        InsertAdds(last, List(before, scope));
      }
    }
  }

  /** With one row an id, a row is found by its id exactly when the log holds it. */
  lemma {:induction false} FindByIdIff(log: Log, d: Doc)
    requires forall i, j :: 0 <= i < j < |log| ==> log[i].id != log[j].id
    ensures FindById(log, d.id) == Some(d) <==> d in log
    ensures FindById(log, d.id) == None <==> forall x :: x in log ==> x.id != d.id
  {
    if log != [] {
      FindByIdIff(log[1..], d);
      assert forall x :: x in log <==> x == log[0] || x in log[1..];
    }
  }

  // ---- the cached repository and the completing upload ----

  datatype World = World(log: Log, entries: Entries)

  datatype Faults = Faults(getFails: bool, dbFails: bool, setFails: bool, deleteFails: bool)

  datatype Op =
    | ListOp(scope: string)
    | FindOp(id: nat)
    | Complete(doc: Doc)
    | Vanish(keys: set<string>)

  datatype Reply = Listed(ds: seq<Doc>) | Found(d: Option<Doc>) | Done | Failed

  function BareReply(log: Log, op: Op): Reply {
    match op
    case ListOp(scope) => Listed(List(log, scope))
    case FindOp(id) => Found(FindById(log, id))
    case _ => Done
  }

  function BareNext(log: Log, op: Op, dbFails: bool): Log {
    if op.Complete? && !dbFails then log + [op.doc] else log
  }

  function Forgotten(entries: Entries, org: string): Entries {
    entries - (set k | k in DocListKeysForOrg(org))
  }

  function CachedStep(w: World, op: Op, f: Faults): (World, Reply) {
    match op
    case ListOp(scope) =>
      var key := DocList(scope);
      if !f.getFails && key in w.entries && w.entries[key].DocsText? then (w, Listed(w.entries[key].ds))
      else if !f.getFails && key in w.entries && w.entries[key].Null? then (w, Listed([]))
      else if f.dbFails then (w, Failed)
      else (if f.setFails then w else w.(entries := w.entries[key := DocsText(List(w.log, scope))]), Listed(List(w.log, scope)))
    case FindOp(id) =>
      var key := DocById(id);
      if !f.getFails && key in w.entries && w.entries[key].DocText? then (w, Found(Some(w.entries[key].d)))
      else if f.dbFails then (w, Failed)
      else
        var d := FindById(w.log, id);
        (if f.setFails || d == None then w else w.(entries := w.entries[key := DocText(d.value)]), Found(d))
    case Complete(d) =>
      // SaveLog and the invalidation are both non-fatal
      (World(if f.dbFails then w.log else w.log + [d], if f.deleteFails then w.entries else Forgotten(w.entries, d.org)), Done)
    case Vanish(keys) => (w.(entries := w.entries - keys), Done)
  }

  /** The admin's scope and an organization called "__all__" share one key. */
  predicate OnSharedKey(scope: string) {
    scope == "" || scope == ALL_ORGS
  }

  /** Of the two scopes on the shared key only `all` is listed, and an inserted row gets an id the log does not hold. */
  predicate Admissible(log: Log, op: Op, all: string) {
    match op
    case ListOp(scope) => OnSharedKey(scope) ==> scope == all
    case Complete(d) => FindById(log, d.id) == None
    case _ => true
  }

  /** Every entry agrees with the log, the shared key being the list of `all`. */
  ghost predicate Agrees(log: Log, entries: Entries, all: string) {
    && (forall scope :: DocList(scope) in entries ==> entries[DocList(scope)] == DocsText(List(log, if OnSharedKey(scope) then all else scope)))
    && (forall id :: DocById(id) in entries ==> FindById(log, id).Some? && entries[DocById(id)] == DocText(FindById(log, id).value))
  }

  lemma SameListKey(a: string, b: string)
    ensures DocList(a) == DocList(b) <==> a == b || (OnSharedKey(a) && OnSharedKey(b))
  {
    KeysCollideIff(DocListRead(a), DocListRead(b));
  }

  lemma FillList(w: World, scope: string, all: string)
    requires Agrees(w.log, w.entries, all) && (OnSharedKey(scope) ==> scope == all)
    ensures Agrees(w.log, w.entries[DocList(scope) := DocsText(List(w.log, scope))], all)
  {
    forall s ensures DocList(s) == DocList(scope) <==> s == scope || (OnSharedKey(s) && OnSharedKey(scope)) { SameListKey(s, scope); }
    forall id: nat ensures DocById(id) != DocList(scope) { KeysCollideIff(DocRead(id), DocListRead(scope)); }
  }

  lemma FillDoc(w: World, id: nat, all: string)
    requires Agrees(w.log, w.entries, all) && FindById(w.log, id).Some?
    ensures Agrees(w.log, w.entries[DocById(id) := DocText(FindById(w.log, id).value)], all)
  {
    forall s: string ensures DocList(s) != DocById(id) { KeysCollideIff(DocListRead(s), DocRead(id)); }
    forall i: nat ensures DocById(i) == DocById(id) ==> i == id { KeysCollideIff(DocRead(i), DocRead(id)); }
  }

  lemma {:induction false} FindAppend(log: Log, d: Doc, id: nat)
    ensures FindById(log + [d], id) ==
      if FindById(log, id).Some? then FindById(log, id) else if d.id == id then Some(d) else None
  {
    if log == [] {
      assert (log + [d])[1..] == [];
    } else {
      assert (log + [d])[1..] == log[1..] + [d];
      FindAppend(log[1..], d, id);
    }
  }

  /** A new row leaves the listing of every scope it is outside of as it was. */
  lemma ListAppend(log: Log, d: Doc, scope: string)
    requires !InScope(d, scope)
    ensures List(log + [d], scope) == List(log, scope)
  {
    assert (log + [d])[..|log|] == log;
  }

  lemma CompletionKeepsAgreement(w: World, d: Doc, all: string)
    requires Agrees(w.log, w.entries, all) && OnSharedKey(all)
    ensures Agrees(w.log + [d], Forgotten(w.entries, d.org), all) && Agrees(w.log, Forgotten(w.entries, d.org), all)
  {
    var left := Forgotten(w.entries, d.org);
    assert DocListKeysForOrg(d.org)[0] == DocList(d.org) && DocListKeysForOrg(d.org)[1] == DocList("");
    forall scope | DocList(scope) in left
      ensures left[DocList(scope)] == DocsText(List(w.log + [d], if OnSharedKey(scope) then all else scope))
    {
      SameListKey(scope, "");
      assert scope != d.org && !OnSharedKey(scope);
      ListAppend(w.log, d, scope);
    }
    forall id: nat | DocById(id) in left
      ensures FindById(w.log + [d], id) == FindById(w.log, id)
    {
      FindAppend(w.log, d, id);
    }
  }

  /** The row and the invalidation fail apart: neither is given up for the other, and no other key is touched. */
  lemma CompletionFailsApart(w: World, d: Doc, f: Faults)
    ensures var (w', reply) := CachedStep(w, Complete(d), f);
      && reply == Done && w'.log == (if f.dbFails then w.log else w.log + [d])
      && forall k :: (k in w'.entries <==> k in w.entries && (f.deleteFails || (k != DocList(d.org) && k != DocList(""))))
                     && (k in w'.entries ==> w'.entries[k] == w.entries[k])
  {
    assert DocListKeysForOrg(d.org)[0] == DocList(d.org) && DocListKeysForOrg(d.org)[1] == DocList("");
  }

  predicate Refines(reply: Reply, bare: Reply, dbFails: bool) {
    reply == bare || (dbFails && reply == Failed)
  }

  lemma StepRefines(w: World, op: Op, f: Faults, all: string)
    requires Agrees(w.log, w.entries, all) && OnSharedKey(all) && Admissible(w.log, op, all) && !f.deleteFails
    ensures var r := CachedStep(w, op, f);
      && Agrees(r.0.log, r.0.entries, all) && r.0.log == BareNext(w.log, op, f.dbFails)
      && Refines(r.1, BareReply(w.log, op), f.dbFails)
  {
    match op
    case ListOp(scope) => FillList(w, scope, all);
    case FindOp(id) => if FindById(w.log, id).Some? { FillDoc(w, id, all); }
    case Complete(d) => CompletionKeepsAgreement(w, d, all);
    case Vanish(keys) =>
  }

  /** An answer that could be stored is given again without the database, which may have failed since; that no row has an id is not stored. */
  lemma AnswersAreKept(w: World, op: Op, f: Faults, g: Faults, all: string)
    requires Agrees(w.log, w.entries, all) && OnSharedKey(all) && Admissible(w.log, op, all) && (op.ListOp? || op.FindOp?)
    requires !f.setFails && !g.getFails && CachedStep(w, op, f).1 != Failed && CachedStep(w, op, f).1 != Found(None)
    ensures CachedStep(CachedStep(w, op, f).0, op, g) == CachedStep(w, op, f)
  {
  }

  // ---- runs ----

  datatype Call = Call(op: Op, faults: Faults)

  predicate AdmissibleRun(log: Log, calls: seq<Call>, all: string)
    decreases |calls|
  {
    calls == [] ||
    (Admissible(log, calls[0].op, all) && !calls[0].faults.deleteFails &&
     AdmissibleRun(BareNext(log, calls[0].op, calls[0].faults.dbFails), calls[1..], all))
  }

  function CachedRun(w: World, calls: seq<Call>): (World, seq<Reply>)
    decreases |calls|
  {
    if calls == [] then (w, [])
    else
      var first := CachedStep(w, calls[0].op, calls[0].faults);
      var rest := CachedRun(first.0, calls[1..]);
      (rest.0, [first.1] + rest.1)
  }

  function BareRun(log: Log, calls: seq<Call>): (Log, seq<Reply>)
    decreases |calls|
  {
    if calls == [] then (log, [])
    else
      var rest := BareRun(BareNext(log, calls[0].op, calls[0].faults.dbFails), calls[1..]);
      (rest.0, [BareReply(log, calls[0].op)] + rest.1)
  }

  /**
   With successful invalidations by the upload module, every run of cached reads answers from
   the log as it is, as long as it lists at most one of the two scopes on the shared key.
   */
  lemma {:induction false} CacheRefinesLog(w: World, calls: seq<Call>, all: string)
    requires Agrees(w.log, w.entries, all) && OnSharedKey(all) && AdmissibleRun(w.log, calls, all)
    ensures var cached, bare := CachedRun(w, calls), BareRun(w.log, calls);
      && Agrees(cached.0.log, cached.0.entries, all) && cached.0.log == bare.0 && |cached.1| == |bare.1| == |calls|
      && forall i :: 0 <= i < |calls| ==> Refines(cached.1[i], bare.1[i], calls[i].faults.dbFails)
    decreases |calls|
  {
    if calls != [] {
      StepRefines(w, calls[0].op, calls[0].faults, all);
      var first := CachedStep(w, calls[0].op, calls[0].faults);
      assert forall i :: 0 <= i < |calls[1..]| ==> calls[1..][i] == calls[i + 1];
      CacheRefinesLog(first.0, calls[1..], all);
    }
  }

  // ---- two modules, one Redis ----

  /** Document traffic leaves what is cached about organizations as it is. */
  lemma DocumentsLeaveOrganizations(t: Repo.Table, w: World, op: Op, f: Faults)
    requires OC.Agrees(t, w.entries)
    ensures OC.Agrees(t, CachedStep(w, op, f).0.entries)
  {
    match op
    case ListOp(scope) => OrgKeysAre(t, w.entries, DocListRead(scope), DocsText(List(w.log, scope)));
    case FindOp(id) => if FindById(w.log, id).Some? { OrgKeysAre(t, w.entries, DocRead(id), DocText(FindById(w.log, id).value)); }
    case _ =>
  }

  lemma OrgKeysAre(t: Repo.Table, entries: Entries, r: Read, v: Text)
    requires OC.Agrees(t, entries) && (r.DocListRead? || r.DocRead?)
    ensures OC.Agrees(t, entries[KeyOf(r) := v])
  {
    forall code: string ensures OrgExists(code) != KeyOf(r) && OrgGet(code) != KeyOf(r) {
      KeysCollideIff(ExistsRead(code), r);
      KeysCollideIff(GetRead(code), r);
    }
    KeysCollideIff(ListRead, r);
  }

  /** Organization traffic leaves what is cached about documents as it is. */
  lemma OrganizationsLeaveDocuments(log: Log, w: OC.World, op: OC.Op, f: OC.Faults, all: string)
    requires Agrees(log, w.entries, all)
    ensures Agrees(log, OC.CachedStep(w, op, f).0.entries, all)
  {
    if OC.IsRead(op) {
      var r := OC.AsRead(op);
      forall s: string ensures DocList(s) != KeyOf(r) { KeysCollideIff(DocListRead(s), r); }
      forall id: nat ensures DocById(id) != KeyOf(r) { KeysCollideIff(DocRead(id), r); }
    }
  }

  // ---- the scope called "__all__" ----

  lemma {:induction false} AllOneOrg(log: Log, org: string)
    requires org != ""
    ensures List(log, "") == List(log, org) <==> forall d :: d in log ==> d.org == org
  {
    ListIsOrderedAndComplete(log, "");
    ListIsOrderedAndComplete(log, org);
    if List(log, "") == List(log, org) {
      forall d | d in log ensures d.org == org {
        assert multiset(log)[d] > 0 && CountInScope(log, "", d) == CountInScope(log, org, d);
      }
    }
    if forall d :: d in log ==> d.org == org { SameListing(log, org); }
  }

  lemma {:induction false} SameListing(log: Log, org: string)
    requires org != "" && forall d :: d in log ==> d.org == org
    ensures List(log, "") == List(log, org)
  {
    if log != [] {
      assert forall d :: d in log[..|log| - 1] ==> d in log;
      SameListing(log[..|log| - 1], org);
    }
  }

  lemma AllAreOneOrgIff(log: Log)
    ensures List(log, "") == List(log, ALL_ORGS) <==> forall d :: d in log ==> d.org == ALL_ORGS
  {
    AllOneOrg(log, ALL_ORGS);
  }

  /**
   After the cache was filled for one of the two scopes on the shared key, a hit of the other
   answers as the bare repository exactly when every document belongs to the organization
   called "__all__"; otherwise a tenant is shown other tenants' documents or the admin misses some.
   */
  lemma {:induction false} OtherScopeIsRightIff(w: World, all: string, other: string, f: Faults)
    requires Agrees(w.log, w.entries, all) && OnSharedKey(all) && OnSharedKey(other) && all != other
    requires DocList(all) in w.entries && !f.getFails
    ensures CachedStep(w, ListOp(other), f).1 == BareReply(w.log, ListOp(other)) <==> forall d :: d in w.log ==> d.org == ALL_ORGS
  {
    SameListKey(all, other);
    AllAreOneOrgIff(w.log);
  }

  /** So does the list of "__all__" right after the admin's, from an empty cache. */
  lemma {:induction false} AllScopeIsSoundIff(log: Log, f: Faults, g: Faults)
    requires !f.dbFails && !f.setFails && !g.getFails
    ensures var filled := CachedStep(World(log, map[]), ListOp(""), f).0;
      CachedStep(filled, ListOp(ALL_ORGS), g).1 == BareReply(log, ListOp(ALL_ORGS)) <==> forall d :: d in log ==> d.org == ALL_ORGS
  {
    var empty := World(log, map[]);
    FillList(empty, "", "");
    OtherScopeIsRightIff(CachedStep(empty, ListOp(""), f).0, "", ALL_ORGS, g);
  }

  // ---- as the source writes it ----

  class CachedDocuments {
    var log: Log
    const cache: Redis

    ghost function Now(): World
      reads this, cache
    {
      World(log, cache.entries)
    }

    constructor (log: Log, cache: Redis)
      ensures this.log == log && this.cache == cache
    {
      this.log := log;
      this.cache := cache;
    }

    method ListDocuments(scope: string, f: Faults) returns (r: Outcome<seq<Doc>>)
      modifies cache
      ensures Now() == CachedStep(old(Now()), ListOp(scope), f).0
      ensures (if r.Ok? then Listed(r.value) else Failed) == CachedStep(old(Now()), ListOp(scope), f).1
    {
      var key := DocList(scope);
      var got := cache.Get(key, f.getFails);
      if got.Ok? && got.value.Some? {
        if got.value.value.DocsText? { return Ok(got.value.value.ds); }
        if got.value.value.Null? { return Ok([]); }
      }
      if f.dbFails { return Err; }
      var docs := List(log, scope);
      cache.Set(key, DocsText(docs), f.setFails);
      return Ok(docs);
    }

    method FindByID(id: nat, f: Faults) returns (r: Outcome<Option<Doc>>)
      modifies cache
      ensures Now() == CachedStep(old(Now()), FindOp(id), f).0
      ensures (if r.Ok? then Found(r.value) else Failed) == CachedStep(old(Now()), FindOp(id), f).1
    {
      var key := DocById(id);
      var got := cache.Get(key, f.getFails);
      if got.Ok? && got.value.Some? && got.value.value.DocText? {
        return Ok(Some(got.value.value.d));
      }
      if f.dbFails { return Err; }
      var doc := FindById(log, id);
      if doc != None {
        cache.Set(key, DocText(doc.value), f.setFails);
      }
      return Ok(doc);
    }

    /** The tail of finalize: the audit row, then the list invalidation; neither failure is fatal. */
    method UploadCompleted(d: Doc, f: Faults)
      modifies this`log, cache
      ensures Now() == CachedStep(old(Now()), Complete(d), f).0
    {
      if !f.dbFails { log := log + [d]; }
      cache.Delete(DocListKeysForOrg(d.org), f.deleteFails);
    }
  }
}
