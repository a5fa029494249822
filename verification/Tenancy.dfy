/**
 Organizations and their users (internal/service/organization/organization_service.go,
 internal/service/user/user_service.go:74-117): over any run of atomic requests every
 active user's organization is a live row, although the services learn about
 organizations through the cache.
 */
module Tenancy {
  import opened Prelude
  import opened Strings
  import opened Users
  import opened CacheKeys
  import opened SharedCache
  import OC = OrganizationCache
  import Repo = OrganizationRepository
  import R = Registration

  type State = R.State
  type Org = Repo.Org

  // ---- requests ----

  datatype Event =
    | Register(req: R.Request, rf: R.Faults)
    | BulkRegister(items: seq<R.Item>, rfs: seq<R.Faults>)
    | CreateOrg(code: string, name: string, description: string, now: int, load: OC.Faults, write: OC.Faults)
    | UpdateOrg(code: string, name: string, description: string, active: Option<bool>, now: int, load: OC.Faults, write: OC.Faults)
    | DeleteOrg(code: string, load: OC.Faults, countFails: bool, write: OC.Faults)
    | EditUser(id: nat, name: string, password: string, fails: bool)
    | DeleteUser(id: nat, fails: bool)
    | ReadOrgs(op: OC.Op, load: OC.Faults)   // any cached read by another request
    | Vanish(keys: set<string>)

  datatype OrgError = InvalidCode | AlreadyExists | NotFound | HasUsers | Internal

  datatype Reply = Answer(o: Org) | Done | Failed(e: OrgError)

  predicate CodeChar(c: char) {
    'a' <= c <= 'z' || 'A' <= c <= 'Z' || '0' <= c <= '9' || c == '_' || c == '-'
  }

  predicate ValidCode(code: string) {
    2 <= |code| <= 64 && forall i :: 0 <= i < |code| ==> CodeChar(code[i])
  }

  /** A code has 2 to 64 characters, and codes of each of these lengths are accepted. */
  lemma CodesOfLengthIff(n: nat)
    ensures (exists code :: |code| == n && ValidCode(code)) <==> 2 <= n <= 64
  {
    var code := seq(n, _ => 'a');
    assert |code| == n && (2 <= n <= 64 ==> ValidCode(code));
  }

  function CountUsers(t: Users.Table, code: string): nat {
    if t == [] then 0 else CountUsers(t[1..], code) + if !t[0].deleted && t[0].org == code then 1 else 0
  }

  // ---- the organization service ----

  /** `load`: the state it leaves and the row, or the error. */
  function Load(w: OC.World, code: string, f: OC.Faults): (OC.World, Outcome<Option<Org>>) {
    var r := OC.CachedStep(w, OC.Get(Trim(code)), f);
    (r.0, match r.1 case Found(o) => Ok(o) case _ => Err)
  }

  function Write(w: OC.World, op: OC.Op, f: OC.Faults, reply: Reply): (OC.World, Reply) {
    var r := OC.CachedStep(w, op, f);
    (r.0, if r.1 == OC.Done then reply else Failed(Internal))
  }

  function CreateStep(w: OC.World, ev: Event): (OC.World, Reply)
    requires ev.CreateOrg?
  {
    var code := Trim(ev.code);
    if !ValidCode(code) then (w, Failed(InvalidCode))
    else
      var (w', found) := Load(w, ev.code, ev.load);
      match found
      case Err => (w', Failed(Internal))
      case Ok(Some(_)) => (w', Failed(AlreadyExists))
      case Ok(None) =>
        var o := Repo.Org(code, Trim(ev.name), ev.description, true, ev.now, ev.now, false);
        Write(w', OC.Create(o), ev.write, Answer(o))
  }

  function Edited(o: Org, ev: Event): Org
    requires ev.UpdateOrg?
  {
    o.(name := if Trim(ev.name) == "" then o.name else Trim(ev.name),
       description := ev.description,
       active := if ev.active.Some? then ev.active.value else o.active,
       updatedAt := ev.now)
  }

  function UpdateStep(w: OC.World, ev: Event): (OC.World, Reply)
    requires ev.UpdateOrg?
  {
    var (w', found) := Load(w, ev.code, ev.load);
    match found
    case Err => (w', Failed(Internal))
    case Ok(None) => (w', Failed(NotFound))
    case Ok(Some(o)) => Write(w', OC.Update(Edited(o, ev)), ev.write, Answer(Edited(o, ev)))
  }

  function DeleteStep(s: State, ev: Event): (OC.World, Reply)
    requires ev.DeleteOrg?
  {
    var (w', found) := Load(s.orgs, ev.code, ev.load);
    match found
    case Err => (w', Failed(Internal))
    case Ok(None) => (w', Failed(NotFound))
    case Ok(Some(o)) =>
      if ev.countFails then (w', Failed(Internal))
      else if CountUsers(s.users, o.code) > 0 then (w', Failed(HasUsers))
      else Write(w', OC.SoftDelete(o.code), ev.write, Done)
  }

  // ---- runs ----

  predicate WellShaped(ev: Event) {
    && (ev.BulkRegister? ==> |ev.rfs| == |ev.items|)
    && (ev.ReadOrgs? ==> OC.IsRead(ev.op))
  }

  function Next(s: State, ev: Event, x: R.Texts): State
    requires WellShaped(ev)
  {
    match ev
    case Register(req, f) => R.Register(s, req, f).0
    case BulkRegister(items, fs) => R.Batch(s, items, fs, x, |items|).state
    case CreateOrg(_, _, _, _, _, _) => s.(orgs := CreateStep(s.orgs, ev).0)
    case UpdateOrg(_, _, _, _, _, _, _) => s.(orgs := UpdateStep(s.orgs, ev).0)
    case DeleteOrg(_, _, _, _) => s.(orgs := DeleteStep(s, ev).0)
    case EditUser(id, name, password, fails) => if fails then s else s.(users := Edit(s.users, id, name, password))
    case DeleteUser(id, fails) => if fails then s else s.(users := Users.SoftDelete(s.users, id))
    case ReadOrgs(op, f) => s.(orgs := OC.CachedStep(s.orgs, op, f).0)
    case Vanish(keys) => s.(orgs := s.orgs.(entries := s.orgs.entries - keys))
  }

  predicate Possible(run: seq<Event>) {
    forall i :: 0 <= i < |run| ==> WellShaped(run[i])
  }

  function After(s: State, run: seq<Event>, x: R.Texts): State
    requires Possible(run)
  {
    if run == [] then s else Next(After(s, run[..|run| - 1], x), run[|run| - 1], x)
  }

  // ---- what the cache may say about organizations ----

  predicate Live(t: Repo.Table, code: string) {
    Repo.GetByCode(t, code).Some?
  }

  /** A cached "1" or row is about a live organization. Weaker than agreement: `active`, names and lists may be stale. */
  ghost predicate CacheSound(w: OC.World) {
    && Repo.Sorted(w.table)
    && (forall code :: OrgExists(code) in w.entries && w.entries[OrgExists(code)] == One ==> Live(w.table, code))
    && (forall code :: OrgGet(code) in w.entries && w.entries[OrgGet(code)].OrgText? ==> RowIsLive(w, code))
  }

  predicate RowIsLive(w: OC.World, code: string)
    requires OrgGet(code) in w.entries && w.entries[OrgGet(code)].OrgText?
  {
    w.entries[OrgGet(code)].o.code == code && Live(w.table, code)
  }

  /** Every active user's organization code names a row that is not deleted. */
  ghost predicate Integrity(s: State) {
    forall id: nat :: Active(s.users, id) ==> Live(s.orgs.table, s.users[id].org)
  }

  ghost predicate Safe(s: State) {
    CacheSound(s.orgs) && Integrity(s)
  }

  // ---- the cache stays sound ----

  lemma GetIsLiveIff(t: Repo.Table, code: string)
    ensures Live(t, code) <==> exists o :: Repo.RowOf(t, code) == Some(o) && !o.deleted && o.code == code
  {
    Repo.RowOfMember(t, code);
  }

  /** A cache that agrees with the table is sound, so the refinement's states are a start for every run below. */
  lemma AgreementIsSound(w: OC.World)
    requires OC.Coherent(w)
    ensures CacheSound(w)
  {
    forall code | OrgGet(code) in w.entries && w.entries[OrgGet(code)].OrgText? ensures RowIsLive(w, code) {
      GetIsLiveIff(w.table, code);
    }
  }

  lemma ReadKeepsSound(w: OC.World, op: OC.Op, f: OC.Faults)
    requires CacheSound(w) && OC.IsRead(op)
    ensures CacheSound(OC.CachedStep(w, op, f).0) && OC.CachedStep(w, op, f).0.table == w.table
  {
    var w' := OC.CachedStep(w, op, f).0;
    forall code | OrgExists(code) in w'.entries && w'.entries[OrgExists(code)] == One ensures Live(w.table, code) {
      KeysCollideIff(ExistsRead(code), OC.AsRead(op));
    }
    forall code | OrgGet(code) in w'.entries && w'.entries[OrgGet(code)].OrgText? ensures RowIsLive(w', code) {
      KeysCollideIff(GetRead(code), OC.AsRead(op));
      GetIsLiveIff(w.table, code);
    }
  }

  /** What the services may rely on: an admitted code is live, and a loaded row is the live row's code. */
  lemma ReadsAreSound(w: OC.World, code: string, f: OC.Faults)
    requires CacheSound(w)
    ensures OC.CachedStep(w, OC.Exists(code), f).1 == OC.Flag(true) ==> Live(w.table, code)
    ensures var r := OC.CachedStep(w, OC.Get(code), f).1;
      r.Found? && r.o.Some? ==> r.o.value.code == code && !r.o.value.deleted && Live(w.table, code)
  {
    GetIsLiveIff(w.table, code);
    if Repo.ExistsActive(w.table, code) { Repo.RowOfMember(w.table, code); }
  }

  lemma PutIsLive(t: Repo.Table, o: Org, code: string)
    requires Repo.Sorted(t)
    ensures Repo.Sorted(Repo.Put(t, o))
    ensures Live(Repo.Put(t, o), code) <==> if code == o.code then !o.deleted else Live(t, code)
  {
    Repo.PutSorted(t, o);
    Repo.PutRow(t, o, code);
  }

  /** Adding or replacing a live row takes no organization away, invalidated or not. */
  lemma PutKeepsSafe(s: State, o: Org, left: Entries)
    requires Safe(s) && !o.deleted
    requires left == s.orgs.entries || left == OC.Remaining(s.orgs.entries, o.code)
    ensures Safe(s.(orgs := OC.World(Repo.Put(s.orgs.table, o), left)))
  {
    forall code ensures Live(s.orgs.table, code) ==> Live(Repo.Put(s.orgs.table, o), code) { PutIsLive(s.orgs.table, o, code); }
    PutIsLive(s.orgs.table, o, o.code);
  }

  /** Deleting a row that no active user names, and forgetting what the cache says about it. */
  lemma DeleteKeepsSafe(s: State, o: Org)
    requires Safe(s) && o.deleted
    requires forall id: nat :: Active(s.users, id) ==> s.users[id].org != o.code
    ensures Safe(s.(orgs := OC.World(Repo.Put(s.orgs.table, o), OC.Remaining(s.orgs.entries, o.code))))
  {
    assert OrgKeys(o.code)[0] == OrgExists(o.code) && OrgKeys(o.code)[1] == OrgGet(o.code);
    forall code ensures code != o.code && Live(s.orgs.table, code) ==> Live(Repo.Put(s.orgs.table, o), code) {
      PutIsLive(s.orgs.table, o, code);
    }
    PutIsLive(s.orgs.table, o, o.code);
  }

  // ---- each request keeps the state safe ----

  lemma {:induction false} CountUsersIs0Iff(t: Users.Table, code: string)
    ensures CountUsers(t, code) == 0 <==> forall id: nat :: Active(t, id) ==> t[id].org != code
  {
    if t != [] {
      CountUsersIs0Iff(t[1..], code);
      assert forall id: nat :: id < |t[1..]| ==> t[1..][id] == t[id + 1];
      assert Active(t, 0) <==> !t[0].deleted;
      forall id: nat | Active(t[1..], id) ensures Active(t, id + 1) {}
      forall id: nat | Active(t, id) && id > 0 ensures Active(t[1..], id - 1) {}
    }
  }

  lemma CheckOrgKeepsSafe(s: State, code: string, f: OC.Faults)
    requires Safe(s)
    ensures var (s', refusal) := R.CheckOrg(s, code, f);
      Safe(s') && s'.users == s.users && (refusal.None? ==> Live(s'.orgs.table, code))
  {
    ReadKeepsSound(s.orgs, OC.Exists(code), f);
    ReadsAreSound(s.orgs, code, f);
  }

  lemma RegisterKeepsSafe(s: State, name: string, email: string, password: string, org: string, f: R.Faults)
    requires Safe(s)
    ensures Safe(R.RegisterChecked(s, name, email, password, org, f).0)
  {
    CheckOrgKeepsSafe(s, org, f.org);
  }

  lemma {:induction false} BatchKeepsSafe(s: State, items: seq<R.Item>, fs: seq<R.Faults>, x: R.Texts, k: nat)
    requires Safe(s) && k <= |items| == |fs|
    ensures Safe(R.Batch(s, items, fs, x, k).state)
  {
    if k > 0 {
      BatchKeepsSafe(s, items, fs, x, k - 1);
      var p, item := R.Batch(s, items, fs, x, k - 1), items[k - 1];
      RegisterKeepsSafe(p.state, item.name, item.email, item.password, Trim(item.org), fs[k - 1]);
    }
  }

  lemma LoadKeepsSafe(s: State, code: string, f: OC.Faults)
    requires Safe(s)
    ensures var (w', found) := Load(s.orgs, code, f);
      && Safe(s.(orgs := w')) && w'.table == s.orgs.table
      && (found.Ok? && found.value.Some? ==> found.value.value.code == Trim(code) && !found.value.value.deleted)
  {
    ReadKeepsSound(s.orgs, OC.Get(Trim(code)), f);
    ReadsAreSound(s.orgs, Trim(code), f);
  }

  lemma WriteKeepsSafe(s: State, op: OC.Op, f: OC.Faults, reply: Reply)
    requires Safe(s)
    requires op.Create? || (op.Update? && !op.o.deleted)
    ensures Safe(s.(orgs := Write(s.orgs, op, f, reply).0))
  {
    var o := if op.Create? then op.o.(active := true, deleted := false) else op.o;
    PutKeepsSafe(s, o, if f.deleteFails then s.orgs.entries else OC.Remaining(s.orgs.entries, o.code));
  }

  lemma CreateKeepsSafe(s: State, ev: Event)
    requires Safe(s) && ev.CreateOrg?
    ensures Safe(s.(orgs := CreateStep(s.orgs, ev).0))
  {
    if ValidCode(Trim(ev.code)) {
      LoadKeepsSafe(s, ev.code, ev.load);
      var (w', found) := Load(s.orgs, ev.code, ev.load);
      if found == Ok(None) {
        var o := Repo.Org(Trim(ev.code), Trim(ev.name), ev.description, true, ev.now, ev.now, false);
        WriteKeepsSafe(s.(orgs := w'), OC.Create(o), ev.write, Answer(o));
      }
    }
  }

  lemma UpdateKeepsSafe(s: State, ev: Event)
    requires Safe(s) && ev.UpdateOrg?
    ensures Safe(s.(orgs := UpdateStep(s.orgs, ev).0))
  {
    LoadKeepsSafe(s, ev.code, ev.load);
    var (w', found) := Load(s.orgs, ev.code, ev.load);
    if found.Ok? && found.value.Some? {
      var o := Edited(found.value.value, ev);
      WriteKeepsSafe(s.(orgs := w'), OC.Update(o), ev.write, Answer(o));
    }
  }

  lemma SoftDeleteKeepsSafe(s: State, code: string, f: OC.Faults)
    requires Safe(s) && !f.deleteFails && CountUsers(s.users, code) == 0
    ensures Safe(s.(orgs := Write(s.orgs, OC.SoftDelete(code), f, Done).0))
  {
    CountUsersIs0Iff(s.users, code);
    match Repo.RowOf(s.orgs.table, code)
    case Some(o) =>
      Repo.RowOfMember(s.orgs.table, code);
      DeleteKeepsSafe(s, o.(deleted := true));
    case None =>
  }

  lemma DeleteOrgKeepsSafe(s: State, ev: Event)
    requires Safe(s) && ev.DeleteOrg? && !ev.write.deleteFails
    ensures Safe(s.(orgs := DeleteStep(s, ev).0))
  {
    LoadKeepsSafe(s, ev.code, ev.load);
    var (w', found) := Load(s.orgs, ev.code, ev.load);
    if found.Ok? && found.value.Some? && CountUsers(s.users, found.value.value.code) == 0 {
      SoftDeleteKeepsSafe(s.(orgs := w'), found.value.value.code, ev.write);
    }
  }

  /** Edits and deletions of users give no user a new organization. */
  lemma UserWritesKeepSafe(s: State, users: Users.Table)
    requires Safe(s) && |users| == |s.users|
    requires forall id: nat :: Active(users, id) ==> Active(s.users, id) && users[id].org == s.users[id].org
    ensures Safe(s.(users := users))
  {
  }

  /** Deleting a user takes that user away; editing takes none, and neither touches an organization. */
  lemma UserEventsAre(s: State, ev: Event, x: R.Texts, id: nat)
    requires ev.EditUser? || ev.DeleteUser?
    ensures var s' := Next(s, ev, x);
      && s'.orgs == s.orgs && |s'.users| == |s.users|
      && (Active(s'.users, id) <==> Active(s.users, id) && !(ev.DeleteUser? && ev.id == id && !ev.fails))
      && (Active(s'.users, id) && ev.EditUser? && ev.id == id && !ev.fails && ev.password != "" ==> s'.users[id].password == ev.password)
  {
  }

  lemma StepKeepsSafe(s: State, ev: Event, x: R.Texts)
    requires Safe(s) && WellShaped(ev) && (ev.DeleteOrg? ==> !ev.write.deleteFails)
    ensures Safe(Next(s, ev, x))
  {
    match ev
    case Register(req, f) => RegisterKeepsSafe(s, req.name, req.email, req.password, Trim(req.org), f);
    case BulkRegister(items, fs) => BatchKeepsSafe(s, items, fs, x, |items|);
    case CreateOrg(_, _, _, _, _, _) => CreateKeepsSafe(s, ev);
    case UpdateOrg(_, _, _, _, _, _, _) => UpdateKeepsSafe(s, ev);
    case DeleteOrg(_, _, _, _) => DeleteOrgKeepsSafe(s, ev);
    case EditUser(id, name, password, fails) => UserWritesKeepSafe(s, Next(s, ev, x).users);
    case DeleteUser(id, fails) => UserWritesKeepSafe(s, Next(s, ev, x).users);
    case ReadOrgs(op, f) => ReadKeepsSound(s.orgs, op, f);
    case Vanish(keys) =>
  }

  /**
   Tenant referential integrity: over every run of atomic requests in which the delete
   requests' own invalidations succeed (those of creations and updates may be lost),
   every active user's organization names a live row.
   */
  lemma {:induction false} EveryActiveUserHasALiveOrganization(s: State, run: seq<Event>, x: R.Texts)
    requires Safe(s) && Possible(run)
    requires forall i :: 0 <= i < |run| && run[i].DeleteOrg? ==> !run[i].write.deleteFails
    ensures Safe(After(s, run, x))
  {
    if run != [] {
      EveryActiveUserHasALiveOrganization(s, run[..|run| - 1], x);
      StepKeepsSafe(After(s, run[..|run| - 1], x), run[|run| - 1], x);
    }
  }

  // ---- exactly when the cache lets an orphan in ----

  /** The cache still admits an organization that is gone. */
  predicate StaleAdmission(s: State, code: string, getFails: bool) {
    OC.Hit(s.orgs.entries, OC.Exists(code), getFails) == Some(OC.Flag(true)) && !Live(s.orgs.table, code)
  }

  /** A stale "1" admits the organization, the address is free and nothing fails. */
  ghost predicate LetsOrphanIn(s: State, code: string, email: string, f: R.Faults) {
    && StaleAdmission(s, code, f.org.getFails)
    && (forall id: nat :: !HasEmail(s.users, id, email))
    && !f.lookupFails && !f.passwordFails && !f.hashFails && !f.createFails
  }

  lemma CheckedBreaksIntegrityIff(s: State, name: string, email: string, password: string, code: string, f: R.Faults)
    ensures !Integrity(R.RegisterChecked(s, name, email, password, code, f).0) <==> !Integrity(s) || LetsOrphanIn(s, code, email, f)
  {
    var (s', v) := R.RegisterChecked(s, name, email, password, code, f);
    assert s'.orgs.table == s.orgs.table;
    if v.Created? {
      assert s'.users == s.users + [NewUser(name, email, password, code)];
      assert Active(s'.users, |s.users|) && s'.users[|s.users|].org == code;
      if Repo.ExistsActive(s.orgs.table, code) { assert Live(s.orgs.table, code); }
      forall id: nat ensures Active(s.users, id) ==> Active(s'.users, id) && s'.users[id] == s.users[id] {}
      forall id: nat ensures !HasEmail(s.users, id, email) {}
    } else {
      assert s'.users == s.users;
    }
  }

  /** With no assumption on the cache: a registration breaks integrity exactly when a stale "1" admits it, its address is free and nothing fails. */
  lemma RegisterBreaksIntegrityIff(s: State, req: R.Request, f: R.Faults)
    requires Integrity(s)
    ensures !Integrity(R.Register(s, req, f).0) <==>
      && StaleAdmission(s, Trim(req.org), f.org.getFails)
      && (forall id: nat :: !HasEmail(s.users, id, req.email))
      && !f.lookupFails && !f.passwordFails && !f.hashFails && !f.createFails
  {
    CheckedBreaksIntegrityIff(s, req.name, req.email, req.password, Trim(req.org), f);
  }

  /** An item of a batch passes the batch's own checks and lets an orphan in. */
  ghost predicate ItemLetsOrphanIn(p: R.Progress, item: R.Item, f: R.Faults, x: R.Texts) {
    R.WellFormed(item, x) && R.Norm(item.email, x) !in p.seen && LetsOrphanIn(p.state, Trim(item.org), item.email, f)
  }

  lemma ItemBreaksIntegrityIff(p: R.Progress, item: R.Item, f: R.Faults, x: R.Texts)
    ensures !Integrity(R.ItemStep(p, item, f, x).state) <==> !Integrity(p.state) || ItemLetsOrphanIn(p, item, f, x)
  {
    CheckedBreaksIntegrityIff(p.state, item.name, item.email, item.password, Trim(item.org), f);
  }

  ghost predicate BreaksAtItem(s: State, items: seq<R.Item>, fs: seq<R.Faults>, x: R.Texts, i: nat)
    requires i < |items| == |fs|
  {
    ItemLetsOrphanIn(R.Batch(s, items, fs, x, i), items[i], fs[i], x)
  }

  ghost predicate IntactAfterItems(s: State, items: seq<R.Item>, fs: seq<R.Faults>, x: R.Texts, k: nat)
    requires k <= |items| == |fs|
  {
    Integrity(R.Batch(s, items, fs, x, k).state)
  }

  lemma {:induction false} NextItemBreaksIff(s: State, items: seq<R.Item>, fs: seq<R.Faults>, x: R.Texts, k: nat)
    requires k < |items| == |fs|
    ensures !IntactAfterItems(s, items, fs, x, k + 1) <==> !IntactAfterItems(s, items, fs, x, k) || BreaksAtItem(s, items, fs, x, k)
  {
    ItemBreaksIntegrityIff(R.Batch(s, items, fs, x, k), items[k], fs[k], x);
  }

  /** What holds at first and is lost for good at each break holds exactly until the first break. */
  lemma {:induction false} HoldsUntilBroken(holds: seq<bool>, breaks: seq<bool>, k: nat)
    requires k < |holds| == |breaks| + 1 && holds[0]
    requires forall i :: 0 <= i < |breaks| ==> holds[i + 1] == (holds[i] && !breaks[i])
    ensures holds[k] <==> forall i :: 0 <= i < k ==> !breaks[i]
  {
    if k > 0 { HoldsUntilBroken(holds, breaks, k - 1); }
  }

  /** A batch breaks integrity exactly when one of its items does. */
  lemma {:induction false} BatchBreaksIntegrityIff(s: State, items: seq<R.Item>, fs: seq<R.Faults>, x: R.Texts)
    requires Integrity(s) && |items| == |fs|
    ensures !IntactAfterItems(s, items, fs, x, |items|) <==> exists i :: 0 <= i < |items| && BreaksAtItem(s, items, fs, x, i)
  {
    var n := |items|;
    var holds := seq(n + 1, k requires 0 <= k <= n => IntactAfterItems(s, items, fs, x, k));
    var breaks := seq(n, k requires 0 <= k < n => BreaksAtItem(s, items, fs, x, k));
    forall i | 0 <= i < n ensures holds[i + 1] == (holds[i] && !breaks[i]) { NextItemBreaksIff(s, items, fs, x, i); }
    HoldsUntilBroken(holds, breaks, n);
    assert forall i :: 0 <= i < n ==> breaks[i] == BreaksAtItem(s, items, fs, x, i);
  }

  // ---- every other request keeps integrity, whatever the cache says ----

  lemma PutKeepsIntegrity(s: State, o: Org, left: Entries)
    requires Repo.Sorted(s.orgs.table) && Integrity(s)
    requires o.deleted ==> forall id: nat :: Active(s.users, id) ==> s.users[id].org != o.code
    ensures Integrity(s.(orgs := OC.World(Repo.Put(s.orgs.table, o), left)))
    ensures Repo.Sorted(Repo.Put(s.orgs.table, o))
  {
    PutIsLive(s.orgs.table, o, o.code);
    forall id: nat | Active(s.users, id) ensures Live(Repo.Put(s.orgs.table, o), s.users[id].org) {
      PutIsLive(s.orgs.table, o, s.users[id].org);
    }
  }

  lemma WriteKeepsIntegrity(s: State, op: OC.Op, f: OC.Faults, reply: Reply)
    requires Repo.Sorted(s.orgs.table) && Integrity(s)
    requires op.Create? || (op.Update? && !op.o.deleted) || (op.SoftDelete? && CountUsers(s.users, op.code) == 0)
    ensures var w := Write(s.orgs, op, f, reply).0;
      Repo.Sorted(w.table) && Integrity(s.(orgs := w))
  {
    var w := Write(s.orgs, op, f, reply).0;
    match op
    case Create(o) => PutKeepsIntegrity(s, o.(active := true, deleted := false), w.entries);
    case Update(o) => PutKeepsIntegrity(s, o, w.entries);
    case SoftDelete(code) =>
      CountUsersIs0Iff(s.users, code);
      Repo.RowOfMember(s.orgs.table, code);
      match Repo.RowOf(s.orgs.table, code)
      case Some(o) => PutKeepsIntegrity(s, o.(deleted := true), w.entries);
      case None =>
  }

  lemma LoadedIsUndeleted(w: OC.World, code: string, f: OC.Faults)
    ensures var (w', found) := Load(w, code, f);
      w'.table == w.table && (found.Ok? && found.value.Some? ==> !found.value.value.deleted)
  {
  }

  lemma OrgRequestsKeepIntegrity(s: State, ev: Event)
    requires Repo.Sorted(s.orgs.table) && Integrity(s) && (ev.CreateOrg? || ev.UpdateOrg? || ev.DeleteOrg?)
    ensures var w := if ev.CreateOrg? then CreateStep(s.orgs, ev).0 else if ev.UpdateOrg? then UpdateStep(s.orgs, ev).0 else DeleteStep(s, ev).0;
      Repo.Sorted(w.table) && Integrity(s.(orgs := w))
  {
    LoadedIsUndeleted(s.orgs, ev.code, ev.load);
    var (w', found) := Load(s.orgs, ev.code, ev.load);
    var s' := s.(orgs := w');
    if ev.CreateOrg? {
      var o := Repo.Org(Trim(ev.code), Trim(ev.name), ev.description, true, ev.now, ev.now, false);
      WriteKeepsIntegrity(s', OC.Create(o), ev.write, Answer(o));
    } else if found.Ok? && found.value.Some? {
      var o := found.value.value;
      if ev.UpdateOrg? {
        WriteKeepsIntegrity(s', OC.Update(Edited(o, ev)), ev.write, Answer(Edited(o, ev)));
      } else if CountUsers(s.users, o.code) == 0 {
        WriteKeepsIntegrity(s', OC.SoftDelete(o.code), ev.write, Done);
      }
    }
  }

  lemma ItemKeepsTable(p: R.Progress, item: R.Item, f: R.Faults, x: R.Texts)
    ensures R.ItemStep(p, item, f, x).state.orgs.table == p.state.orgs.table
  {
  }

  lemma {:induction false} BatchKeepsTable(s: State, items: seq<R.Item>, fs: seq<R.Faults>, x: R.Texts, k: nat)
    requires k <= |items| == |fs|
    ensures R.Batch(s, items, fs, x, k).state.orgs.table == s.orgs.table
  {
    if k > 0 {
      BatchKeepsTable(s, items, fs, x, k - 1);
      ItemKeepsTable(R.Batch(s, items, fs, x, k - 1), items[k - 1], fs[k - 1], x);
    }
  }

  /** The event lets an orphan in. */
  ghost predicate Breaks(s: State, ev: Event, x: R.Texts)
    requires WellShaped(ev)
  {
    match ev
    case Register(req, f) => LetsOrphanIn(s, Trim(req.org), req.email, f)
    case BulkRegister(items, fs) => exists i :: 0 <= i < |items| && BreaksAtItem(s, items, fs, x, i)
    case _ => false
  }

  lemma StepBreaksIntegrityIff(s: State, ev: Event, x: R.Texts)
    requires Repo.Sorted(s.orgs.table) && Integrity(s) && WellShaped(ev)
    ensures Repo.Sorted(Next(s, ev, x).orgs.table)
    ensures !Integrity(Next(s, ev, x)) <==> Breaks(s, ev, x)
  {
    match ev
    case Register(req, f) => CheckedBreaksIntegrityIff(s, req.name, req.email, req.password, Trim(req.org), f);
    case BulkRegister(items, fs) =>
      BatchKeepsTable(s, items, fs, x, |items|);
      BatchBreaksIntegrityIff(s, items, fs, x);
    case CreateOrg(_, _, _, _, _, _) => OrgRequestsKeepIntegrity(s, ev);
    case UpdateOrg(_, _, _, _, _, _, _) => OrgRequestsKeepIntegrity(s, ev);
    case DeleteOrg(_, _, _, _) => OrgRequestsKeepIntegrity(s, ev);
    case EditUser(_, _, _, _) =>
    case DeleteUser(_, _) =>
    case ReadOrgs(_, _) =>
    case Vanish(_) =>
  }

  ghost predicate IntactAt(s: State, run: seq<Event>, x: R.Texts, j: nat)
    requires Possible(run) && j <= |run|
  {
    Integrity(After(s, run[..j], x))
  }

  ghost predicate BreaksAt(s: State, run: seq<Event>, x: R.Texts, j: nat)
    requires Possible(run) && j < |run|
  {
    Breaks(After(s, run[..j], x), run[j], x)
  }

  lemma {:induction false} UnbrokenStaysIntact(s: State, run: seq<Event>, x: R.Texts)
    requires Repo.Sorted(s.orgs.table) && Integrity(s) && Possible(run)
    requires forall j :: 0 <= j < |run| ==> !BreaksAt(s, run, x, j)
    ensures Repo.Sorted(After(s, run, x).orgs.table) && Integrity(After(s, run, x))
  {
    if run != [] {
      var before := run[..|run| - 1];
      forall j | 0 <= j < |before| ensures !BreaksAt(s, before, x, j) {
        assert before[..j] == run[..j] && !BreaksAt(s, run, x, j);
      }
      UnbrokenStaysIntact(s, before, x);
      assert !BreaksAt(s, run, x, |run| - 1);
      StepBreaksIntegrityIff(After(s, before, x), run[|run| - 1], x);
    }
  }

  lemma {:induction false} IntactStaysSorted(s: State, run: seq<Event>, x: R.Texts)
    requires Repo.Sorted(s.orgs.table) && Possible(run)
    requires forall j :: 0 <= j < |run| ==> IntactAt(s, run, x, j)
    ensures Repo.Sorted(After(s, run, x).orgs.table)
  {
    if run != [] {
      var before := run[..|run| - 1];
      forall j | 0 <= j < |before| ensures IntactAt(s, before, x, j) { assert before[..j] == run[..j] && IntactAt(s, run, x, j); }
      IntactStaysSorted(s, before, x);
      assert IntactAt(s, run, x, |run| - 1);
      StepBreaksIntegrityIff(After(s, before, x), run[|run| - 1], x);
    }
  }

  lemma {:induction false} IntactIsUnbroken(s: State, run: seq<Event>, x: R.Texts, j: nat)
    requires Repo.Sorted(s.orgs.table) && Possible(run) && j < |run|
    requires forall k :: 0 <= k <= |run| ==> IntactAt(s, run, x, k)
    ensures !BreaksAt(s, run, x, j)
  {
    var before := run[..j];
    forall k | 0 <= k < j ensures IntactAt(s, before, x, k) { assert before[..k] == run[..k] && IntactAt(s, run, x, k); }
    IntactStaysSorted(s, before, x);
    assert IntactAt(s, run, x, j) && IntactAt(s, run, x, j + 1);
    assert run[..j + 1][..j] == before;
    StepBreaksIntegrityIff(After(s, before, x), run[j], x);
  }

  /**
   Over every run, with no assumption on the cache and any failure or lost invalidation:
   integrity holds throughout exactly when no registration, alone or in a batch, meets a
   stale "1" with a free address and no fault.
   */
  lemma {:induction false} IntegrityHoldsThroughoutIff(s: State, run: seq<Event>, x: R.Texts)
    requires Repo.Sorted(s.orgs.table) && Integrity(s) && Possible(run)
    ensures (forall j :: 0 <= j <= |run| ==> IntactAt(s, run, x, j)) <==> (forall j :: 0 <= j < |run| ==> !BreaksAt(s, run, x, j))
  {
    if forall j :: 0 <= j <= |run| ==> IntactAt(s, run, x, j) {
      forall j | 0 <= j < |run| ensures !BreaksAt(s, run, x, j) { IntactIsUnbroken(s, run, x, j); }
    } else if forall j :: 0 <= j < |run| ==> !BreaksAt(s, run, x, j) {
      forall k | 0 <= k <= |run| ensures IntactAt(s, run, x, k) {
        forall j | 0 <= j < k ensures !BreaksAt(s, run[..k], x, j) {
          assert run[..k][..j] == run[..j] && !BreaksAt(s, run, x, j);
        }
        UnbrokenStaysIntact(s, run[..k], x);
      }
      assert false;
    }
  }

  const OK := OC.Faults(false, false, false, false)
  const LOST := OC.Faults(false, false, false, true)
  const PLN := Repo.Org("pln", "PLN", "", true, 0, 0, false)
  const GONE := PLN.(deleted := true)
  const BEFORE := R.State(OC.World([PLN], map[]), [])
  const CACHED := R.State(OC.World([PLN], map[OrgExists("pln") := One, OrgGet("pln") := OrgText(Encode(PLN))]), [])
  const STALE := CACHED.(orgs := CACHED.orgs.(table := [GONE]))
  const ANN := R.Request("Ann", "ann@pln.id", "secret123", "pln")
  const READS := [ReadOrgs(OC.Exists("pln"), OK), ReadOrgs(OC.Get("pln"), OK)]
  const LOST_DELETE := DeleteOrg("pln", OK, false, LOST)
  const ANN_REGISTERS := Register(ANN, R.Faults(OK, false, false, false, false))

  lemma TrimPln()
    ensures Trim("pln") == "pln"
  {
    assert !IsSpace('p') && !IsSpace('n');
  }

  lemma TwoReadsFillTheCache(x: R.Texts)
    ensures Next(Next(BEFORE, ReadOrgs(OC.Exists("pln"), OK), x), ReadOrgs(OC.Get("pln"), OK), x) == CACHED
  {
    KeysCollideIff(ExistsRead("pln"), GetRead("pln"));
    var one := Next(BEFORE, ReadOrgs(OC.Exists("pln"), OK), x);
    assert one.orgs.entries == map[OrgExists("pln") := One];
    assert Next(one, ReadOrgs(OC.Get("pln"), OK), x).orgs.entries == CACHED.orgs.entries;
  }

  lemma ADeleteWithoutInvalidationLeavesTheCache(x: R.Texts)
    ensures Next(CACHED, LOST_DELETE, x) == STALE
  {
    TrimPln();
    assert OC.Hit(CACHED.orgs.entries, OC.Get("pln"), false) == Some(OC.Found(Some(PLN)));
  }

  lemma OneMore(s: State, run: seq<Event>, ev: Event, x: R.Texts)
    requires Possible(run) && WellShaped(ev)
    ensures Possible(run + [ev]) && After(s, run + [ev], x) == Next(After(s, run, x), ev, x)
  {
    assert (run + [ev])[..|run|] == run;
  }

  lemma AfterTheReads(x: R.Texts)
    ensures Possible(READS) && After(BEFORE, READS, x) == CACHED
  {
    TwoReadsFillTheCache(x);
    OneMore(BEFORE, [], READS[0], x);
    OneMore(BEFORE, [READS[0]], READS[1], x);
    assert READS == [READS[0]] + [READS[1]];
  }

  lemma StaleStateAdmitsAnn(x: R.Texts)
    ensures !Integrity(Next(STALE, ANN_REGISTERS, x))
  {
    TrimPln();
    RegisterBreaksIntegrityIff(STALE, ANN, ANN_REGISTERS.rf);
  }

  /** A lost invalidation of a delete: a user is registered in a deleted organization. */
  lemma LostInvalidationAdmitsAnOrphan(x: R.Texts)
    ensures Safe(BEFORE) && Possible(READS + [LOST_DELETE] + [ANN_REGISTERS])
    ensures !Integrity(After(BEFORE, READS + [LOST_DELETE] + [ANN_REGISTERS], x))
  {
    AfterTheReads(x);
    OneMore(BEFORE, READS, LOST_DELETE, x);
    ADeleteWithoutInvalidationLeavesTheCache(x);
    OneMore(BEFORE, READS + [LOST_DELETE], ANN_REGISTERS, x);
    StaleStateAdmitsAnn(x);
  }

  // ---- exactly when an update revives a deleted organization ----

  /** A cached row carries the code it is cached under. */
  ghost predicate NamesOk(entries: Entries) {
    forall code :: OrgGet(code) in entries && entries[OrgGet(code)].OrgText? ==> entries[OrgGet(code)].o.code == code
  }

  /** Whatever fails, and whatever invalidation is lost. */
  lemma StepKeepsNames(w: OC.World, op: OC.Op, f: OC.Faults)
    requires NamesOk(w.entries)
    ensures NamesOk(OC.CachedStep(w, op, f).0.entries)
  {
    if OC.IsRead(op) {
      var w' := OC.CachedStep(w, op, f).0;
      forall code | OrgGet(code) in w'.entries && w'.entries[OrgGet(code)].OrgText? ensures w'.entries[OrgGet(code)].o.code == code {
        KeysCollideIff(GetRead(code), OC.AsRead(op));
        Repo.RowOfMember(w.table, code);
      }
    }
  }

  lemma {:induction false} BatchKeepsNames(s: State, items: seq<R.Item>, fs: seq<R.Faults>, x: R.Texts, k: nat)
    requires NamesOk(s.orgs.entries) && k <= |items| == |fs|
    ensures NamesOk(R.Batch(s, items, fs, x, k).state.orgs.entries)
  {
    if k > 0 {
      BatchKeepsNames(s, items, fs, x, k - 1);
      StepKeepsNames(R.Batch(s, items, fs, x, k - 1).state.orgs, OC.Exists(Trim(items[k - 1].org)), fs[k - 1].org);
    }
  }

  lemma CreateKeepsNames(w: OC.World, ev: Event)
    requires NamesOk(w.entries) && ev.CreateOrg?
    ensures NamesOk(CreateStep(w, ev).0.entries)
  {
    StepKeepsNames(w, OC.Get(Trim(ev.code)), ev.load);
    var o := Repo.Org(Trim(ev.code), Trim(ev.name), ev.description, true, ev.now, ev.now, false);
    StepKeepsNames(Load(w, ev.code, ev.load).0, OC.Create(o), ev.write);
  }

  lemma UpdateKeepsNames(w: OC.World, ev: Event)
    requires NamesOk(w.entries) && ev.UpdateOrg?
    ensures NamesOk(UpdateStep(w, ev).0.entries)
  {
    StepKeepsNames(w, OC.Get(Trim(ev.code)), ev.load);
    var (w', found) := Load(w, ev.code, ev.load);
    if found.Ok? && found.value.Some? { StepKeepsNames(w', OC.Update(Edited(found.value.value, ev)), ev.write); }
  }

  lemma DeleteKeepsNames(s: State, ev: Event)
    requires NamesOk(s.orgs.entries) && ev.DeleteOrg?
    ensures NamesOk(DeleteStep(s, ev).0.entries)
  {
    StepKeepsNames(s.orgs, OC.Get(Trim(ev.code)), ev.load);
    var (w', found) := Load(s.orgs, ev.code, ev.load);
    if found.Ok? && found.value.Some? { StepKeepsNames(w', OC.SoftDelete(found.value.value.code), ev.write); }
  }

  lemma {:induction false} RunKeepsNames(s: State, run: seq<Event>, x: R.Texts)
    requires NamesOk(s.orgs.entries) && Possible(run)
    ensures NamesOk(After(s, run, x).orgs.entries)
  {
    if run != [] {
      RunKeepsNames(s, run[..|run| - 1], x);
      var last, ev := After(s, run[..|run| - 1], x), run[|run| - 1];
      match ev
      case Register(req, f) => StepKeepsNames(last.orgs, OC.Exists(Trim(req.org)), f.org);
      case BulkRegister(items, fs) => BatchKeepsNames(last, items, fs, x, |items|);
      case CreateOrg(_, _, _, _, _, _) => CreateKeepsNames(last.orgs, ev);
      case UpdateOrg(_, _, _, _, _, _, _) => UpdateKeepsNames(last.orgs, ev);
      case DeleteOrg(_, _, _, _) => DeleteKeepsNames(last, ev);
      case ReadOrgs(op, f) => StepKeepsNames(last.orgs, op, f);
      case _ =>
    }
  }

  predicate RowCached(entries: Entries, code: string) {
    OrgGet(code) in entries && entries[OrgGet(code)].OrgText?
  }

  /**
   In every state with a sorted table and honest names: updating an organization that is gone
   answers, and brings it back, exactly when its row is still cached and neither the get nor
   the write fails.
   */
  lemma {:induction false} StaleUpdateRevivesIff(s: State, ev: Event)
    requires Repo.Sorted(s.orgs.table) && NamesOk(s.orgs.entries) && ev.UpdateOrg? && !Live(s.orgs.table, Trim(ev.code))
    ensures var (code, (w, reply)) := (Trim(ev.code), UpdateStep(s.orgs, ev));
      var stale := RowCached(s.orgs.entries, code) && !ev.load.getFails && !ev.write.dbFails;
      (reply.Answer? <==> stale) && (Live(w.table, code) <==> stale)
  {
    var code := Trim(ev.code);
    if RowCached(s.orgs.entries, code) && !ev.load.getFails {
      PutIsLive(s.orgs.table, Edited(Decode(s.orgs.entries[OrgGet(code)].o), ev), code);
    }
  }

  /** Such a state is reached by the lost invalidation above. */
  lemma StaleRowRevivesTheOrganization(x: R.Texts)
    ensures !Live(STALE.orgs.table, "pln")
    ensures Live(Next(STALE, UpdateOrg("pln", "", "", None, 1, OK, OK), x).orgs.table, "pln")
  {
    TrimPln();
    forall code | OrgGet(code) in STALE.orgs.entries && STALE.orgs.entries[OrgGet(code)].OrgText? ensures code == "pln" {
      KeysCollideIff(GetRead(code), GetRead("pln"));
      KeysCollideIff(GetRead(code), ExistsRead("pln"));
    }
    StaleUpdateRevivesIff(STALE, UpdateOrg("pln", "", "", None, 1, OK, OK));
  }

  /** The admin's list scope is a valid organization code. */
  lemma AllOrgsIsAValidCode()
    ensures ValidCode(ALL_ORGS)
  {
    assert ALL_ORGS == ['_', '_', 'a', 'l', 'l', '_', '_'];
  }

  // ---- exact outcomes when cache and table agree ----

  /** The state after loading on an agreeing cache: the row is the table's, and the table has not moved. */
  lemma LoadsTheRow(w: OC.World, code: string, f: OC.Faults)
    requires OC.Coherent(w) && !f.dbFails
    ensures var (w', found) := Load(w, code, f);
      OC.Coherent(w') && w'.table == w.table && found == Ok(Repo.GetByCode(w.table, Trim(code)))
  {
    OC.StepRefines(w, OC.Get(Trim(code)), f.(deleteFails := false));
  }

  /** Deleting succeeds exactly for a live organization with no active user. */
  lemma {:induction false} DeleteSucceedsIff(s: State, ev: Event)
    requires OC.Coherent(s.orgs) && ev.DeleteOrg? && !ev.load.dbFails && !ev.countFails && !ev.write.dbFails
    ensures var (code, reply) := (Trim(ev.code), DeleteStep(s, ev).1);
      && (reply == Done <==> Live(s.orgs.table, code) && forall id: nat :: Active(s.users, id) ==> s.users[id].org != code)
      && (reply == Failed(NotFound) <==> !Live(s.orgs.table, code))
      && (reply == Done || reply == Failed(NotFound) || reply == Failed(HasUsers))
  {
    LoadsTheRow(s.orgs, ev.code, ev.load);
    CountUsersIs0Iff(s.users, Trim(ev.code));
    Repo.RowOfMember(s.orgs.table, Trim(ev.code));
  }

  /** On any cache and with any failure: only an invalid code is called one, and what the database refuses is an internal error, never a success. */
  lemma FailuresAreReported(s: State, ev: Event)
    requires ev.CreateOrg? || ev.UpdateOrg? || ev.DeleteOrg?
    ensures var reply := if ev.CreateOrg? then CreateStep(s.orgs, ev).1 else if ev.UpdateOrg? then UpdateStep(s.orgs, ev).1 else DeleteStep(s, ev).1;
      && (reply == Failed(InvalidCode) <==> ev.CreateOrg? && !ValidCode(Trim(ev.code)))
      && (Load(s.orgs, ev.code, ev.load).1.Err? ==> reply == Failed(Internal) || reply == Failed(InvalidCode))
      && (ev.write.dbFails ==> !reply.Answer? && reply != Done)
      && (ev.DeleteOrg? && ev.countFails ==> reply == Failed(NotFound) || reply == Failed(Internal))
  {
  }

  lemma SoftDeleteIsLiveIff(t: Repo.Table, code: string, c: string)
    requires Repo.Sorted(t)
    ensures Live(Repo.SoftDelete(t, code), c) <==> c != code && Live(t, c)
  {
    Repo.RowOfMember(t, code);
    match Repo.RowOf(t, code)
    case Some(o) => PutIsLive(t, o.(deleted := true), c);
    case None =>
  }

  /** And it takes away that organization only, whatever fails. */
  lemma {:induction false} DeleteRemovesOnlyItsOwn(s: State, ev: Event, c: string)
    requires OC.Coherent(s.orgs) && ev.DeleteOrg? && !ev.load.dbFails
    ensures Live(DeleteStep(s, ev).0.table, c) <==> Live(s.orgs.table, c) && !(DeleteStep(s, ev).1 == Done && c == Trim(ev.code))
  {
    LoadsTheRow(s.orgs, ev.code, ev.load);
    Repo.RowOfMember(s.orgs.table, Trim(ev.code));
    SoftDeleteIsLiveIff(s.orgs.table, Trim(ev.code), c);
  }

  /** Creating succeeds exactly for a valid code with no row at all: a deleted organization keeps its code. */
  lemma {:induction false} CreateSucceedsIff(s: State, ev: Event)
    requires OC.Coherent(s.orgs) && ev.CreateOrg? && !ev.load.dbFails && !ev.write.dbFails
    ensures var (code, reply) := (Trim(ev.code), CreateStep(s.orgs, ev).1);
      && (reply.Answer? <==> ValidCode(code) && Repo.RowOf(s.orgs.table, code).None?)
      && (reply == Failed(AlreadyExists) <==> ValidCode(code) && Live(s.orgs.table, code))
      && (reply == Failed(Internal) <==> ValidCode(code) && Repo.RowOf(s.orgs.table, code).Some? && !Live(s.orgs.table, code))
  {
    OC.StepRefines(s.orgs, OC.Get(Trim(ev.code)), ev.load.(deleteFails := false));
  }

  /** A created organization may be registered with at once, and no other row has moved. */
  lemma {:induction false} CreatedIsActive(s: State, ev: Event, other: string)
    requires OC.Coherent(s.orgs) && ev.CreateOrg? && CreateStep(s.orgs, ev).1.Answer?
    ensures var t := CreateStep(s.orgs, ev).0.table;
      && Repo.RowOf(t, Trim(ev.code)) == Some(Repo.Org(Trim(ev.code), Trim(ev.name), ev.description, true, ev.now, ev.now, false))
      && Repo.ExistsActive(t, Trim(ev.code)) && (other != Trim(ev.code) ==> Repo.RowOf(t, other) == Repo.RowOf(s.orgs.table, other))
  {
    var o := CreateStep(s.orgs, ev).1.o;
    OC.StepRefines(s.orgs, OC.Get(Trim(ev.code)), ev.load.(deleteFails := false));
    Repo.PutRow(s.orgs.table, o.(active := true, deleted := false), Trim(ev.code));
    Repo.PutRow(s.orgs.table, o.(active := true, deleted := false), other);
  }

  /** The row an update leaves, in terms of the row in the table and the request. */
  predicate IsEdit(before: Org, after: Org, ev: Event)
    requires ev.UpdateOrg?
  {
    && after.code == before.code && after.createdAt == before.createdAt && !after.deleted
    && after.description == ev.description && after.updatedAt == ev.now
    && after.name == (if Trim(ev.name) == "" then before.name else Trim(ev.name))
    && after.active == (match ev.active case Some(b) => b case None => before.active)
  }

  /** Updating succeeds exactly for a live organization, and edits the table's row though it was read from the cache. */
  lemma {:induction false} UpdateSucceedsIff(s: State, ev: Event)
    requires OC.Coherent(s.orgs) && ev.UpdateOrg? && !ev.load.dbFails && !ev.write.dbFails
    ensures var (code, t, (w, reply)) := (Trim(ev.code), s.orgs.table, UpdateStep(s.orgs, ev));
      && (reply.Answer? <==> Live(t, code)) && (reply == Failed(NotFound) <==> !Live(t, code))
      && (reply.Answer? ==> IsEdit(Repo.GetByCode(t, code).value, reply.o, ev) && Repo.RowOf(w.table, code) == Some(reply.o))
  {
    LoadsTheRow(s.orgs, ev.code, ev.load);
    var o := Repo.GetByCode(s.orgs.table, Trim(ev.code));
    Repo.RowOfMember(s.orgs.table, Trim(ev.code));
    if o.Some? { Repo.PutRow(s.orgs.table, Edited(o.value, ev), Trim(ev.code)); }
  }

  /** After an update that answers, and its invalidation, a registration there is refused when the update left the organization inactive, and only then. */
  lemma {:induction false} RefusedAfterUpdateIff(s: State, ev: Event, req: R.Request, f: R.Faults)
    requires OC.Coherent(s.orgs) && ev.UpdateOrg? && UpdateStep(s.orgs, ev).1.Answer? && !ev.load.dbFails && !ev.write.deleteFails
    requires Trim(req.org) == Trim(ev.code) && !R.Faulty(f)
    ensures var (w, o) := (UpdateStep(s.orgs, ev).0, Repo.GetByCode(s.orgs.table, Trim(ev.code)));
      && OC.Coherent(w) && o.Some?
      && (R.Register(s.(orgs := w), req, f).1 == R.Refused(R.InvalidOrganization) <==>
          !(match ev.active case Some(b) => b case None => o.value.active))
  {
    var (w, code) := (UpdateStep(s.orgs, ev).0, Trim(ev.code));
    LoadsTheRow(s.orgs, ev.code, ev.load);
    var (loaded, found) := Load(s.orgs, ev.code, ev.load);
    var o := Repo.GetByCode(s.orgs.table, code).value;
    Repo.RowOfMember(s.orgs.table, code);
    OC.StepRefines(loaded, OC.Update(Edited(o, ev)), ev.write);
    Repo.PutRow(s.orgs.table, Edited(o, ev), code);
    Repo.ExistsActiveIff(w.table, code);
    R.RegisterAnswersIff(s.(orgs := w), req, f);
  }

  lemma {:induction false} UpdateLeavesOtherRows(s: State, ev: Event, other: string)
    requires OC.Coherent(s.orgs) && ev.UpdateOrg? && !ev.load.dbFails && other != Trim(ev.code)
    ensures Repo.RowOf(UpdateStep(s.orgs, ev).0.table, other) == Repo.RowOf(s.orgs.table, other)
  {
    LoadsTheRow(s.orgs, ev.code, ev.load);
    var o := Repo.GetByCode(s.orgs.table, Trim(ev.code));
    Repo.RowOfMember(s.orgs.table, Trim(ev.code));
    if o.Some? { Repo.PutRow(s.orgs.table, Edited(o.value, ev), other); }
  }

  // ---- the service as the source writes it ----

  class OrganizationService {
    const repo: OC.CachedRepository
    const accounts: R.AuthService   // holds the users table that CountUsers reads

    ghost function Now(): State
      reads this, repo, repo.cache, accounts
    {
      R.State(repo.Now(), accounts.users)
    }

    constructor (repo: OC.CachedRepository, accounts: R.AuthService)
      ensures this.repo == repo && this.accounts == accounts
    {
      this.repo := repo;
      this.accounts := accounts;
    }

    method LoadOrg(code: string, f: OC.Faults) returns (o: Outcome<Option<Org>>)
      modifies repo.cache
      ensures (Now().orgs, o) == Load(old(Now()).orgs, code, f)
    {
      var normalized := Trim(code);
      o := repo.GetByCode(normalized, f);
    }

    method CreateOrg(code: string, name: string, description: string, now: int, load: OC.Faults, write: OC.Faults) returns (r: Reply)
      modifies repo`table, repo.cache
      ensures (Now().orgs, r) == CreateStep(old(Now()).orgs, Event.CreateOrg(code, name, description, now, load, write))
    {
      var normalized := Trim(code);
      if !ValidCode(normalized) { return Failed(InvalidCode); }
      var found := LoadOrg(code, load);
      if found.Err? { return Failed(Internal); }
      if found.value.Some? { return Failed(AlreadyExists); }
      var o := Repo.Org(normalized, Trim(name), description, true, now, now, false);
      var ok := repo.Create(o, write);
      if !ok { return Failed(Internal); }
      return Answer(o);
    }

    method UpdateOrg(code: string, name: string, description: string, active: Option<bool>, now: int, load: OC.Faults, write: OC.Faults)
      returns (r: Reply)
      modifies repo`table, repo.cache
      ensures (Now().orgs, r) == UpdateStep(old(Now()).orgs, Event.UpdateOrg(code, name, description, active, now, load, write))
    {
      var found := LoadOrg(code, load);
      if found.Err? { return Failed(Internal); }
      if found.value.None? { return Failed(NotFound); }
      var o := found.value.value;
      var trimmed := Trim(name);
      if trimmed != "" { o := o.(name := trimmed); }
      o := o.(description := description);
      if active.Some? { o := o.(active := active.value); }
      o := o.(updatedAt := now);
      var ok := repo.Update(o, write);
      if !ok { return Failed(Internal); }
      return Answer(o);
    }

    method DeleteOrg(code: string, load: OC.Faults, countFails: bool, write: OC.Faults) returns (r: Reply)
      modifies repo`table, repo.cache
      ensures (Now().orgs, r) == DeleteStep(old(Now()), Event.DeleteOrg(code, load, countFails, write))
    {
      var found := LoadOrg(code, load);
      if found.Err? { return Failed(Internal); }
      if found.value.None? { return Failed(NotFound); }
      if countFails { return Failed(Internal); }
      if CountUsers(accounts.users, found.value.value.code) > 0 { return Failed(HasUsers); }
      var ok := repo.SoftDelete(found.value.value.code, write);
      if !ok { return Failed(Internal); }
      return Done;
    }
  }
}
