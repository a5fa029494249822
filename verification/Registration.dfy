/**
 Registering users: one at a time (internal/service/auth/auth_service.go:74-115) and in
 a batch with per-item outcomes (internal/service/auth/bulk_register.go:31-128). The
 organization check is answered through the cached organization repository.
 */
module Registration {
  import opened Prelude
  import opened Strings
  import opened Users
  import OC = OrganizationCache
  import Repo = OrganizationRepository

  type UserTable = Users.Table

  datatype State = State(orgs: OC.World, users: UserTable)

  /** What the model leaves open about texts: the lower case of a rune, and which addresses parse. */
  datatype Texts = Texts(lower: char -> char, parses: string -> bool)

  /** What fails during one registration. */
  datatype Faults = Faults(org: OC.Faults, lookupFails: bool, passwordFails: bool, hashFails: bool, createFails: bool)

  datatype Refusal = ValidationError | DuplicateInBatch | InvalidOrganization | EmailTaken | InternalError

  datatype Verdict = Created(id: nat) | Refused(why: Refusal)

  // ---- the steps shared by both services ----

  /** `ExistsActive` through the cache: the state it leaves and the refusal it leads to, if any. */
  function CheckOrg(s: State, code: string, f: OC.Faults): (State, Option<Refusal>) {
    var r := OC.CachedStep(s.orgs, OC.Exists(code), f);
    (s.(orgs := r.0),
     match r.1
     case Flag(ok) => if ok then None else Some(InvalidOrganization)
     case _ => Some(InternalError))
  }

  /** The email check, the password and the insert. */
  function Insert(s: State, name: string, email: string, password: string, org: string, f: Faults): (State, Verdict) {
    if f.lookupFails then (s, Refused(InternalError))
    else if ExistsByEmail(s.users, email) then (s, Refused(EmailTaken))
    else if f.passwordFails || f.hashFails || f.createFails then (s, Refused(InternalError))
    else
      match Users.Create(s.users, NewUser(name, email, password, org))
      case Ok(t) => (s.(users := t), Created(|s.users|))
      case Err => (s, Refused(InternalError))
  }

  function RegisterChecked(s: State, name: string, email: string, password: string, org: string, f: Faults): (State, Verdict) {
    var (s', refusal) := CheckOrg(s, org, f.org);
    if refusal.Some? then (s', Refused(refusal.value)) else Insert(s', name, email, password, org, f)
  }

  // ---- one registration ----

  datatype Request = Request(name: string, email: string, password: string, org: string)

  function Register(s: State, req: Request, f: Faults): (State, Verdict) {
    RegisterChecked(s, req.name, req.email, req.password, Trim(req.org), f)
  }

  // ---- a batch ----

  /** One item, and the password generated for it. */
  datatype Item = Item(name: string, email: string, org: string, password: string)

  datatype Result = Result(index: nat, email: string, verdict: Verdict)

  function Norm(email: string, x: Texts): string {
    Trim(Lower(email, x.lower))
  }

  predicate WellFormed(item: Item, x: Texts) {
    && Trim(item.name) != "" && Norm(item.email, x) != "" && Trim(item.org) != ""
    && x.parses(Norm(item.email, x))
  }

  datatype Progress = Progress(state: State, seen: set<string>, results: seq<Result>)

  /** One item: the state and the addresses seen that it leaves, and its verdict. */
  function One(s: State, seen: set<string>, item: Item, f: Faults, x: Texts): (State, set<string>, Verdict) {
    var email := Norm(item.email, x);
    if !WellFormed(item, x) then (s, seen, Refused(ValidationError))
    else if email in seen then (s, seen, Refused(DuplicateInBatch))
    else
      var (s', v) := RegisterChecked(s, item.name, item.email, item.password, Trim(item.org), f);
      (s', seen + {email}, v)
  }

  function ItemStep(p: Progress, item: Item, f: Faults, x: Texts): Progress {
    var (s', seen', v) := One(p.state, p.seen, item, f, x);
    Progress(s', seen', p.results + [Result(|p.results|, item.email, v)])
  }

  /** The state, the addresses seen and the results after the first k items. */
  function Batch(s: State, items: seq<Item>, faults: seq<Faults>, x: Texts, k: nat): (p: Progress)
    requires k <= |items| == |faults|
    ensures |p.results| == k
  {
    if k == 0 then Progress(s, {}, []) else ItemStep(Batch(s, items, faults, x, k - 1), items[k - 1], faults[k - 1], x)
  }

  function CountCreated(rs: seq<Result>): (n: nat)
    ensures n <= |rs|
  {
    if rs == [] then 0 else CountCreated(rs[..|rs| - 1]) + if rs[|rs| - 1].verdict.Created? then 1 else 0
  }

  // ---- what a batch does, in terms of the state before it ----

  predicate SameAsEarlier(items: seq<Item>, x: Texts, i: nat)
    requires i < |items|
  {
    exists j :: 0 <= j < i && WellFormed(items[j], x) && Norm(items[j].email, x) == Norm(items[i].email, x)
  }

  /** The listing of organizations shows this one, active. */
  ghost predicate ListedActive(t: Repo.Table, code: string) {
    exists o :: o in Repo.List(t) && o.code == code && o.active
  }

  /** The refusal item i deserves in a world where no internal step fails. */
  ghost function Deserved(s: State, items: seq<Item>, x: Texts, i: nat): Option<Refusal>
    requires i < |items|
  {
    if !WellFormed(items[i], x) then Some(ValidationError)
    else if SameAsEarlier(items, x, i) then Some(DuplicateInBatch)
    else if !ListedActive(s.orgs.table, Trim(items[i].org)) then Some(InvalidOrganization)
    else if ExistsByEmail(s.users, items[i].email) then Some(EmailTaken)
    else None
  }

  predicate Faulty(f: Faults) {
    f.org.dbFails || f.lookupFails || f.passwordFails || f.hashFails || f.createFails
  }

  /** An internal error needs a fault and an item that passed the batch's own checks; otherwise the verdict is the deserved one. */
  ghost predicate Meets(s: State, items: seq<Item>, x: Texts, i: nat, f: Faults, v: Verdict)
    requires i < |items|
  {
    if v == Refused(InternalError) then Faulty(f) && WellFormed(items[i], x) && !SameAsEarlier(items, x, i)
    else (v.Created? <==> Deserved(s, items, x, i).None?) && (v.Refused? ==> Deserved(s, items, x, i) == Some(v.why))
  }

  /** How the state after k items relates to the state before the batch. */
  ghost predicate Follows(s: State, items: seq<Item>, x: Texts, k: nat, p: Progress)
    requires k <= |items|
  {
    && OC.Coherent(p.state.orgs) && p.state.orgs.table == s.orgs.table
    && (forall email :: email in p.seen <==> exists j :: 0 <= j < k && WellFormed(items[j], x) && Norm(items[j].email, x) == email)
    && |s.users| <= |p.state.users| && p.state.users[..|s.users|] == s.users
    && (forall id :: |s.users| <= id < |p.state.users| ==> Norm(p.state.users[id].email, x) in p.seen)
  }

  lemma CheckOrgAsksTheTable(s: State, code: string, f: OC.Faults)
    requires OC.Coherent(s.orgs)
    ensures var (s', refusal) := CheckOrg(s, code, f);
      && OC.Coherent(s'.orgs) && s'.orgs.table == s.orgs.table && s'.users == s.users
      && (if refusal == Some(InternalError) then f.dbFails
          else refusal == if ListedActive(s.orgs.table, code) then None else Some(InvalidOrganization))
  {
    Repo.ExistsActiveIff(s.orgs.table, code);
    OC.StepRefines(s.orgs, OC.Exists(code), f.(deleteFails := false));
  }

  /**
   A registration in which nothing fails is created exactly when the listing shows its
   organization active and no active user holds its address; it adds one plain user.
   */
  lemma RegisterAnswersIff(s: State, req: Request, f: Faults)
    requires OC.Coherent(s.orgs)
    ensures var ((s', v), listed) := (Register(s, req, f), ListedActive(s.orgs.table, Trim(req.org)));
      && s'.orgs.table == s.orgs.table
      && (!Faulty(f) ==>
        && (v.Created? <==> listed && !ExistsByEmail(s.users, req.email))
        && (v == Refused(InvalidOrganization) <==> !listed)
        && (v == Refused(EmailTaken) <==> listed && ExistsByEmail(s.users, req.email)))
      && (v == Refused(InternalError) ==> Faulty(f))
      && (v.Created? ==> v.id == |s.users|)
      && s'.users == s.users + (if v.Created? then [User(req.name, req.email, req.password, Trim(req.org), "user", 1, false)] else [])
  {
    CheckOrgAsksTheTable(s, Trim(req.org), f.org);
  }

  /** An item is well-formed exactly when name, organization and address are not blank and the address parses. */
  lemma WellFormedIff(item: Item, x: Texts)
    ensures WellFormed(item, x) <==>
      && (exists i :: 0 <= i < |item.name| && !IsSpace(item.name[i]))
      && (exists i :: 0 <= i < |item.org| && !IsSpace(item.org[i]))
      && (exists i :: 0 <= i < |item.email| && !IsSpace(x.lower(item.email[i])))
      && x.parses(Norm(item.email, x))
  {
    hide IsSpace;
    TrimLeavesSomethingIff(item.name);
    TrimLeavesSomethingIff(item.org);
    TrimLeavesSomethingIff(Lower(item.email, x.lower));
    assert forall i :: 0 <= i < |item.email| ==> Lower(item.email, x.lower)[i] == x.lower(item.email[i]);
  }

  /** Two items of a batch are the same user exactly when lower case and the spaces around are all that tells their addresses apart. */
  lemma SameUserIff(a: string, b: string, x: Texts)
    ensures Norm(a, x) == Norm(b, x) <==> exists t :: IsTrimmed(Lower(a, x.lower), t) && IsTrimmed(Lower(b, x.lower), t)
  {
    hide IsTrimmed;
    TrimIff(Lower(a, x.lower), Norm(a, x));
    TrimIff(Lower(b, x.lower), Norm(b, x));
    if t :| IsTrimmed(Lower(a, x.lower), t) && IsTrimmed(Lower(b, x.lower), t) {
      TrimIff(Lower(a, x.lower), t);
      TrimIff(Lower(b, x.lower), t);
    }
  }

  lemma {:induction false} UnseenEmailIsHeldIff(s: State, items: seq<Item>, x: Texts, k: nat, p: Progress)
    requires k < |items| && Follows(s, items, x, k, p) && Norm(items[k].email, x) !in p.seen
    ensures ExistsByEmail(p.state.users, items[k].email) <==> ExistsByEmail(s.users, items[k].email)
  {
    var email := items[k].email;
    forall id | 0 <= id < |p.state.users| && HasEmail(p.state.users, id, email) ensures HasEmail(s.users, id, email) {
      assert id < |s.users|;
      assert p.state.users[..|s.users|][id] == p.state.users[id];
    }
    forall id | 0 <= id < |s.users| && HasEmail(s.users, id, email) ensures HasEmail(p.state.users, id, email) {
      assert p.state.users[..|s.users|][id] == p.state.users[id];
    }
  }

  lemma ItemMeets(s: State, items: seq<Item>, x: Texts, k: nat, p: Progress, f: Faults)
    requires k < |items| && Follows(s, items, x, k, p) && |p.results| == k
    ensures Meets(s, items, x, k, f, ItemStep(p, items[k], f, x).results[k].verdict)
  {
    if WellFormed(items[k], x) && Norm(items[k].email, x) !in p.seen {
      CheckOrgAsksTheTable(p.state, Trim(items[k].org), f.org);
      UnseenEmailIsHeldIff(s, items, x, k, p);
    }
  }

  lemma ItemKeeps(s: State, items: seq<Item>, x: Texts, k: nat, p: Progress, f: Faults)
    requires k < |items| && Follows(s, items, x, k, p)
    ensures Follows(s, items, x, k + 1, ItemStep(p, items[k], f, x))
  {
    if WellFormed(items[k], x) && Norm(items[k].email, x) !in p.seen {
      CheckOrgAsksTheTable(p.state, Trim(items[k].org), f.org);
    }
  }

  lemma {:induction false} BatchFollows(s: State, items: seq<Item>, faults: seq<Faults>, x: Texts, k: nat)
    requires k <= |items| == |faults| && OC.Coherent(s.orgs)
    ensures Follows(s, items, x, k, Batch(s, items, faults, x, k))
  {
    if k > 0 {
      BatchFollows(s, items, faults, x, k - 1);
      ItemKeeps(s, items, x, k - 1, Batch(s, items, faults, x, k - 1), faults[k - 1]);
    }
  }

  lemma ItemKeepsResults(p: Progress, item: Item, f: Faults, x: Texts)
    ensures p.results <= ItemStep(p, item, f, x).results
  {
  }

  lemma {:induction false} ResultsStay(s: State, items: seq<Item>, faults: seq<Faults>, x: Texts, i: nat, k: nat)
    requires i < k <= |items| == |faults|
    ensures Batch(s, items, faults, x, k).results[i] == Batch(s, items, faults, x, i + 1).results[i]
  {
    if i + 1 < k {
      ResultsStay(s, items, faults, x, i, k - 1);
      ItemKeepsResults(Batch(s, items, faults, x, k - 1), items[k - 1], faults[k - 1], x);
    }
  }

  /**
   Item i is created exactly when it is well-formed, no earlier well-formed item has its
   normalised address (even one that failed), its organization is active, no active user
   holds its address as typed, and no internal step fails; otherwise the error says which.
   All of this is read off the state before the batch.
   */
  lemma EveryVerdictIsDeserved(s: State, items: seq<Item>, faults: seq<Faults>, x: Texts, i: nat)
    requires i < |items| == |faults| && OC.Coherent(s.orgs)
    ensures var r := Batch(s, items, faults, x, |items|).results[i];
      r.index == i && r.email == items[i].email && Meets(s, items, x, i, faults[i], r.verdict)
  {
    BatchFollows(s, items, faults, x, i);
    ItemMeets(s, items, x, i, Batch(s, items, faults, x, i), faults[i]);
    ResultsStay(s, items, faults, x, i, |items|);
  }

  // ---- the users a batch adds ----

  function RowOfItem(item: Item): User {
    User(item.name, item.email, item.password, Trim(item.org), "user", 1, false)
  }

  /** The rows of the created items, in item order. */
  function NewRows(items: seq<Item>, rs: seq<Result>): seq<User>
    requires |rs| <= |items|
  {
    if rs == [] then []
    else
      var n, item := |rs| - 1, items[|rs| - 1];
      NewRows(items, rs[..n]) + if rs[n].verdict.Created? then [RowOfItem(item)] else []
  }

  lemma OneAddsItsRow(s: State, seen: set<string>, item: Item, f: Faults, x: Texts)
    ensures var (s', seen', v) := One(s, seen, item, f, x);
      && s'.users == s.users + (if v.Created? then [RowOfItem(item)] else [])
      && (v.Created? ==> v.id == |s.users|)
  {
  }

  /** A batch adds one user per created item, in order, and nothing for the others. */
  lemma {:induction false} BatchAddsItsRows(s: State, items: seq<Item>, faults: seq<Faults>, x: Texts, k: nat)
    requires k <= |items| == |faults|
    ensures Batch(s, items, faults, x, k).state.users == s.users + NewRows(items, Batch(s, items, faults, x, k).results)
  {
    if k > 0 {
      BatchAddsItsRows(s, items, faults, x, k - 1);
      var p := Batch(s, items, faults, x, k - 1);
      OneAddsItsRow(p.state, p.seen, items[k - 1], faults[k - 1], x);
      assert Batch(s, items, faults, x, k).results[..k - 1] == p.results;
    }
  }

  lemma {:induction false} OneRowPerCreated(items: seq<Item>, rs: seq<Result>)
    requires |rs| <= |items|
    ensures |NewRows(items, rs)| == CountCreated(rs)
  {
    if rs != [] { OneRowPerCreated(items, rs[..|rs| - 1]); }
  }

  lemma {:induction false} UsersStay(s: State, items: seq<Item>, faults: seq<Faults>, x: Texts, i: nat, k: nat)
    requires i <= k <= |items| == |faults|
    ensures Batch(s, items, faults, x, i).state.users <= Batch(s, items, faults, x, k).state.users
  {
    if i < k {
      UsersStay(s, items, faults, x, i, k - 1);
      var p := Batch(s, items, faults, x, k - 1);
      OneAddsItsRow(p.state, p.seen, items[k - 1], faults[k - 1], x);
    }
  }

  ghost predicate NamesItsRow(p: Progress, i: nat, item: Item) {
    i < |p.results| && (p.results[i].verdict.Created? ==>
      p.results[i].verdict.id < |p.state.users| && p.state.users[p.results[i].verdict.id] == RowOfItem(item))
  }

  lemma NextNamesTheRow(p: Progress, item: Item, f: Faults, x: Texts)
    ensures NamesItsRow(ItemStep(p, item, f, x), |p.results|, item)
  {
    OneAddsItsRow(p.state, p.seen, item, f, x);
  }

  lemma StillNamesTheRow(p: Progress, end: Progress, i: nat, item: Item)
    requires NamesItsRow(p, i, item) && p.state.users <= end.state.users
    requires i < |end.results| && end.results[i] == p.results[i]
    ensures NamesItsRow(end, i, item)
  {
  }

  /** The id reported for a created item is the id of the row made from it. */
  lemma ReportedIdNamesTheRow(s: State, items: seq<Item>, faults: seq<Faults>, x: Texts, i: nat)
    requires i < |items| == |faults|
    ensures NamesItsRow(Batch(s, items, faults, x, |items|), i, items[i])
  {
    ResultsStay(s, items, faults, x, i, |items|);
    UsersStay(s, items, faults, x, i + 1, |items|);
    NextNamesTheRow(Batch(s, items, faults, x, i), items[i], faults[i], x);
    StillNamesTheRow(Batch(s, items, faults, x, i + 1), Batch(s, items, faults, x, |items|), i, items[i]);
  }

  lemma {:induction false} BatchKeepsEmailsUnique(s: State, items: seq<Item>, faults: seq<Faults>, x: Texts, k: nat)
    requires k <= |items| == |faults| && EmailsUnique(s.users)
    ensures EmailsUnique(Batch(s, items, faults, x, k).state.users)
  {
    if k > 0 {
      BatchKeepsEmailsUnique(s, items, faults, x, k - 1);
      InsertKeepsEmailsUnique(Batch(s, items, faults, x, k - 1).state, items[k - 1], faults[k - 1]);
    }
  }

  lemma InsertKeepsEmailsUnique(s: State, item: Item, f: Faults)
    requires EmailsUnique(s.users)
    ensures EmailsUnique(RegisterChecked(s, item.name, item.email, item.password, Trim(item.org), f).0.users)
  {
    var u := RowOfItem(item);
    if Users.Create(s.users, u).Ok? { CreateKeepsEmailsUnique(s.users, u); }
  }

  // ---- the services as the source writes them ----

  /** The `seen` map of one batch. */
  class Seen {
    var emails: set<string>

    constructor ()
      ensures emails == {}
    {
      emails := {};
    }
  }

  class AuthService {
    const orgs: OC.CachedRepository
    var users: UserTable
    const texts: Texts

    ghost function Now(): State
      reads this, orgs, orgs.cache
    {
      State(orgs.Now(), users)
    }

    constructor (orgs: OC.CachedRepository, users: UserTable, texts: Texts)
      ensures this.orgs == orgs && this.users == users && this.texts == texts
    {
      this.orgs := orgs;
      this.users := users;
      this.texts := texts;
    }

    method ValidateOrg(code: string, f: OC.Faults) returns (refusal: Option<Refusal>)
      modifies orgs.cache
      ensures (Now(), refusal) == CheckOrg(old(Now()), code, f)
    {
      var ok := orgs.ExistsActive(code, f);
      match ok {
        case Err => refusal := Some(InternalError);
        case Ok(b) => refusal := if b then None else Some(InvalidOrganization);
      }
    }

    method InsertUser(name: string, email: string, password: string, org: string, f: Faults) returns (v: Verdict)
      modifies this`users
      ensures (Now(), v) == Insert(old(Now()), name, email, password, org, f)
    {
      if f.lookupFails { return Refused(InternalError); }
      if ExistsByEmail(users, email) { return Refused(EmailTaken); }
      if f.passwordFails || f.hashFails || f.createFails { return Refused(InternalError); }
      var id := |users|;
      var created := Users.Create(users, NewUser(name, email, password, org));
      if created.Err? { return Refused(InternalError); }
      users := created.value;
      return Created(id);
    }

    method RegisterUser(req: Request, f: Faults) returns (v: Verdict)
      modifies this`users, orgs.cache
      ensures (Now(), v) == Register(old(Now()), req, f)
    {
      var code := Trim(req.org);
      var refusal := ValidateOrg(code, f.org);
      if refusal.Some? { return Refused(refusal.value); }
      v := InsertUser(req.name, req.email, req.password, code, f);
    }

    method RegisterOne(index: nat, item: Item, seen: Seen, f: Faults) returns (r: Result)
      modifies this`users, orgs.cache, seen
      ensures r.index == index && r.email == item.email
      ensures (Now(), seen.emails, r.verdict) == One(old(Now()), old(seen.emails), item, f, texts)
    {
      r := Result(index, item.email, Refused(ValidationError));
      var email := Norm(item.email, texts);
      if Trim(item.name) == "" || email == "" || Trim(item.org) == "" { return; }
      if !texts.parses(email) { return; }
      if email in seen.emails { return Result(index, item.email, Refused(DuplicateInBatch)); }
      seen.emails := seen.emails + {email};
      var code := Trim(item.org);
      var refusal := ValidateOrg(code, f.org);
      if refusal.Some? { return Result(index, item.email, Refused(refusal.value)); }
      var v := InsertUser(item.name, item.email, item.password, code, f);
      return Result(index, item.email, v);
    }

    /** Every item is answered at its own index, and the counts add up. */
    method BulkRegister(items: seq<Item>, faults: seq<Faults>) returns (results: seq<Result>, success: nat, failed: nat)
      requires |faults| == |items|
      modifies this`users, orgs.cache
      ensures Batch(old(Now()), items, faults, texts, |items|).state == Now()
      ensures Batch(old(Now()), items, faults, texts, |items|).results == results
      ensures success == CountCreated(results) && success + failed == |items| == |results|
    {
      results, success, failed := [], 0, 0;
      var seen := new Seen();
      ghost var s := Now();
      for i := 0 to |items|
        invariant fresh(seen)
        invariant Progress(Now(), seen.emails, results) == Batch(s, items, faults, texts, i)
        invariant success == CountCreated(results) && success + failed == i == |results|
      {
        var r := RegisterOne(i, items[i], seen, faults[i]);
        if r.verdict.Created? {
          success := success + 1;
        } else {
          failed := failed + 1;
        }
        assert (results + [r])[..i] == results;
        results := results + [r];
      }
    }
  }
}
