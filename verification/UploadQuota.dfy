/**
 Upload quota bookkeeping: the usage table with one row per user and month whose
 lifetime counter is carried forward (internal/repository/upload/upload_repository.go:46-113)
 and the chunk-0 admission check (internal/service/upload/upload_service.go:315-347).
 Months are numbered; the "2006-01" format is an injective name for the number.
 */
module UploadQuota {
  import opened Prelude

  type User = nat
  type Month = int

  datatype Usage = Usage(user: User, month: Month, monthly: int, lifetime: int)
  datatype Config = Config(monthlyLimit: int, lifetimeLimit: int)
  datatype Verdict = Pass | MonthlyExceeded | LifetimeExceeded | DatabaseError

  // ---- the queries ----

  /** The row of a user and month, or |rows| when there is none. */
  function Find(rows: seq<Usage>, user: User, month: Month): (i: nat)
    ensures i <= |rows|
    ensures i < |rows| ==> rows[i].user == user && rows[i].month == month
    ensures forall j :: 0 <= j < i ==> !(rows[j].user == user && rows[j].month == month)
  {
    if rows == [] then 0
    else if rows[0].user == user && rows[0].month == month then 0
    else 1 + Find(rows[1..], user, month)
  }

  function MonthlyCount(rows: seq<Usage>, user: User, month: Month): int {
    var i := Find(rows, user, month);
    if i < |rows| then rows[i].monthly else 0
  }

  /** MAX(lifetime_count) over a user's rows; None is SQL's NULL. */
  function MaxLifetime(rows: seq<Usage>, user: User): Option<int> {
    if rows == [] then None
    else
      var rest := MaxLifetime(rows[1..], user);
      if rows[0].user != user then rest
      else if rest.Some? && rest.value > rows[0].lifetime then rest
      else Some(rows[0].lifetime)
  }

  function LifetimeCount(rows: seq<Usage>, user: User): int {
    match MaxLifetime(rows, user)
    case None => 0
    case Some(n) => n
  }

  function Incremented(rows: seq<Usage>, user: User, month: Month): seq<Usage> {
    var life := LifetimeCount(rows, user);
    var i := Find(rows, user, month);
    if i == |rows| then rows + [Usage(user, month, 1, life + 1)]
    else rows[i := Usage(user, month, rows[i].monthly + 1, life + 1)]
  }

  class UsageTable {
    var rows: seq<Usage>

    constructor ()
      ensures rows == []
    {
      rows := [];
    }

    /** One transaction: read the lifetime maximum, then create or bump the month's row. */
    method IncrementUsage(user: User, month: Month, ok: bool)
      modifies this
      ensures rows == if ok then Incremented(old(rows), user, month) else old(rows)
    {
      if !ok { return; }
      var lifetime := LifetimeCount(rows, user);
      var i := Find(rows, user, month);
      if i == |rows| {
        rows := rows + [Usage(user, month, 1, lifetime + 1)];
        return;
      }
      var usage := rows[i];
      usage := usage.(monthly := usage.monthly + 1);
      usage := usage.(lifetime := lifetime + 1);
      rows := rows[i := usage];
    }
  }

  /** The admission check; each flag says whether that query succeeded. */
  function CheckQuota(rows: seq<Usage>, user: User, month: Month, config: Option<Config>,
                      configOk: bool, monthlyOk: bool, lifetimeOk: bool): (v: Verdict)
    ensures config == None ==> (v == Pass <==> configOk)
    ensures config.Some? ==>
              (v == Pass <==> (configOk && monthlyOk && lifetimeOk &&
                               MonthlyCount(rows, user, month) < config.value.monthlyLimit &&
                               LifetimeCount(rows, user) < config.value.lifetimeLimit))
    ensures v == MonthlyExceeded <==>
              configOk && config.Some? && monthlyOk && MonthlyCount(rows, user, month) >= config.value.monthlyLimit
    ensures v == LifetimeExceeded <==>
              configOk && config.Some? && monthlyOk && lifetimeOk &&
              MonthlyCount(rows, user, month) < config.value.monthlyLimit && LifetimeCount(rows, user) >= config.value.lifetimeLimit
  {
    if !configOk then DatabaseError
    else match config
      case None => Pass
      case Some(c) =>
        if !monthlyOk then DatabaseError
        else if MonthlyCount(rows, user, month) >= c.monthlyLimit then MonthlyExceeded
        else if !lifetimeOk then DatabaseError
        else if LifetimeCount(rows, user) >= c.lifetimeLimit then LifetimeExceeded
        else Pass
  }

  // ---- conservation over every run of increments ----

  datatype Call = Call(user: User, month: Month)

  function Rows(calls: seq<Call>): seq<Usage> {
    if calls == [] then []
    else Incremented(Rows(calls[..|calls| - 1]), calls[|calls| - 1].user, calls[|calls| - 1].month)
  }

  function CallsOf(calls: seq<Call>, user: User): nat {
    if calls == [] then 0
    else CallsOf(calls[..|calls| - 1], user) + if calls[|calls| - 1].user == user then 1 else 0
  }

  function CallsIn(calls: seq<Call>, user: User, month: Month): nat {
    if calls == [] then 0
    else CallsIn(calls[..|calls| - 1], user, month) + if calls[|calls| - 1] == Call(user, month) then 1 else 0
  }

  function SumMonthly(rows: seq<Usage>, user: User): int {
    if rows == [] then 0 else (if rows[0].user == user then rows[0].monthly else 0) + SumMonthly(rows[1..], user)
  }

  ghost predicate Bounded(rows: seq<Usage>, user: User, n: int) {
    forall i :: 0 <= i < |rows| && rows[i].user == user ==> rows[i].lifetime <= n
  }

  /** The maximum is an upper bound that is reached. */
  lemma {:induction false} MaxIs(rows: seq<Usage>, user: User, i: nat)
    requires i < |rows| && rows[i].user == user && Bounded(rows, user, rows[i].lifetime)
    ensures MaxLifetime(rows, user) == Some(rows[i].lifetime)
  {
    MaxBounds(rows, user, rows[i].lifetime);
    MaxAtLeast(rows, user, i);
  }

  lemma {:induction false} MaxBounds(rows: seq<Usage>, user: User, n: int)
    requires Bounded(rows, user, n)
    ensures MaxLifetime(rows, user).Some? ==> MaxLifetime(rows, user).value <= n
  {
    if rows != [] {
      assert forall i :: 0 <= i < |rows[1..]| ==> rows[1..][i] == rows[i + 1];
      MaxBounds(rows[1..], user, n);
    }
  }

  lemma {:induction false} MaxAtLeast(rows: seq<Usage>, user: User, i: nat)
    requires i < |rows| && rows[i].user == user
    ensures MaxLifetime(rows, user).Some? && MaxLifetime(rows, user).value >= rows[i].lifetime
  {
    if i > 0 {
      assert rows[1..][i - 1] == rows[i];
      MaxAtLeast(rows[1..], user, i - 1);
    }
  }

  lemma {:induction false} MaxOthers(rows: seq<Usage>, rows': seq<Usage>, user: User)
    requires |rows| <= |rows'| <= |rows| + 1
    requires forall i :: 0 <= i < |rows| ==> rows'[i] == rows[i] || (rows[i].user != user && rows'[i].user != user)
    requires |rows'| == |rows| + 1 ==> rows'[|rows|].user != user
    ensures MaxLifetime(rows', user) == MaxLifetime(rows, user) && SumMonthly(rows', user) == SumMonthly(rows, user)
  {
    if rows == [] {
      assert |rows'| == 1 ==> rows'[1..] == [];
    } else {
      assert forall i :: 0 <= i < |rows[1..]| ==> rows[1..][i] == rows[i + 1] && rows'[1..][i] == rows'[i + 1];
      MaxOthers(rows[1..], rows'[1..], user);
    }
  }

  lemma {:induction false} SumUpdate(rows: seq<Usage>, user: User, i: nat, u: Usage)
    requires i < |rows| && rows[i].user == user == u.user
    ensures SumMonthly(rows[i := u], user) == SumMonthly(rows, user) - rows[i].monthly + u.monthly
  {
    if i == 0 {
      assert rows[0 := u][1..] == rows[1..];
    } else {
      assert rows[i := u][1..] == rows[1..][i - 1 := u];
      SumUpdate(rows[1..], user, i - 1, u);
    }
  }

  lemma {:induction false} SumAppend(rows: seq<Usage>, user: User, u: Usage)
    requires u.user == user
    ensures SumMonthly(rows + [u], user) == SumMonthly(rows, user) + u.monthly
  {
    if rows == [] {
      assert rows + [u] == [u];
    } else {
      assert (rows + [u])[1..] == rows[1..] + [u];
      SumAppend(rows[1..], user, u);
    }
  }

  /** One increment adds one to the user's lifetime and to the sum of its months, and touches nobody else. */
  lemma IncrementCounts(rows: seq<Usage>, user: User, month: Month, other: User)
    requires LifetimeCount(rows, user) >= 0
    ensures var rows' := Incremented(rows, user, month);
      && LifetimeCount(rows', user) == LifetimeCount(rows, user) + 1
      && SumMonthly(rows', user) == SumMonthly(rows, user) + 1
      && (other != user ==> LifetimeCount(rows', other) == LifetimeCount(rows, other) && SumMonthly(rows', other) == SumMonthly(rows, other))
  {
    var rows' := Incremented(rows, user, month);
    var i := Find(rows, user, month);
    var life := LifetimeCount(rows, user);
    forall j | 0 <= j < |rows| && rows[j].user == user ensures rows[j].lifetime <= life { MaxAtLeast(rows, user, j); }
    MaxIs(rows', user, i);
    if i == |rows| {
      SumAppend(rows, user, rows'[i]);
    } else {
      SumUpdate(rows, user, i, rows'[i]);
    }
    if other != user { MaxOthers(rows, rows', other); }
  }

  lemma {:induction false} FindAppend(rows: seq<Usage>, u: Usage, user: User, month: Month)
    ensures Find(rows + [u], user, month) ==
      if Find(rows, user, month) < |rows| then Find(rows, user, month)
      else if u.user == user && u.month == month then |rows| else |rows| + 1
  {
    if rows != [] {
      assert (rows + [u])[1..] == rows[1..] + [u];
      FindAppend(rows[1..], u, user, month);
    }
  }

  lemma {:induction false} FindUpdate(rows: seq<Usage>, i: nat, u: Usage, user: User, month: Month)
    requires i < |rows| && u.user == rows[i].user && u.month == rows[i].month
    ensures Find(rows[i := u], user, month) == Find(rows, user, month)
  {
    if i == 0 {
      assert rows[0 := u][1..] == rows[1..];
    } else {
      assert rows[i := u][1..] == rows[1..][i - 1 := u];
      FindUpdate(rows[1..], i - 1, u, user, month);
    }
  }

  lemma IncrementMonth(rows: seq<Usage>, user: User, month: Month, u: User, m: Month)
    ensures MonthlyCount(Incremented(rows, user, month), u, m) ==
      MonthlyCount(rows, u, m) + if u == user && m == month then 1 else 0
  {
    var i := Find(rows, user, month);
    var row := Incremented(rows, user, month)[i];
    if i == |rows| { FindAppend(rows, row, u, m); } else { FindUpdate(rows, i, row, u, m); }
  }

  /** Conservation: maximum lifetime = sum of months = number of calls, and each month counts its own calls. */
  lemma {:induction false} CountsAreConserved(calls: seq<Call>, user: User, month: Month)
    ensures LifetimeCount(Rows(calls), user) == SumMonthly(Rows(calls), user) == CallsOf(calls, user)
    ensures MonthlyCount(Rows(calls), user, month) == CallsIn(calls, user, month)
  {
    if calls != [] {
      var before, last := calls[..|calls| - 1], calls[|calls| - 1];
      CountsAreConserved(before, user, month);
      CountsAreConserved(before, last.user, last.month);
      IncrementCounts(Rows(before), last.user, last.month, user);
      IncrementMonth(Rows(before), last.user, last.month, user, month);
    }
  }

  // ---- overshoot: admissions race with completions ----

  /**
   One user's uploads. `open` holds the sessions past the chunk-0 gate and not yet
   finalized. A session is finalized once at most; its increment may fail.
   */
  datatype Uploads = Uploads(rows: seq<Usage>, open: set<nat>, closed: set<nat>, month: Month)

  datatype Event =
    | Admit(session: nat)              // chunk 0 passed CheckQuota
    | Finish(session: nat, counted: bool)
    | Other(user: User, at: Month)     // somebody else's upload is counted
    | Rollover(to: Month)

  predicate Enabled(user: User, config: Config, K: nat, s: Uploads, e: Event) {
    match e
    case Admit(x) =>
      x !in s.closed && |s.open + {x}| <= K &&
      CheckQuota(s.rows, user, s.month, Some(config), true, true, true) == Pass
    case Finish(x, _) => x in s.open
    case Other(u, _) => u != user
    case Rollover(to) => to > s.month
  }

  function Next(user: User, s: Uploads, e: Event): Uploads {
    match e
    case Admit(x) => s.(open := s.open + {x})
    case Finish(x, counted) =>
      s.(open := s.open - {x}, closed := s.closed + {x},
         rows := if counted then Incremented(s.rows, user, s.month) else s.rows)
    case Other(u, at) => s.(rows := Incremented(s.rows, u, at))
    case Rollover(to) => s.(month := to)
  }

  predicate Legal(user: User, config: Config, K: nat, s: Uploads, run: seq<Event>)
    decreases |run|
  {
    run == [] || (Enabled(user, config, K, s, run[0]) && Legal(user, config, K, Next(user, s, run[0]), run[1..]))
  }

  function After(user: User, s: Uploads, run: seq<Event>): Uploads
    decreases |run|
  {
    if run == [] then s else After(user, Next(user, s, run[0]), run[1..])
  }

  /** The most a limit lets through when K uploads may be open at once. */
  function Ceiling(limit: int, K: nat): int {
    if limit >= 1 then limit - 1 + K else 0
  }

  ghost predicate Within(user: User, config: Config, K: nat, s: Uploads) {
    && |s.open| <= K
    && LifetimeCount(s.rows, user) >= 0
    && LifetimeCount(s.rows, user) + |s.open| <= Ceiling(config.lifetimeLimit, K)
    && MonthlyCount(s.rows, user, s.month) + |s.open| <= Ceiling(config.monthlyLimit, K)
    && (forall m :: 0 <= MonthlyCount(s.rows, user, m) <= Ceiling(config.monthlyLimit, K))
    && (forall m :: m > s.month ==> MonthlyCount(s.rows, user, m) == 0)
    && (config.lifetimeLimit < 1 || config.monthlyLimit < 1 ==> s.open == {})
  }

  lemma IncrementMonths(rows: seq<Usage>, user: User, month: Month, u: User)
    ensures forall m :: (MonthlyCount(Incremented(rows, user, month), u, m) ==
                         MonthlyCount(rows, u, m) + if u == user && m == month then 1 else 0)
  {
    forall m
      ensures MonthlyCount(Incremented(rows, user, month), u, m) == MonthlyCount(rows, u, m) + if u == user && m == month then 1 else 0
    {
      IncrementMonth(rows, user, month, u, m);
    }
  }

  lemma OthersIncrement(rows: seq<Usage>, user: User, month: Month, u: User)
    requires u != user
    ensures LifetimeCount(Incremented(rows, user, month), u) == LifetimeCount(rows, u)
  {
    MaxOthers(rows, Incremented(rows, user, month), u);
  }

  lemma WithinStep(user: User, config: Config, K: nat, s: Uploads, e: Event)
    requires Within(user, config, K, s) && Enabled(user, config, K, s, e)
    ensures Within(user, config, K, Next(user, s, e))
  {
    match e
    case Admit(x) =>
    case Finish(x, counted) =>
      assert |s.open - {x}| == |s.open| - 1;
      if counted {
        IncrementCounts(s.rows, user, s.month, user);
        IncrementMonths(s.rows, user, s.month, user);
      }
    case Other(u, at) =>
      OthersIncrement(s.rows, u, at, user);
      IncrementMonths(s.rows, u, at, user);
    case Rollover(to) =>
  }

  lemma {:induction false} WithinRun(user: User, config: Config, K: nat, s: Uploads, run: seq<Event>)
    requires Within(user, config, K, s) && Legal(user, config, K, s, run)
    ensures Within(user, config, K, After(user, s, run))
    decreases |run|
  {
    if run != [] {
      WithinStep(user, config, K, s, run[0]);
      WithinRun(user, config, K, Next(user, s, run[0]), run[1..]);
    }
  }

  /**
   With at most K uploads of a user open at once, no run counts more than limit - 1 + K
   uploads against a positive limit, over the lifetime or in any month, and none at all
   against a limit below one.
   */
  lemma OvershootIsBounded(user: User, config: Config, K: nat, month: Month, run: seq<Event>, m: Month)
    requires Legal(user, config, K, Uploads([], {}, {}, month), run)
    ensures var rows := After(user, Uploads([], {}, {}, month), run).rows;
      && LifetimeCount(rows, user) <= Ceiling(config.lifetimeLimit, K)
      && MonthlyCount(rows, user, m) <= Ceiling(config.monthlyLimit, K)
  {
    WithinRun(user, config, K, Uploads([], {}, {}, month), run);
  }

  // ---- the bound is met ----

  ghost predicate Leads(user: User, config: Config, K: nat, s: Uploads, run: seq<Event>, t: Uploads) {
    Legal(user, config, K, s, run) && After(user, s, run) == t
  }

  ghost predicate Reaches(user: User, config: Config, K: nat, s: Uploads, t: Uploads) {
    exists run :: Leads(user, config, K, s, run, t)
  }

  lemma Stay(user: User, config: Config, K: nat, s: Uploads)
    ensures Reaches(user, config, K, s, s)
  {
    assert Leads(user, config, K, s, [], s);
  }

  lemma Step(user: User, config: Config, K: nat, s: Uploads, e: Event)
    requires Enabled(user, config, K, s, e)
    ensures Reaches(user, config, K, s, Next(user, s, e))
  {
    var run := [e];
    assert run[1..] == [];
    assert Leads(user, config, K, Next(user, s, e), run[1..], Next(user, s, e));
    assert Leads(user, config, K, s, run, Next(user, s, e));
  }

  lemma {:induction false} LeadsOn(user: User, config: Config, K: nat, s: Uploads, run: seq<Event>, t: Uploads, more: seq<Event>, u: Uploads)
    requires Leads(user, config, K, s, run, t) && Leads(user, config, K, t, more, u)
    ensures Leads(user, config, K, s, run + more, u)
    decreases |run|
  {
    if run == [] {
      assert run + more == more;
    } else {
      assert (run + more)[1..] == run[1..] + more;
      LeadsOn(user, config, K, Next(user, s, run[0]), run[1..], t, more, u);
    }
  }

  lemma Then(user: User, config: Config, K: nat, s: Uploads, t: Uploads, u: Uploads)
    requires Reaches(user, config, K, s, t) && Reaches(user, config, K, t, u)
    ensures Reaches(user, config, K, s, u)
  {
    var run :| Leads(user, config, K, s, run, t);
    var more :| Leads(user, config, K, t, more, u);
    LeadsOn(user, config, K, s, run, t, more, u);
  }

  /** Sessions 0..n-1 are done, none is open; `monthly` of the `lifetime` uploads fell into the current month, none into a later one. */
  ghost predicate Idle(user: User, s: Uploads, n: nat, lifetime: int, monthly: int) {
    && s.open == {} && (forall x :: x in s.closed ==> x < n)
    && LifetimeCount(s.rows, user) == lifetime && MonthlyCount(s.rows, user, s.month) == monthly
    && forall m :: m > s.month ==> MonthlyCount(s.rows, user, m) == 0
  }

  /** One upload, alone. */
  lemma OneUpload(user: User, config: Config, K: nat, s: Uploads, n: nat, lifetime: int, monthly: int) returns (t: Uploads)
    requires Idle(user, s, n, lifetime, monthly) && K >= 1
    requires 0 <= lifetime < config.lifetimeLimit && monthly < config.monthlyLimit
    ensures Reaches(user, config, K, s, t) && Idle(user, t, n + 1, lifetime + 1, monthly + 1)
  {
    assert {} + {n} == {n};
    Step(user, config, K, s, Admit(n));
    var s1 := Next(user, s, Admit(n));
    Step(user, config, K, s1, Finish(n, true));
    t := Next(user, s1, Finish(n, true));
    Then(user, config, K, s, s1, t);
    IncrementCounts(s.rows, user, s.month, user);
    IncrementMonths(s.rows, user, s.month, user);
  }

  lemma NewMonth(user: User, config: Config, K: nat, s: Uploads, n: nat, lifetime: int, monthly: int) returns (t: Uploads)
    requires Idle(user, s, n, lifetime, monthly)
    ensures Reaches(user, config, K, s, t) && Idle(user, t, n, lifetime, 0)
  {
    Step(user, config, K, s, Rollover(s.month + 1));
    t := Next(user, s, Rollover(s.month + 1));
  }

  /** n uploads one after the other, all in one month or one a month. */
  lemma {:induction false} Serially(user: User, config: Config, K: nat, month: Month, n: nat, spread: bool) returns (t: Uploads)
    requires K >= 1 && config.monthlyLimit >= 1 && n <= config.lifetimeLimit && (spread || n <= config.monthlyLimit)
    ensures Reaches(user, config, K, Uploads([], {}, {}, month), t) && Idle(user, t, n, n, if spread then 0 else n)
  {
    var start := Uploads([], {}, {}, month);
    if n == 0 {
      Stay(user, config, K, start);
      t := start;
    } else {
      var s := Serially(user, config, K, month, n - 1, spread);
      t := OneUpload(user, config, K, s, n - 1, n - 1, if spread then 0 else n - 1);
      Then(user, config, K, start, s, t);
      if spread {
        var u := NewMonth(user, config, K, t, n, n, 1);
        Then(user, config, K, start, t, u);
        t := u;
      }
    }
  }

  /** The sessions from..from+k-1. */
  function Ids(from: nat, k: nat): (r: set<nat>)
    ensures |r| == k && forall x :: x in r <==> from <= x < from + k
  {
    if k == 0 then {} else Ids(from, k - 1) + {from + k - 1}
  }

  lemma AdmitNext(user: User, config: Config, K: nat, s: Uploads, from: nat, k: nat)
    requires s.open == Ids(from, k) && from + k !in s.closed && k < K
    requires LifetimeCount(s.rows, user) < config.lifetimeLimit && MonthlyCount(s.rows, user, s.month) < config.monthlyLimit
    ensures Reaches(user, config, K, s, s.(open := Ids(from, k + 1)))
  {
    var x := from + k;
    assert s.open + {x} == Ids(from, k + 1);
    Step(user, config, K, s, Admit(x));
  }

  /** k sessions are admitted before any of them is finished. */
  lemma {:induction false} AdmitTogether(user: User, config: Config, K: nat, s: Uploads, from: nat, k: nat)
    requires s.open == Ids(from, 0) && (forall x :: x in s.closed ==> x < from) && k <= K
    requires LifetimeCount(s.rows, user) < config.lifetimeLimit && MonthlyCount(s.rows, user, s.month) < config.monthlyLimit
    ensures Reaches(user, config, K, s, s.(open := Ids(from, k)))
  {
    var i := 0;
    Stay(user, config, K, s);
    while i < k
      invariant 0 <= i <= k && Reaches(user, config, K, s, s.(open := Ids(from, i)))
    {
      AdmitNext(user, config, K, s.(open := Ids(from, i)), from, i);
      Then(user, config, K, s, s.(open := Ids(from, i)), s.(open := Ids(from, i + 1)));
      i := i + 1;
    }
  }

  /** And all of them are counted. */
  lemma {:induction false} FinishAll(user: User, config: Config, K: nat, s: Uploads, from: nat, k: nat) returns (t: Uploads)
    requires s.open == Ids(from, k) && LifetimeCount(s.rows, user) >= 0
    ensures Reaches(user, config, K, s, t) && t.month == s.month
    ensures LifetimeCount(t.rows, user) == LifetimeCount(s.rows, user) + k
    ensures MonthlyCount(t.rows, user, s.month) == MonthlyCount(s.rows, user, s.month) + k
    decreases k
  {
    if k == 0 {
      Stay(user, config, K, s);
      t := s;
    } else {
      var e := Finish(from + k - 1, true);
      Step(user, config, K, s, e);
      var u := Next(user, s, e);
      assert u.open == Ids(from, k - 1);
      IncrementCounts(s.rows, user, s.month, user);
      IncrementMonth(s.rows, user, s.month, user, s.month);
      t := FinishAll(user, config, K, u, from, k - 1);
      Then(user, config, K, s, u, t);
    }
  }

  /** n uploads serially, then K together on top. */
  lemma Overshoots(user: User, config: Config, K: nat, month: Month, n: nat, spread: bool) returns (t: Uploads)
    requires K >= 1 && config.monthlyLimit >= 1 && n < config.lifetimeLimit && (spread || n < config.monthlyLimit)
    ensures Reaches(user, config, K, Uploads([], {}, {}, month), t) && LifetimeCount(t.rows, user) == n + K
    ensures MonthlyCount(t.rows, user, t.month) == (if spread then 0 else n) + K
  {
    var start := Uploads([], {}, {}, month);
    var s := Serially(user, config, K, month, n, spread);
    var u := s.(open := Ids(n, K));
    AdmitTogether(user, config, K, s, n, K);
    t := FinishAll(user, config, K, u, n, K);
    Then(user, config, K, start, s, u);
    Then(user, config, K, start, u, t);
  }

  function Lesser(a: int, b: int): int {
    if a <= b then a else b
  }

  /** For every pair of positive limits and every K >= 1, runs reach the lifetime ceiling and the ceiling of the lesser limit in one month. */
  lemma OvershootHappens(user: User, config: Config, K: nat, month: Month)
    requires config.lifetimeLimit >= 1 && config.monthlyLimit >= 1 && K >= 1
    ensures exists run ::
      && Legal(user, config, K, Uploads([], {}, {}, month), run)
      && LifetimeCount(After(user, Uploads([], {}, {}, month), run).rows, user) == Ceiling(config.lifetimeLimit, K)
    ensures exists run, m ::
      && Legal(user, config, K, Uploads([], {}, {}, month), run)
      && MonthlyCount(After(user, Uploads([], {}, {}, month), run).rows, user, m) == Ceiling(Lesser(config.lifetimeLimit, config.monthlyLimit), K)
  {
    var start := Uploads([], {}, {}, month);
    var t := Overshoots(user, config, K, month, config.lifetimeLimit - 1, true);
    var run :| Leads(user, config, K, start, run, t);
    var u := Overshoots(user, config, K, month, Lesser(config.lifetimeLimit, config.monthlyLimit) - 1, false);
    var run' :| Leads(user, config, K, start, run', u);
    assert MonthlyCount(After(user, start, run').rows, user, u.month) == Ceiling(Lesser(config.lifetimeLimit, config.monthlyLimit), K);
  }

  // ---- exactly when the limits are kept ----

  ghost predicate LifetimeKept(user: User, config: Config, K: nat, month: Month) {
    forall run :: Legal(user, config, K, Uploads([], {}, {}, month), run) ==>
      LifetimeCount(After(user, Uploads([], {}, {}, month), run).rows, user) <= config.lifetimeLimit
  }

  ghost predicate MonthlyKept(user: User, config: Config, K: nat, month: Month) {
    forall run, m :: Legal(user, config, K, Uploads([], {}, {}, month), run) ==>
      MonthlyCount(After(user, Uploads([], {}, {}, month), run).rows, user, m) <= config.monthlyLimit
  }

  /** No month counts more than the lifetime. */
  lemma MonthWithinLifetime(user: User, config: Config, K: nat, month: Month, run: seq<Event>, m: Month)
    requires Legal(user, config, K, Uploads([], {}, {}, month), run)
    ensures var rows := After(user, Uploads([], {}, {}, month), run).rows;
      MonthlyCount(rows, user, m) <= LifetimeCount(rows, user)
  {
    MonthWithin(user, config, K, Uploads([], {}, {}, month), run, m);
  }

  lemma {:induction false} MonthWithin(user: User, config: Config, K: nat, s: Uploads, run: seq<Event>, m: Month)
    requires Legal(user, config, K, s, run) && 0 <= LifetimeCount(s.rows, user) && MonthlyCount(s.rows, user, m) <= LifetimeCount(s.rows, user)
    ensures var rows := After(user, s, run).rows;
      MonthlyCount(rows, user, m) <= LifetimeCount(rows, user)
    decreases |run|
  {
    if run != [] {
      match run[0] {
        case Finish(x, counted) =>
          IncrementCounts(s.rows, user, s.month, user);
          IncrementMonth(s.rows, user, s.month, user, m);
        case Other(u, at) =>
          OthersIncrement(s.rows, u, at, user);
          IncrementMonth(s.rows, u, at, user, m);
        case _ =>
      }
      MonthWithin(user, config, K, Next(user, s, run[0]), run[1..], m);
    }
  }

  /**
   With positive limits, every run keeps the lifetime limit exactly when uploads are not
   admitted together, and the monthly limit exactly when those admitted together cannot pass it.
   */
  lemma {:induction false} LimitsAreKeptIff(user: User, config: Config, K: nat, month: Month)
    requires config.lifetimeLimit >= 1 && config.monthlyLimit >= 1
    ensures LifetimeKept(user, config, K, month) <==> K <= 1
    ensures MonthlyKept(user, config, K, month) <==> K <= 1 || config.lifetimeLimit - 1 + K <= config.monthlyLimit
  {
    var start := Uploads([], {}, {}, month);
    forall run | Legal(user, config, K, start, run)
      ensures LifetimeCount(After(user, start, run).rows, user) <= Ceiling(config.lifetimeLimit, K)
    {
      OvershootIsBounded(user, config, K, month, run, month);
    }
    forall run, m | Legal(user, config, K, start, run)
      ensures MonthlyCount(After(user, start, run).rows, user, m) <= Ceiling(Lesser(config.lifetimeLimit, config.monthlyLimit), K)
    {
      OvershootIsBounded(user, config, K, month, run, m);
      MonthWithinLifetime(user, config, K, month, run, m);
    }
    if K >= 1 { OvershootHappens(user, config, K, month); }
  }
}
