/**
 Accounts (internal/service/auth/auth_service.go:117-194, auth_password.go:21-140): login,
 refresh, logout, and changing or resetting a password. Each request is atomic. Signatures,
 password hashes and reset-token hashes are ideal: only issued claims parse, and a
 hash stands for its text. Times are in nanoseconds.
 */
module Auth {
  import opened Prelude
  import opened Users

  type UserTable = Users.Table

  datatype Kind = Access | RefreshKind

  datatype Claims = Claims(user: nat, email: string, org: string, role: string, version: int, kind: Kind, issuedAt: int, expiresAt: int)

  datatype ResetToken = ResetToken(user: nat, token: string, expiresAt: int, used: bool)

  /** The tables, and every token signed so far. */
  datatype State = State(users: UserTable, issued: set<Claims>, resets: seq<ResetToken>)

  datatype Config = Config(accessTTL: int, refreshTTL: int, resetTTL: int)

  datatype Event =
    | Login(email: string, password: string, now: int, lookupFails: bool, signFails: bool)
    | Refresh(token: Claims, now: int, lookupFails: bool, signFails: bool)
    | Logout(user: nat, writeFails: bool)
    | ChangePassword(user: nat, oldPassword: string, newPassword: string, lookupFails: bool, hashFails: bool, writeFails: bool)
    | ForgotPassword(email: string, random: string, now: int, lookupFails: bool, randomFails: bool, invalidateFails: bool, storeFails: bool)
    | ResetPassword(link: string, newPassword: string, now: int, lookupFails: bool, hashFails: bool, writeFails: bool, markFails: bool)
    | EditUser(user: nat, name: string, newPassword: string, writeFails: bool)
    | DeleteUser(user: nat, writeFails: bool)
    | AddUser(name: string, email: string, password: string, org: string)

  datatype Reply = Tokens(access: Claims, refresh: Claims) | Done | InvalidCredentials | InvalidRefresh | InvalidOldPassword | InvalidResetToken | UserNotFound | Failed

  // ---- tokens ----

  const SECOND := 1_000_000_000

  /** A numeric date holds whole seconds (section 2 of RFC 7519). */
  function NumericDate(t: int): int {
    t - t % SECOND
  }

  function Generate(u: User, id: nat, kind: Kind, now: int, ttl: int): Claims {
    Claims(id, u.email, u.org, u.role, u.version, kind, NumericDate(now), NumericDate(now + ttl))
  }

  /** `Parse`: issued by the service and not expired: exp identifies the time on or after which the token is refused (section 4.1.4 of RFC 7519). */
  predicate Parses(s: State, token: Claims, now: int) {
    token in s.issued && now < token.expiresAt
  }

  function IssueTokens(s: State, id: nat, now: int, c: Config, signFails: bool): (State, Reply)
    requires id < |s.users|
  {
    if signFails then (s, Failed)
    else
      var access, refresh := Generate(s.users[id], id, Access, now, c.accessTTL), Generate(s.users[id], id, RefreshKind, now, c.refreshTTL);
      (s.(issued := s.issued + {access, refresh}), Tokens(access, refresh))
  }

  // ---- reset tokens ----

  predicate Valid(r: ResetToken, token: string, now: int) {
    r.token == token && !r.used && r.expiresAt > now
  }

  /** The first unused, unexpired row of a token. */
  function FindValidResetToken(rs: seq<ResetToken>, token: string, now: int): (r: Option<nat>)
    ensures r.Some? ==> r.value < |rs| && Valid(rs[r.value], token, now)
    ensures r.None? ==> forall i :: 0 <= i < |rs| ==> !Valid(rs[i], token, now)
  {
    if rs == [] then None
    else if Valid(rs[|rs| - 1], token, now) && FindValidResetToken(rs[..|rs| - 1], token, now).None? then Some(|rs| - 1)
    else FindValidResetToken(rs[..|rs| - 1], token, now)
  }

  function InvalidateUserResetTokens(rs: seq<ResetToken>, user: nat): seq<ResetToken> {
    seq(|rs|, i requires 0 <= i < |rs| => if rs[i].user == user then rs[i].(used := true) else rs[i])
  }

  // ---- the requests ----

  function DoLogin(s: State, ev: Event, c: Config): (State, Reply)
    requires ev.Login?
  {
    if ev.lookupFails then (s, Failed)
    else
      match FindByEmail(s.users, ev.email)
      case None => (s, InvalidCredentials)
      case Some(id) =>
        if s.users[id].password != ev.password then (s, InvalidCredentials) else IssueTokens(s, id, ev.now, c, ev.signFails)
  }

  function DoRefresh(s: State, ev: Event, c: Config): (State, Reply)
    requires ev.Refresh?
  {
    var token := ev.token;
    if !Parses(s, token, ev.now) || token.kind != RefreshKind then (s, InvalidRefresh)
    else if ev.lookupFails then (s, Failed)
    else if !Active(s.users, token.user) || s.users[token.user].version != token.version then (s, InvalidRefresh)
    else IssueTokens(s, token.user, ev.now, c, ev.signFails)
  }

  function DoChangePassword(s: State, ev: Event): (State, Reply)
    requires ev.ChangePassword?
  {
    if ev.lookupFails then (s, Failed)
    else if !Active(s.users, ev.user) then (s, InvalidCredentials)
    else if s.users[ev.user].password != ev.oldPassword then (s, InvalidOldPassword)
    else if ev.hashFails || ev.writeFails then (s, Failed)
    else (s.(users := SetPasswordAndBump(s.users, ev.user, ev.newPassword)), Done)
  }

  /** Always answers the same; older links are superseded before the new one is stored. */
  function DoForgotPassword(s: State, ev: Event, c: Config): State
    requires ev.ForgotPassword?
  {
    if ev.lookupFails || ev.randomFails then s
    else
      match FindByEmail(s.users, ev.email)
      case None => s
      case Some(id) =>
        var rs := if ev.invalidateFails then s.resets else InvalidateUserResetTokens(s.resets, id);
        s.(resets := if ev.storeFails then rs else rs + [ResetToken(id, ev.random, ev.now + c.resetTTL, false)])
  }

  function DoResetPassword(s: State, ev: Event): (State, Reply)
    requires ev.ResetPassword?
  {
    if ev.lookupFails then (s, Failed)
    else
      match FindValidResetToken(s.resets, ev.link, ev.now)
      case None => (s, InvalidResetToken)
      case Some(i) =>
        if ev.hashFails || ev.writeFails then (s, Failed)
        else
          var users := SetPasswordAndBump(s.users, s.resets[i].user, ev.newPassword);
          (s.(users := users, resets := if ev.markFails then s.resets else s.resets[i := s.resets[i].(used := true)]), Done)
  }

  function Step(s: State, ev: Event, c: Config): (State, Reply) {
    match ev
    case Login(_, _, _, _, _) => DoLogin(s, ev, c)
    case Refresh(_, _, _, _) => DoRefresh(s, ev, c)
    case Logout(user, fails) => if fails then (s, Failed) else (s.(users := BumpVersion(s.users, user)), Done)
    case ChangePassword(_, _, _, _, _, _) => DoChangePassword(s, ev)
    case ForgotPassword(_, _, _, _, _, _, _) => (DoForgotPassword(s, ev, c), Done)
    case ResetPassword(_, _, _, _, _, _, _) => DoResetPassword(s, ev)
    case EditUser(user, name, password, fails) =>
      if !Active(s.users, user) then (s, UserNotFound)
      else if fails then (s, Failed)
      else (s.(users := Edit(s.users, user, name, password)), Done)
    case DeleteUser(user, fails) =>
      if !Active(s.users, user) then (s, UserNotFound)
      else if fails then (s, Failed)
      else (s.(users := SoftDelete(s.users, user)), Done)
    case AddUser(name, email, password, org) =>
      match Users.Create(s.users, NewUser(name, email, password, org))
      case Ok(t) => (s.(users := t), Done)
      case Err => (s, Failed)
  }

  function After(s: State, run: seq<Event>, c: Config): State {
    if run == [] then s else Step(After(s, run[..|run| - 1], c), run[|run| - 1], c).0
  }

  /** The state in which event j of the run happens. */
  function At(s: State, run: seq<Event>, c: Config, j: nat): State
    requires j <= |run|
  {
    After(s, run[..j], c)
  }

  // ---- the service as the source writes it ----

  class AuthService {
    var users: UserTable
    ghost var issued: set<Claims>
    var resets: seq<ResetToken>
    const cfg: Config

    ghost function Now(): State
      reads this
    {
      State(users, issued, resets)
    }

    constructor (users: UserTable, cfg: Config)
      ensures Now() == State(users, {}, []) && this.cfg == cfg
    {
      this.users, this.issued, this.resets, this.cfg := users, {}, [], cfg;
    }

    method Issue(id: nat, now: int, signFails: bool) returns (r: Reply)
      requires id < |users|
      modifies this`issued
      ensures (Now(), r) == IssueTokens(old(Now()), id, now, cfg, signFails)
    {
      if signFails { return Failed; }
      var access := Generate(users[id], id, Access, now, cfg.accessTTL);
      var refresh := Generate(users[id], id, RefreshKind, now, cfg.refreshTTL);
      issued := issued + {access, refresh};
      return Tokens(access, refresh);
    }

    method LogIn(email: string, password: string, now: int, lookupFails: bool, signFails: bool) returns (r: Reply)
      modifies this`issued
      ensures (Now(), r) == Step(old(Now()), Login(email, password, now, lookupFails, signFails), cfg)
    {
      if lookupFails { return Failed; }
      var id := FindByEmail(users, email);
      if id.None? || users[id.value].password != password { return InvalidCredentials; }
      r := Issue(id.value, now, signFails);
    }

    /** `genuine` is the outcome of the signature check. */
    method RefreshTokens(token: Claims, genuine: bool, now: int, lookupFails: bool, signFails: bool) returns (r: Reply)
      requires genuine <==> token in issued
      modifies this`issued
      ensures (Now(), r) == Step(old(Now()), Refresh(token, now, lookupFails, signFails), cfg)
    {
      if !genuine || now >= token.expiresAt || token.kind != RefreshKind { return InvalidRefresh; }
      if lookupFails { return Failed; }
      var u := FindByID(users, token.user);
      if u.None? || token.version != u.value.version { return InvalidRefresh; }
      r := Issue(token.user, now, signFails);
    }

    method LogOut(user: nat, writeFails: bool) returns (r: Reply)
      modifies this`users
      ensures (Now(), r) == Step(old(Now()), Logout(user, writeFails), cfg)
    {
      if writeFails { return Failed; }
      users := BumpVersion(users, user);
      return Done;
    }

    method SetNewPassword(user: nat, oldPassword: string, newPassword: string, lookupFails: bool, hashFails: bool, writeFails: bool)
      returns (r: Reply)
      modifies this`users
      ensures (Now(), r) == Step(old(Now()), ChangePassword(user, oldPassword, newPassword, lookupFails, hashFails, writeFails), cfg)
    {
      if lookupFails { return Failed; }
      var u := FindByID(users, user);
      if u.None? { return InvalidCredentials; }
      if u.value.password != oldPassword { return InvalidOldPassword; }
      if hashFails || writeFails { return Failed; }
      users := SetPasswordAndBump(users, user, newPassword);
      return Done;
    }

    method Forgot(email: string, random: string, now: int, lookupFails: bool, randomFails: bool, invalidateFails: bool, storeFails: bool)
      modifies this`resets
      ensures Now() == Step(old(Now()), ForgotPassword(email, random, now, lookupFails, randomFails, invalidateFails, storeFails), cfg).0
    {
      if lookupFails || randomFails { return; }
      var id := FindByEmail(users, email);
      if id.None? { return; }
      if !invalidateFails { resets := InvalidateUserResetTokens(resets, id.value); }
      if !storeFails { resets := resets + [ResetToken(id.value, random, now + cfg.resetTTL, false)]; }
    }

    method Reset(link: string, newPassword: string, now: int, lookupFails: bool, hashFails: bool, writeFails: bool, markFails: bool)
      returns (r: Reply)
      modifies this`users, this`resets
      ensures (Now(), r) == Step(old(Now()), ResetPassword(link, newPassword, now, lookupFails, hashFails, writeFails, markFails), cfg)
    {
      if lookupFails { return Failed; }
      var found := FindValidResetToken(resets, link, now);
      if found.None? { return InvalidResetToken; }
      if hashFails || writeFails { return Failed; }
      var row := resets[found.value];
      users := SetPasswordAndBump(users, row.user, newPassword);
      if !markFails { resets := resets[found.value := row.(used := true)]; }
      return Done;
    }
  }
}
