/**
 What each account request is answered, and whose password works
 (internal/service/auth/auth_service.go:117-194, auth_password.go:21-140,
 internal/service/user/user_service.go:74-117): over every run a login is answered exactly
 for the password last written for the active user who holds the address.
 */
module Passwords {
  import opened Prelude
  import opened Users
  import opened Auth

  /** An active user holds the address and the password. */
  ghost predicate Knows(t: Users.Table, email: string, password: string) {
    exists id: nat :: HasEmail(t, id, email) && t[id].password == password
  }

  lemma LoginAnswersIff(s: State, ev: Event, c: Config)
    requires ev.Login? && EmailsUnique(s.users)
    ensures var (r, right) := (Step(s, ev, c).1, Knows(s.users, ev.email, ev.password));
      && (r.Tokens? <==> !ev.lookupFails && !ev.signFails && right)
      && (r == InvalidCredentials <==> !ev.lookupFails && !right)
      && (r == Failed <==> ev.lookupFails || (ev.signFails && right))
  {
    var found := FindByEmail(s.users, ev.email);
    if id: nat :| HasEmail(s.users, id, ev.email) && s.users[id].password == ev.password { FindByEmailIff(s.users, ev.email, id); }
  }

  // ---- the tokens ----

  /** A token of the user as the table has it, issued now for the time to live, in whole seconds. */
  predicate IsTokenOf(token: Claims, u: User, id: nat, kind: Kind, now: int, ttl: int) {
    && token.user == id && token.kind == kind
    && token.email == u.email && token.org == u.org && token.role == u.role && token.version == u.version
    && token.issuedAt % SECOND == 0 && token.issuedAt <= now < token.issuedAt + SECOND
    && token.expiresAt % SECOND == 0 && token.expiresAt <= now + ttl < token.expiresAt + SECOND
  }

  /** A login or refresh that answers gives its own user one token of each kind, signs those two and changes nothing else. */
  lemma TokensAreTheUsers(s: State, ev: Event, c: Config)
    requires Step(s, ev, c).1.Tokens?
    ensures var (s', r) := Step(s, ev, c);
      (ev.Login? || ev.Refresh?) && s' == s.(issued := s.issued + {r.access, r.refresh}) && exists id: nat :: (
        && Active(s.users, id) && (if ev.Login? then s.users[id].email == ev.email else id == ev.token.user)
        && IsTokenOf(r.access, s.users[id], id, Access, ev.now, c.accessTTL)
        && IsTokenOf(r.refresh, s.users[id], id, RefreshKind, ev.now, c.refreshTTL))
  {
    var id := if ev.Login? then FindByEmail(s.users, ev.email).value else ev.token.user;
    assert IsTokenOf(Step(s, ev, c).1.access, s.users[id], id, Access, ev.now, c.accessTTL);
  }

  // ---- when the other requests are done ----

  /** The user's password is known, and nothing fails. */
  lemma ChangeAnswersIff(s: State, ev: Event, c: Config)
    requires ev.ChangePassword?
    ensures var (r, right) := (Step(s, ev, c).1, Active(s.users, ev.user) && s.users[ev.user].password == ev.oldPassword);
      && (r == Done <==> right && !ev.lookupFails && !ev.hashFails && !ev.writeFails)
      && (r == InvalidCredentials <==> !ev.lookupFails && !Active(s.users, ev.user))
      && (r == InvalidOldPassword <==> !ev.lookupFails && Active(s.users, ev.user) && s.users[ev.user].password != ev.oldPassword)
  {
  }

  /** The other writes are done when the row is there and the database works; a logout asks for no row. */
  lemma WritesAnswerIff(s: State, ev: Event, c: Config)
    ensures ev.Logout? ==> (Step(s, ev, c).1 == Done <==> !ev.writeFails)
    ensures ev.EditUser? || ev.DeleteUser? ==>
      && (Step(s, ev, c).1 == Done <==> Active(s.users, ev.user) && !ev.writeFails)
      && (Step(s, ev, c).1 == UserNotFound <==> !Active(s.users, ev.user))
    ensures ev.AddUser? ==> (Step(s, ev, c).1 == Done <==> forall id: nat :: !HasEmail(s.users, id, ev.email))
    ensures ev.ForgotPassword? ==> Step(s, ev, c).1 == Done
  {
  }

  // ---- what a request does to a user's row ----

  /** The password the event writes for the user. */
  function Written(s: State, ev: Event, c: Config, user: nat): Option<string> {
    match ev
    case AddUser(_, _, password, _) => if user == |s.users| && Step(s, ev, c).1 == Done then Some(password) else None
    case ChangePassword(u, _, password, _, _, _) => if u == user && Step(s, ev, c).1 == Done then Some(password) else None
    case ResetPassword(link, password, now, _, _, _, _) =>
      if Active(s.users, user) && Step(s, ev, c).1 == Done && LinkOf(s, link, now) == Some(user) then Some(password) else None
    case EditUser(u, _, password, _) => if u == user && password != "" && Step(s, ev, c).1 == Done then Some(password) else None
    case _ => None
  }

  /** Whose reset a link is. */
  function LinkOf(s: State, link: string, now: int): Option<nat> {
    match FindValidResetToken(s.resets, link, now)
    case Some(i) => Some(s.resets[i].user)
    case None => None
  }

  predicate Renames(s: State, ev: Event, c: Config, user: nat) {
    ev.EditUser? && ev.user == user && ev.name != "" && Step(s, ev, c).1 == Done
  }

  predicate Deletes(s: State, ev: Event, c: Config, user: nat) {
    ev.DeleteUser? && ev.user == user && Step(s, ev, c).1 == Done
  }

  /** Each column of a row changes by its own event only; address, organization and role never do. */
  lemma StepMovesRow(s: State, ev: Event, c: Config, user: nat)
    requires user < |s.users|
    ensures var s' := Step(s, ev, c).0;
      user < |s'.users| &&
      var (before, after) := (s.users[user], s'.users[user]);
      && after.email == before.email && after.org == before.org && after.role == before.role
      && after.password == (match Written(s, ev, c, user) case Some(p) => p case None => before.password)
      && after.name == (if Renames(s, ev, c, user) then ev.name else before.name)
      && after.deleted == (before.deleted || Deletes(s, ev, c, user))
  {
  }

  /** An AddUser that is done adds one plain user, and nothing else adds any. */
  lemma StepAddsRow(s: State, ev: Event, c: Config)
    ensures var t := Step(s, ev, c).0.users;
      if ev.AddUser? && Step(s, ev, c).1 == Done then t == s.users + [User(ev.name, ev.email, ev.password, ev.org, "user", 1, false)]
      else |t| == |s.users|
  {
  }

  lemma StepKeepsEmailsUnique(s: State, ev: Event, c: Config)
    requires EmailsUnique(s.users)
    ensures EmailsUnique(Step(s, ev, c).0.users)
  {
    var t, t' := s.users, Step(s, ev, c).0.users;
    if |t'| > |t| {
      StepAddsRow(s, ev, c);
      CreateKeepsEmailsUnique(t, t'[|t|]);
    } else {
      forall i: nat, email | HasEmail(t', i, email) ensures HasEmail(t, i, email) {
        StepMovesRow(s, ev, c, i);
      }
    }
  }

  // ---- over runs ----

  /** The password last written for the user, the one in the table at first. */
  function LastWritten(s: State, run: seq<Event>, c: Config, user: nat): Option<string> {
    if run == [] then
      if user < |s.users| then Some(s.users[user].password) else None
    else
      var before, ev := run[..|run| - 1], run[|run| - 1];
      match Written(After(s, before, c), ev, c, user)
      case Some(p) => Some(p)
      case None => LastWritten(s, before, c, user)
  }

  lemma {:induction false} PasswordIsLastWritten(s: State, run: seq<Event>, c: Config, user: nat)
    requires EmailsUnique(s.users)
    ensures EmailsUnique(After(s, run, c).users)
    ensures user < |After(s, run, c).users| ==> LastWritten(s, run, c, user) == Some(After(s, run, c).users[user].password)
  {
    if run != [] {
      var before, ev := run[..|run| - 1], run[|run| - 1];
      PasswordIsLastWritten(s, before, c, user);
      var last := After(s, before, c);
      StepKeepsEmailsUnique(last, ev, c);
      if user < |last.users| { StepMovesRow(last, ev, c, user); } else { StepAddsRow(last, ev, c); }
    }
  }

  /**
   Over every run: a login in which nothing fails is answered exactly when the password is the
   last one that registration, change, reset or edit wrote for the active user with the address.
   */
  lemma {:induction false} LoginAnsweredIff(s: State, run: seq<Event>, c: Config, email: string, password: string, now: int)
    requires EmailsUnique(s.users)
    ensures var end := After(s, run, c);
      Step(end, Login(email, password, now, false, false), c).1.Tokens? <==>
        exists user: nat :: HasEmail(end.users, user, email) && LastWritten(s, run, c, user) == Some(password)
  {
    var end := After(s, run, c);
    PasswordIsLastWritten(s, run, c, 0);
    LoginAnswersIff(end, Login(email, password, now, false, false), c);
    forall user: nat | HasEmail(end.users, user, email) ensures LastWritten(s, run, c, user) == Some(end.users[user].password) {
      PasswordIsLastWritten(s, run, c, user);
    }
  }

  ghost predicate WrittenAt(s: State, run: seq<Event>, c: Config, user: nat, i: nat, password: string)
    requires i < |run|
  {
    Written(At(s, run, c, i), run[i], c, user) == Some(password)
  }

  ghost predicate UnwrittenAt(s: State, run: seq<Event>, c: Config, user: nat, i: nat)
    requires i < |run|
  {
    Written(At(s, run, c, i), run[i], c, user).None?
  }

  /** What event j wrote does not depend on the events after it. */
  lemma {:induction false} ByThen(s: State, run: seq<Event>, c: Config, user: nat, j: nat, password: string)
    requires j < |run| - 1
    ensures UnwrittenAt(s, run[..|run| - 1], c, user, j) == UnwrittenAt(s, run, c, user, j)
    ensures WrittenAt(s, run[..|run| - 1], c, user, j, password) == WrittenAt(s, run, c, user, j, password)
  {
    hide Written;
    assert run[..|run| - 1][..j] == run[..j];
  }

  lemma {:induction false} LastEventWrites(s: State, run: seq<Event>, c: Config, user: nat, password: string)
    requires run != []
    ensures LastWritten(s, run, c, user) == Some(password) <==>
      || WrittenAt(s, run, c, user, |run| - 1, password)
      || (UnwrittenAt(s, run, c, user, |run| - 1) && LastWritten(s, run[..|run| - 1], c, user) == Some(password))
    ensures !(WrittenAt(s, run, c, user, |run| - 1, password) && UnwrittenAt(s, run, c, user, |run| - 1))
  {
    hide Written;
  }

  /** The event i wrote it, and none since has written another. */
  ghost predicate StandsSince(s: State, run: seq<Event>, c: Config, user: nat, password: string, i: nat)
    requires i < |run|
  {
    WrittenAt(s, run, c, user, i, password) && forall j :: i < j < |run| ==> UnwrittenAt(s, run, c, user, j)
  }

  ghost predicate NeverWritten(s: State, run: seq<Event>, c: Config, user: nat) {
    forall j :: 0 <= j < |run| ==> UnwrittenAt(s, run, c, user, j)
  }

  lemma {:induction false} StandsOneMore(s: State, run: seq<Event>, c: Config, user: nat, password: string, i: nat)
    requires i < |run| - 1
    ensures StandsSince(s, run, c, user, password, i) <==>
      StandsSince(s, run[..|run| - 1], c, user, password, i) && UnwrittenAt(s, run, c, user, |run| - 1)
  {
    hide Written;
    var before, n := run[..|run| - 1], |run| - 1;
    forall j: nat | j < n ensures UnwrittenAt(s, before, c, user, j) == UnwrittenAt(s, run, c, user, j) {
      ByThen(s, run, c, user, j, password);
    }
    ByThen(s, run, c, user, i, password);
    if StandsSince(s, run, c, user, password, i) {
      forall j: nat | i < j < n ensures UnwrittenAt(s, before, c, user, j) { assert UnwrittenAt(s, run, c, user, j); }
    }
    assert |before| == n;
  }

  lemma {:induction false} NeverOneMore(s: State, run: seq<Event>, c: Config, user: nat)
    requires run != []
    ensures NeverWritten(s, run, c, user) <==> NeverWritten(s, run[..|run| - 1], c, user) && UnwrittenAt(s, run, c, user, |run| - 1)
  {
    hide Written;
    var before, n := run[..|run| - 1], |run| - 1;
    forall j: nat | j < n ensures UnwrittenAt(s, before, c, user, j) == UnwrittenAt(s, run, c, user, j) {
      ByThen(s, run, c, user, j, "");
    }
    if NeverWritten(s, run, c, user) {
      forall j: nat | j < n ensures UnwrittenAt(s, before, c, user, j) { assert UnwrittenAt(s, run, c, user, j); }
    }
    assert |before| == n;
  }

  /** Last written means: by some event, and by none after it; or in the table at first, and by no event. */
  lemma {:induction false} LastWrittenIff(s: State, run: seq<Event>, c: Config, user: nat, password: string)
    ensures LastWritten(s, run, c, user) == Some(password) <==>
      || (exists i :: 0 <= i < |run| && StandsSince(s, run, c, user, password, i))
      || (user < |s.users| && s.users[user].password == password && NeverWritten(s, run, c, user))
  {
    if run != [] {
      hide LastWritten, WrittenAt, UnwrittenAt, NeverWritten;
      var before, n := run[..|run| - 1], |run| - 1;
      LastWrittenIff(s, before, c, user, password);
      LastEventWrites(s, run, c, user, password);
      NeverOneMore(s, run, c, user);
      forall i: nat | i < n
        ensures StandsSince(s, run, c, user, password, i) <==> StandsSince(s, before, c, user, password, i) && UnwrittenAt(s, run, c, user, n)
      {
        StandsOneMore(s, run, c, user, password, i);
      }
      assert StandsSince(s, run, c, user, password, n) <==> WrittenAt(s, run, c, user, n, password);
    }
  }
}
