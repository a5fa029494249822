/**
 Refresh-token revocation over runs: a refresh token is accepted exactly when it was
 issued, has not expired, its user is active, and the user has not logged out, changed
 or reset the password since.
 */
module Revocation {
  import opened Prelude
  import opened Users
  import opened Auth

  /** What `Refresh` decides when nothing fails. */
  predicate Accepts(s: State, token: Claims, now: int) {
    && Parses(s, token, now) && token.kind == RefreshKind
    && Active(s.users, token.user) && s.users[token.user].version == token.version
  }

  lemma RefreshAnswersIff(s: State, ev: Event, c: Config)
    requires ev.Refresh?
    ensures var r := Step(s, ev, c).1;
      && (r.Tokens? <==> Accepts(s, ev.token, ev.now) && !ev.lookupFails && !ev.signFails)
      && (r == InvalidRefresh ==> !Accepts(s, ev.token, ev.now))
  {
  }

  predicate Issues(s: State, ev: Event, c: Config, token: Claims) {
    var r := Step(s, ev, c).1;
    r.Tokens? && r.refresh == token
  }

  /** A successful logout, password change or password reset of the user. */
  predicate Revokes(s: State, ev: Event, c: Config, user: nat) {
    Step(s, ev, c).1 == Done &&
    match ev
    case Logout(u, _) => u == user
    case ChangePassword(u, _, _, _, _, _) => u == user
    case ResetPassword(link, _, now, _, _, _, _) =>
      (match FindValidResetToken(s.resets, link, now)
       case Some(i) => s.resets[i].user == user
       case None => false)
    case _ => false
  }

  // ---- one event ----

  /** Deleted users stay deleted, and an active user's version counts the revocations. */
  lemma StepMovesVersion(s: State, ev: Event, c: Config, user: nat)
    requires user < |s.users|
    ensures var s' := Step(s, ev, c).0;
      && |s.users| <= |s'.users|
      && (Active(s'.users, user) ==> Active(s.users, user))
      && s'.users[user].version ==
           s.users[user].version + (if Active(s.users, user) && Revokes(s, ev, c, user) then 1 else 0)
  {
  }

  lemma StepIssues(s: State, ev: Event, c: Config, token: Claims)
    requires token.kind == RefreshKind
    ensures token in Step(s, ev, c).0.issued <==> token in s.issued || Issues(s, ev, c, token)
  {
  }

  lemma IssuedForTheVersion(s: State, ev: Event, c: Config, token: Claims)
    requires Issues(s, ev, c, token)
    ensures Active(s.users, token.user) && s.users[token.user].version == token.version && token.kind == RefreshKind
    ensures Step(s, ev, c).0.users == s.users && !Revokes(s, ev, c, token.user)
  {
  }

  // ---- runs ----

  /** The last thing that happened to the token or to its user's sessions was issuing the token. */
  predicate Standing(s: State, run: seq<Event>, c: Config, token: Claims) {
    run != [] &&
    var before, ev := run[..|run| - 1], run[|run| - 1];
    Issues(After(s, before, c), ev, c, token) ||
    (Standing(s, before, c, token) && !Revokes(After(s, before, c), ev, c, token.user))
  }

  ghost predicate IssuedAt(s: State, run: seq<Event>, c: Config, token: Claims, i: nat)
    requires i < |run|
  {
    Issues(At(s, run, c, i), run[i], c, token)
  }

  ghost predicate RevokedAt(s: State, run: seq<Event>, c: Config, user: nat, j: nat)
    requires j < |run|
  {
    Revokes(At(s, run, c, j), run[j], c, user)
  }

  /** Issued by event i, and no event since revokes. */
  ghost predicate StandsSince(s: State, run: seq<Event>, c: Config, token: Claims, i: nat)
    requires i < |run|
  {
    IssuedAt(s, run, c, token, i) && forall j :: i < j < |run| ==> !RevokedAt(s, run, c, token.user, j)
  }

  ghost predicate IssuedAndNotRevokedSince(s: State, run: seq<Event>, c: Config, token: Claims) {
    exists i :: 0 <= i < |run| && StandsSince(s, run, c, token, i)
  }

  /** What event j did does not depend on the events after it. */
  lemma {:induction false} ByThen(s: State, run: seq<Event>, c: Config, token: Claims, j: nat)
    requires j < |run| - 1
    ensures RevokedAt(s, run[..|run| - 1], c, token.user, j) == RevokedAt(s, run, c, token.user, j)
    ensures IssuedAt(s, run[..|run| - 1], c, token, j) == IssuedAt(s, run, c, token, j)
  {
    assert run[..|run| - 1][..j] == run[..j];
  }

  lemma {:induction false} StandsOneMore(s: State, run: seq<Event>, c: Config, token: Claims, i: nat)
    requires run != [] && i < |run| - 1
    ensures StandsSince(s, run, c, token, i) <==>
      StandsSince(s, run[..|run| - 1], c, token, i) && !RevokedAt(s, run, c, token.user, |run| - 1)
  {
    var before, n := run[..|run| - 1], |run| - 1;
    forall j: nat | j < n ensures RevokedAt(s, before, c, token.user, j) == RevokedAt(s, run, c, token.user, j) {
      ByThen(s, run, c, token, j);
    }
    ByThen(s, run, c, token, i);
  }

  lemma {:induction false} SinceOneMore(s: State, run: seq<Event>, c: Config, token: Claims)
    requires run != []
    ensures IssuedAndNotRevokedSince(s, run, c, token) <==>
      || IssuedAt(s, run, c, token, |run| - 1)
      || (IssuedAndNotRevokedSince(s, run[..|run| - 1], c, token) && !RevokedAt(s, run, c, token.user, |run| - 1))
  {
    var before, n := run[..|run| - 1], |run| - 1;
    if i: nat :| i < |run| && StandsSince(s, run, c, token, i) {
      if i < n { StandsOneMore(s, run, c, token, i); }
    }
    if IssuedAt(s, run, c, token, n) {
      assert StandsSince(s, run, c, token, n);
    } else if i: nat :| i < n && StandsSince(s, before, c, token, i) {
      StandsOneMore(s, run, c, token, i);
    }
  }

  lemma {:induction false} StandingIff(s: State, run: seq<Event>, c: Config, token: Claims)
    ensures Standing(s, run, c, token) <==> IssuedAndNotRevokedSince(s, run, c, token)
  {
    if run != [] {
      StandingIff(s, run[..|run| - 1], c, token);
      SinceOneMore(s, run, c, token);
    }
  }

  /** How the tables after a run relate to what happened in it. */
  ghost predicate Tracks(s: State, run: seq<Event>, c: Config, token: Claims) {
    var end := After(s, run, c);
    && (Standing(s, run, c, token) ==> token in end.issued)
    && (token in end.issued ==> token.user < |end.users| && token.version <= end.users[token.user].version)
    && (token in end.issued && Active(end.users, token.user) ==>
         (end.users[token.user].version == token.version <==> Standing(s, run, c, token)))
  }

  lemma {:induction false} RunTracks(s: State, run: seq<Event>, c: Config, token: Claims)
    requires s.issued == {} && token.kind == RefreshKind
    ensures Tracks(s, run, c, token)
  {
    if run != [] {
      var before, ev := run[..|run| - 1], run[|run| - 1];
      RunTracks(s, before, c, token);
      var last := After(s, before, c);
      StepIssues(last, ev, c, token);
      if token.user < |last.users| { StepMovesVersion(last, ev, c, token.user); }
      if Issues(last, ev, c, token) { IssuedForTheVersion(last, ev, c, token); }
    }
  }

  lemma {:induction false} AcceptedIff(s: State, run: seq<Event>, c: Config, token: Claims, now: int)
    requires s.issued == {}
    ensures Accepts(After(s, run, c), token, now) <==>
      && now < token.expiresAt && token.kind == RefreshKind
      && Active(After(s, run, c).users, token.user)
      && IssuedAndNotRevokedSince(s, run, c, token)
  {
    if token.kind == RefreshKind {
      RunTracks(s, run, c, token);
      StandingIff(s, run, c, token);
    }
  }

  /**
   Over every run from an empty set of issued tokens, at any instant: a refresh in which
   nothing fails issues new tokens exactly when the one presented is an unexpired refresh token
   of a user who is active, issued in the run, with no logout, password change or reset of
   that user since.
   */
  lemma {:induction false} RefreshAcceptedIff(s: State, run: seq<Event>, c: Config, token: Claims, now: int)
    requires s.issued == {}
    ensures Step(After(s, run, c), Refresh(token, now, false, false), c).1.Tokens? <==>
      && now < token.expiresAt && token.kind == RefreshKind
      && Active(After(s, run, c).users, token.user)
      && IssuedAndNotRevokedSince(s, run, c, token)
  {
    RefreshAnswersIff(After(s, run, c), Refresh(token, now, false, false), c);
    AcceptedIff(s, run, c, token, now);
  }

  // ---- once revoked ----

  /** The user is gone or has moved past the token's version. */
  predicate Revoked(s: State, token: Claims) {
    token.user < |s.users| && (s.users[token.user].deleted || token.version < s.users[token.user].version)
  }

  lemma RevokingRevokes(s: State, ev: Event, c: Config, token: Claims, now: int)
    requires Accepts(s, token, now)
    requires Revokes(s, ev, c, token.user) || (ev.DeleteUser? && ev.user == token.user && Step(s, ev, c).1 == Done)
    ensures Revoked(Step(s, ev, c).0, token)
  {
    StepMovesVersion(s, ev, c, token.user);
  }

  /** Once revoked, a token is refused in every later state, at every instant. */
  lemma {:induction false} OnceRevokedAlwaysRefused(s: State, run: seq<Event>, c: Config, token: Claims, now: int)
    requires Revoked(s, token)
    ensures Revoked(After(s, run, c), token) && !Accepts(After(s, run, c), token, now)
  {
    if run != [] {
      var before, ev := run[..|run| - 1], run[|run| - 1];
      OnceRevokedAlwaysRefused(s, before, c, token, now);
      StepMovesVersion(After(s, before, c), ev, c, token.user);
    }
  }

  /** Editing a user's password through the user service revokes nothing. */
  lemma PasswordEditDoesNotRevoke(s: State, user: nat, name: string, password: string, c: Config, token: Claims, now: int)
    requires Active(s.users, user) && password != ""
    ensures var s' := Step(s, EditUser(user, name, password, false), c).0;
      s'.users[user].password == password && (Accepts(s', token, now) <==> Accepts(s, token, now))
  {
  }
}
