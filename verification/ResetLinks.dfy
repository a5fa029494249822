/**
 Password-reset links over runs. Random tokens are taken never to repeat. A link works
 exactly from being sent until it expires, or a use of it or its user's asking for another
 is written down; with those writes successful each works at most once.
 */
module ResetLinks {
  import opened Prelude
  import opened Users
  import opened Auth

  /** A valid row exists, so a reset with this link gets past the lookup. */
  predicate Usable(s: State, link: string, now: int) {
    FindValidResetToken(s.resets, link, now).Some?
  }

  lemma ResetSucceedsIff(s: State, ev: Event, c: Config)
    requires ev.ResetPassword?
    ensures Step(s, ev, c).1 == Done <==> Usable(s, ev.link, ev.now) && !ev.lookupFails && !ev.hashFails && !ev.writeFails
  {
  }

  // ---- what an event does to links ----

  /** A forgot-password request that gets as far as superseding the user's links. */
  predicate Supersedes(s: State, ev: Event, user: nat) {
    ev.ForgotPassword? && !ev.lookupFails && !ev.randomFails && FindByEmail(s.users, ev.email) == Some(user)
  }

  predicate Sends(s: State, ev: Event, c: Config, row: ResetToken) {
    Supersedes(s, ev, row.user) && !ev.storeFails && row == ResetToken(row.user, ev.random, ev.now + c.resetTTL, false)
  }

  predicate Consumes(s: State, ev: Event, c: Config, link: string) {
    ev.ResetPassword? && ev.link == link && Step(s, ev, c).1 == Done
  }

  /** The supersede or mark-used write that takes the row out of use is done. */
  predicate Voids(s: State, ev: Event, c: Config, row: ResetToken) {
    (Supersedes(s, ev, row.user) && !ev.invalidateFails) || (Consumes(s, ev, c, row.token) && !ev.markFails)
  }

  predicate Reliable(ev: Event) {
    (ev.ForgotPassword? ==> !ev.invalidateFails) && (ev.ResetPassword? ==> !ev.markFails)
  }

  /** The random token is new. */
  predicate Unseen(s: State, ev: Event) {
    ev.ForgotPassword? ==> forall i :: 0 <= i < |s.resets| ==> s.resets[i].token != ev.random
  }

  predicate Distinct(rs: seq<ResetToken>) {
    forall i, j :: 0 <= i < j < |rs| ==> rs[i].token != rs[j].token
  }

  predicate OneUnusedEach(rs: seq<ResetToken>) {
    forall i, j :: 0 <= i < j < |rs| && rs[i].user == rs[j].user ==> rs[i].used || rs[j].used
  }

  lemma UsableIff(s: State, link: string, now: int)
    ensures Usable(s, link, now) <==> exists row :: row in s.resets && Valid(row, link, now)
  {
    if row :| row in s.resets && Valid(row, link, now) {
      var i :| 0 <= i < |s.resets| && s.resets[i] == row;
    }
  }

  lemma StepKeepsDistinct(s: State, ev: Event, c: Config)
    requires Distinct(s.resets) && Unseen(s, ev)
    ensures Distinct(Step(s, ev, c).0.resets)
  {
  }

  lemma StepKeepsOneUnused(s: State, ev: Event, c: Config)
    requires OneUnusedEach(s.resets) && Reliable(ev)
    ensures OneUnusedEach(Step(s, ev, c).0.resets)
  {
  }

  /** An unused row after the event was unused before it and is not voided, or was sent by it. */
  lemma StepMovesRows(s: State, ev: Event, c: Config, row: ResetToken)
    requires Distinct(s.resets) && !row.used
    ensures row in Step(s, ev, c).0.resets <==>
      (row in s.resets && !Voids(s, ev, c, row)) || Sends(s, ev, c, row)
  {
    match ev
    case ForgotPassword(_, _, _, _, _, _, _) => ForgotMovesRows(s, ev, c, row);
    case ResetPassword(_, _, _, _, _, _, _) => ResetMovesRows(s, ev, c, row);
    case _ =>
  }

  lemma InvalidateKeepsRows(rs: seq<ResetToken>, user: nat, row: ResetToken)
    requires !row.used
    ensures row in InvalidateUserResetTokens(rs, user) <==> row in rs && row.user != user
  {
    var rs' := InvalidateUserResetTokens(rs, user);
    if row in rs && row.user != user {
      var i :| 0 <= i < |rs| && rs[i] == row;
      assert rs'[i] == row;
    }
  }

  lemma ForgotMovesRows(s: State, ev: Event, c: Config, row: ResetToken)
    requires ev.ForgotPassword? && !row.used
    ensures row in Step(s, ev, c).0.resets <==> (row in s.resets && !Voids(s, ev, c, row)) || Sends(s, ev, c, row)
  {
    if FindByEmail(s.users, ev.email).Some? { InvalidateKeepsRows(s.resets, FindByEmail(s.users, ev.email).value, row); }
  }

  lemma ResetMovesRows(s: State, ev: Event, c: Config, row: ResetToken)
    requires Distinct(s.resets) && ev.ResetPassword? && !row.used
    ensures row in Step(s, ev, c).0.resets <==> row in s.resets && !Voids(s, ev, c, row)
  {
    var s' := Step(s, ev, c).0;
    if row in s.resets {
      var k :| 0 <= k < |s.resets| && s.resets[k] == row;
      assert s'.resets[k] == row || Voids(s, ev, c, row);
    }
  }

  // ---- runs ----

  /** Every random token is new when it is drawn. */
  predicate Fresh(s: State, run: seq<Event>, c: Config) {
    run == [] ||
    (Fresh(s, run[..|run| - 1], c) && Unseen(After(s, run[..|run| - 1], c), run[|run| - 1]))
  }

  predicate AllReliable(run: seq<Event>) {
    forall i :: 0 <= i < |run| ==> Reliable(run[i])
  }

  /** A user never has two unused links. */
  lemma {:induction false} AtMostOneUnusedLinkEach(s: State, run: seq<Event>, c: Config)
    requires Fresh(s, run, c) && Distinct(s.resets)
    ensures Distinct(After(s, run, c).resets)
    ensures OneUnusedEach(s.resets) && AllReliable(run) ==> OneUnusedEach(After(s, run, c).resets)
  {
    if run != [] {
      var before := run[..|run| - 1];
      AtMostOneUnusedLinkEach(s, before, c);
      StepKeepsDistinct(After(s, before, c), run[|run| - 1], c);
      if OneUnusedEach(s.resets) && AllReliable(run) { StepKeepsOneUnused(After(s, before, c), run[|run| - 1], c); }
    }
  }

  ghost predicate VoidedAt(s: State, run: seq<Event>, c: Config, row: ResetToken, j: nat)
    requires j < |run|
  {
    Voids(At(s, run, c, j), run[j], c, row)
  }

  /** Event i sent the link, and no event since superseded or consumed it. */
  ghost predicate StandsSince(s: State, run: seq<Event>, c: Config, row: ResetToken, i: nat)
    requires i < |run|
  {
    Sends(At(s, run, c, i), run[i], c, row) && forall j :: i < j < |run| ==> !VoidedAt(s, run, c, row, j)
  }

  ghost predicate SentAndNotVoidedSince(s: State, run: seq<Event>, c: Config, row: ResetToken) {
    exists i :: 0 <= i < |run| && StandsSince(s, run, c, row, i)
  }

  lemma {:induction false} StandsOneMore(s: State, run: seq<Event>, c: Config, row: ResetToken, i: nat)
    requires run != [] && i < |run| - 1
    ensures StandsSince(s, run, c, row, i) <==>
      StandsSince(s, run[..|run| - 1], c, row, i) && !VoidedAt(s, run, c, row, |run| - 1)
  {
    var before, n := run[..|run| - 1], |run| - 1;
    forall j: nat | j < n ensures VoidedAt(s, before, c, row, j) == VoidedAt(s, run, c, row, j) {
      assert before[..j] == run[..j];
    }
    assert before[..i] == run[..i];
  }

  lemma {:induction false} RowIsUnusedIff(s: State, run: seq<Event>, c: Config, row: ResetToken)
    requires s.resets == [] && Fresh(s, run, c) && !row.used
    ensures row in After(s, run, c).resets <==> SentAndNotVoidedSince(s, run, c, row)
  {
    if run != [] {
      var before, n := run[..|run| - 1], |run| - 1;
      RowIsUnusedIff(s, before, c, row);
      AtMostOneUnusedLinkEach(s, before, c);
      StepMovesRows(After(s, before, c), run[n], c, row);
      forall i: nat | i < n
        ensures StandsSince(s, run, c, row, i) <==> StandsSince(s, before, c, row, i) && !VoidedAt(s, run, c, row, n)
      {
        StandsOneMore(s, run, c, row, i);
      }
      assert StandsSince(s, run, c, row, n) <==> Sends(After(s, before, c), run[n], c, row);
    }
  }

  ghost predicate SentLiveAndNotVoided(s: State, run: seq<Event>, c: Config, link: string, now: int) {
    exists row: ResetToken :: row.token == link && now < row.expiresAt && SentAndNotVoidedSince(s, run, c, row)
  }

  lemma UsedIsNotSent(s: State, run: seq<Event>, c: Config, row: ResetToken)
    requires row.used
    ensures !SentAndNotVoidedSince(s, run, c, row)
  {
  }

  lemma {:induction false} UsableExactlyWhenStanding(s: State, run: seq<Event>, c: Config, end: State, link: string, now: int)
    requires s.resets == [] && Fresh(s, run, c) && end == After(s, run, c)
    ensures Usable(end, link, now) <==> SentLiveAndNotVoided(s, run, c, link, now)
  {
    UsableIff(end, link, now);
    forall row: ResetToken | row.token == link && now < row.expiresAt
      ensures row in end.resets && Valid(row, link, now) <==> SentAndNotVoidedSince(s, run, c, row)
    {
      if row.used { UsedIsNotSent(s, run, c, row); } else { RowIsUnusedIff(s, run, c, row); }
    }
  }

  /**
   Over every run from no links, whatever fails in it: a reset with a link in which nothing
   fails succeeds exactly when some event sent the link, it expires later, and no event since
   has marked it used after a reset or superseded it for its user.
   */
  lemma {:induction false} LinkWorksIff(s: State, run: seq<Event>, c: Config, end: State, link: string, newPassword: string, now: int)
    requires s.resets == [] && Fresh(s, run, c) && end == After(s, run, c)
    ensures Step(end, ResetPassword(link, newPassword, now, false, false, false, false), c).1 == Done <==>
      SentLiveAndNotVoided(s, run, c, link, now)
  {
    ResetSucceedsIff(end, ResetPassword(link, newPassword, now, false, false, false, false), c);
    UsableExactlyWhenStanding(s, run, c, end, link, now);
  }

  // ---- spent links ----

  /** The link is known, and every row of it is used. */
  predicate Spent(s: State, link: string) {
    && (exists i :: 0 <= i < |s.resets| && s.resets[i].token == link)
    && (forall i :: 0 <= i < |s.resets| && s.resets[i].token == link ==> s.resets[i].used)
  }

  lemma StepKeepsSpent(s: State, ev: Event, c: Config, link: string)
    requires Spent(s, link) && Unseen(s, ev)
    ensures Spent(Step(s, ev, c).0, link)
  {
    var s' := Step(s, ev, c).0;
    var i :| 0 <= i < |s.resets| && s.resets[i].token == link;
    assert s'.resets[i].token == link;
  }

  /** A spent link stays spent, whatever fails, so it never resets a password again. */
  lemma {:induction false} SpentForEver(s: State, run: seq<Event>, c: Config, link: string, now: int)
    requires Spent(s, link) && Fresh(s, run, c)
    ensures Spent(After(s, run, c), link) && !Usable(After(s, run, c), link, now)
  {
    if run != [] {
      SpentForEver(s, run[..|run| - 1], c, link, now);
      StepKeepsSpent(After(s, run[..|run| - 1], c), run[|run| - 1], c, link);
    }
  }

  /** A successful reset spends its link exactly when the mark-used write succeeds. */
  lemma ResetSpendsItsLinkIff(s: State, ev: Event, c: Config)
    requires Distinct(s.resets) && ev.ResetPassword? && Step(s, ev, c).1 == Done
    ensures Spent(Step(s, ev, c).0, ev.link) <==> !ev.markFails
    ensures Usable(Step(s, ev, c).0, ev.link, ev.now) <==> ev.markFails
  {
    var i := FindValidResetToken(s.resets, ev.link, ev.now).value;
    assert Step(s, ev, c).0.resets[i].token == ev.link;
  }

  /** Asking for a new link spends each of the user's older ones, used or not, exactly when the supersede write succeeds or it was used already. */
  lemma NewerLinkSpendsOlderIff(s: State, ev: Event, c: Config, user: nat, i: nat)
    requires Distinct(s.resets) && Unseen(s, ev) && Supersedes(s, ev, user)
    requires i < |s.resets| && s.resets[i].user == user
    ensures Spent(Step(s, ev, c).0, s.resets[i].token) <==> !ev.invalidateFails || s.resets[i].used
  {
    var s' := Step(s, ev, c).0;
    assert s'.resets[i].token == s.resets[i].token;
  }

  /** Each link resets at most one password: after a successful reset it never works again. */
  lemma {:induction false} EachLinkWorksOnce(s: State, first: Event, mid: State, run: seq<Event>, c: Config, now: int)
    requires Distinct(s.resets) && first.ResetPassword? && !first.markFails && Step(s, first, c) == (mid, Done)
    requires Fresh(mid, run, c)
    ensures !Usable(After(mid, run, c), first.link, now)
  {
    ResetSpendsItsLinkIff(s, first, c);
    SpentForEver(mid, run, c, first.link, now);
  }

  /** Only forgot-password and reset requests touch links: changing the password leaves them usable. */
  lemma OtherEventsLeaveLinks(s: State, ev: Event, c: Config, link: string, now: int)
    requires !ev.ForgotPassword? && !ev.ResetPassword?
    ensures Usable(Step(s, ev, c).0, link, now) <==> Usable(s, link, now)
  {
  }
}
