/**
 The object keys of the upload service (internal/service/upload/upload_service.go:377-383):
 a parser inverts the printers, reading from the right, so keys never collide.
 Only the session id has to be free of slashes; the organization code may hold any.
 */
module ObjectKeys {
  import opened Prelude

  const TEMP_PREFIX := "temp_chunks"
  const FINAL_PREFIX := "uploads"

  // ---- printing ----

  function Digit(d: int): char
    requires 0 <= d < 10
  {
    "0123456789"[d]
  }

  /** A natural number as `%d` prints it. */
  function Dec(n: nat): (s: string) {
    if n < 10 then [Digit(n)] else Dec(n / 10) + [Digit(n % 10)]
  }

  /** The part both keys share: `org/user/session`. */
  function OwnerPath(org: string, user: nat, session: string): string {
    org + "/" + Dec(user) + "/" + session
  }

  function ChunkKey(org: string, user: nat, session: string, index: nat): string {
    TEMP_PREFIX + "/" + (OwnerPath(org, user, session) + "/" + Dec(index))
  }

  function FinalKey(org: string, user: nat, session: string): string {
    FINAL_PREFIX + "/" + (OwnerPath(org, user, session) + ".pdf")
  }

  // ---- the session id check (validation.go:14-22) ----

  predicate SessionIdChar(c: char) {
    'a' <= c <= 'z' || 'A' <= c <= 'Z' || '0' <= c <= '9' || c == '-'
  }

  predicate ValidSessionId(id: string) {
    8 <= |id| <= 64 && forall i :: 0 <= i < |id| ==> SessionIdChar(id[i])
  }

  /** A session id has 8 to 64 characters, and ids of each of these lengths are accepted. */
  lemma IdsOfLengthIff(n: nat)
    ensures (exists id :: |id| == n && ValidSessionId(id)) <==> 8 <= n <= 64
  {
    var id := seq(n, _ => 'a');
    assert |id| == n && (8 <= n <= 64 ==> ValidSessionId(id));
  }

  predicate SlashFree(s: string) {
    forall i :: 0 <= i < |s| ==> s[i] != '/'
  }

  // ---- parsing ----

  function Value(c: char): Option<nat> {
    if '0' <= c <= '9' then Some(c as int - '0' as int) else None
  }

  function Undec(s: string): Option<nat> {
    if s == [] then None
    else match Value(s[|s| - 1])
      case None => None
      case Some(d) =>
        if |s| == 1 then Some(d)
        else match Undec(s[..|s| - 1])
          case None => None
          case Some(m) => Some(10 * m + d)
  }

  /** Split at the last slash. */
  function Cut(s: string): Option<(string, string)> {
    if s == [] then None
    else if s[|s| - 1] == '/' then Some((s[..|s| - 1], ""))
    else match Cut(s[..|s| - 1])
      case None => None
      case Some(p) => Some((p.0, p.1 + [s[|s| - 1]]))
  }

  function After(prefix: string, s: string): Option<string> {
    if prefix <= s then Some(s[|prefix|..]) else None
  }

  function Before(suffix: string, s: string): Option<string> {
    if |suffix| <= |s| && s[|s| - |suffix|..] == suffix then Some(s[..|s| - |suffix|]) else None
  }

  datatype Owner = Owner(org: string, user: nat, session: string)

  /** `org/user/session` read from the right. */
  function ParseOwner(s: string): Option<Owner> {
    match Cut(s)
    case None => None
    case Some(p) =>
      match Cut(p.0)
      case None => None
      case Some(q) => match Undec(q.1)
        case None => None
        case Some(user) => Some(Owner(q.0, user, p.1))
  }

  function ParseChunk(key: string): Option<(Owner, nat)> {
    match After(TEMP_PREFIX + "/", key)
    case None => None
    case Some(rest) => match Cut(rest)
      case None => None
      case Some(p) => match (ParseOwner(p.0), Undec(p.1))
        case (Some(o), Some(i)) => Some((o, i))
        case _ => None
  }

  function ParseFinal(key: string): Option<Owner> {
    match After(FINAL_PREFIX + "/", key)
    case None => None
    case Some(rest) => match Before(".pdf", rest)
      case None => None
      case Some(body) => ParseOwner(body)
  }

  // ---- the parser undoes the printers ----

  lemma {:induction false} UndecDec(n: nat)
    ensures Undec(Dec(n)) == Some(n) && SlashFree(Dec(n)) && Dec(n) != []
  {
    if n >= 10 {
      UndecDec(n / 10);
      assert Dec(n)[..|Dec(n)| - 1] == Dec(n / 10);
    }
  }

  lemma {:induction false} CutLast(a: string, b: string)
    requires SlashFree(b)
    ensures Cut(a + "/" + b) == Some((a, b))
  {
    var s := a + "/" + b;
    if b == "" {
      assert s[..|s| - 1] == a;
    } else {
      var b' := b[..|b| - 1];
      assert s[..|s| - 1] == a + "/" + b';
      CutLast(a, b');
      assert b' + [b[|b| - 1]] == b;
    }
  }

  lemma ParseOwnerOf(org: string, user: nat, session: string)
    requires SlashFree(session)
    ensures ParseOwner(OwnerPath(org, user, session)) == Some(Owner(org, user, session))
  {
    UndecDec(user);
    CutLast(org + "/" + Dec(user), session);
    CutLast(org, Dec(user));
  }

  /** The chunk-key parser undoes the chunk-key printer. */
  lemma ChunkKeyRoundTrip(org: string, user: nat, session: string, index: nat)
    requires SlashFree(session)
    ensures ParseChunk(ChunkKey(org, user, session, index)) == Some((Owner(org, user, session), index))
  {
    var owner := OwnerPath(org, user, session);
    var key := ChunkKey(org, user, session, index);
    assert key == (TEMP_PREFIX + "/") + (owner + "/" + Dec(index));
    assert After(TEMP_PREFIX + "/", key) == Some(owner + "/" + Dec(index));
    UndecDec(index);
    CutLast(owner, Dec(index));
    ParseOwnerOf(org, user, session);
  }

  /** The final-key parser undoes the final-key printer. */
  lemma FinalKeyRoundTrip(org: string, user: nat, session: string)
    requires SlashFree(session)
    ensures ParseFinal(FinalKey(org, user, session)) == Some(Owner(org, user, session))
  {
    var owner := OwnerPath(org, user, session);
    var key := FinalKey(org, user, session);
    assert key == (FINAL_PREFIX + "/") + (owner + ".pdf");
    assert After(FINAL_PREFIX + "/", key) == Some(owner + ".pdf");
    assert (owner + ".pdf")[|owner|..] == ".pdf" && (owner + ".pdf")[..|owner|] == owner;
    ParseOwnerOf(org, user, session);
  }

  // ---- what the service relies on ----

  lemma ValidIdIsSlashFree(id: string)
    requires ValidSessionId(id)
    ensures SlashFree(id)
  {
    forall i | 0 <= i < |id| ensures id[i] != '/' { assert SessionIdChar(id[i]); }
  }

  /** Two chunks share a key exactly when they are the same chunk, whatever the organization codes hold. */
  lemma ChunkKeysCollideIff(org1: string, user1: nat, session1: string, index1: nat,
                            org2: string, user2: nat, session2: string, index2: nat)
    requires ValidSessionId(session1) && ValidSessionId(session2)
    ensures ChunkKey(org1, user1, session1, index1) == ChunkKey(org2, user2, session2, index2) <==>
            (org1 == org2 && user1 == user2 && session1 == session2 && index1 == index2)
  {
    ValidIdIsSlashFree(session1);
    ValidIdIsSlashFree(session2);
    ChunkKeyRoundTrip(org1, user1, session1, index1);
    ChunkKeyRoundTrip(org2, user2, session2, index2);
  }

  /** Two uploads share a final key exactly when they are the same upload. */
  lemma FinalKeysCollideIff(org1: string, user1: nat, session1: string, org2: string, user2: nat, session2: string)
    requires ValidSessionId(session1) && ValidSessionId(session2)
    ensures FinalKey(org1, user1, session1) == FinalKey(org2, user2, session2) <==>
            (org1 == org2 && user1 == user2 && session1 == session2)
  {
    ValidIdIsSlashFree(session1);
    ValidIdIsSlashFree(session2);
    FinalKeyRoundTrip(org1, user1, session1);
    FinalKeyRoundTrip(org2, user2, session2);
  }

  /** No temporary key is a final key. */
  lemma ChunkAndFinalKeysDisjoint(org1: string, user1: nat, session1: string, index: nat, org2: string, user2: nat, session2: string)
    ensures ChunkKey(org1, user1, session1, index) != FinalKey(org2, user2, session2)
  {
    assert ChunkKey(org1, user1, session1, index)[0] == 't';
    assert FinalKey(org2, user2, session2)[0] == 'u';
  }

  lemma Assoc(a: string, b: string, c: string)
    ensures a + (b + c) == (a + b) + c
  {
  }

  /** Moving the first two segments of a session id over to the organization. */
  lemma Shift(a: string, head: string, o: string, tail: string)
    ensures a + (head + "/" + o + "/" + tail) == (a + head) + "/" + o + "/" + tail
  {
    Assoc(a, head + "/" + o + "/", tail);
    Assoc(a, head + "/" + o, "/");
    Assoc(a, head + "/", o);
    Assoc(a, head, "/");
  }

  lemma InnerSlashIsInvalid(head: string, rest: string)
    ensures !ValidSessionId(head + "/" + rest)
  {
    assert (head + "/" + rest)[|head|] == '/' && !SessionIdChar('/');
  }

  /** The session id check is what the rest stands on: any id with an inner "/user/" shares its keys with another upload. */
  lemma {:induction false} SlashInSessionIdCollides(org: string, user: nat, head: string, other: nat, tail: string, index: nat)
    ensures !ValidSessionId(head + "/" + Dec(other) + "/" + tail)
    ensures FinalKey(org, user, head + "/" + Dec(other) + "/" + tail) == FinalKey(org + "/" + Dec(user) + "/" + head, other, tail)
    ensures ChunkKey(org, user, head + "/" + Dec(other) + "/" + tail, index) ==
            ChunkKey(org + "/" + Dec(user) + "/" + head, other, tail, index)
  {
    InnerSlashIsInvalid(head + "/" + Dec(other), tail);
    Shift(org + "/" + Dec(user) + "/", head, Dec(other), tail);
  }
}
