/**
 The cache keys (internal/infra/cache/keys.go): which reads share a key and which
 keys a write invalidates. All families live in one Redis namespace.
 */
module CacheKeys {
  import opened ObjectKeys

  const NAMESPACE := "ragsystem:"
  const ALL_ORGS := "__all__"

  function OrgExists(code: string): string { NAMESPACE + "org:exists:" + code }

  function OrgGet(code: string): string { NAMESPACE + "org:get:" + code }

  function OrgList(): string { NAMESPACE + "org:list" }

  /** Everything a write to one organization invalidates. */
  function OrgKeys(code: string): seq<string> {
    [OrgExists(code), OrgGet(code), OrgList()]
  }

  /** The empty scope is the admin list over all organizations. */
  function DocList(scope: string): string {
    NAMESPACE + "doc:list:" + if scope == "" then ALL_ORGS else scope
  }

  function DocById(id: nat): string { NAMESPACE + "doc:id:" + Dec(id) }

  /** The lists a new document of an organization invalidates. */
  function DocListKeysForOrg(org: string): seq<string> {
    [DocList(org), DocList("")]
  }

  /** One cached read. */
  datatype Read =
    | ExistsRead(code: string)
    | GetRead(code: string)
    | ListRead
    | DocListRead(scope: string)
    | DocRead(id: nat)

  function KeyOf(r: Read): string {
    match r
    case ExistsRead(code) => OrgExists(code)
    case GetRead(code) => OrgGet(code)
    case ListRead => OrgList()
    case DocListRead(scope) => DocList(scope)
    case DocRead(id) => DocById(id)
  }

  /** The reads that share a key although they ask for different things. */
  predicate AdminClash(a: Read, b: Read) {
    a.DocListRead? && b.DocListRead? && a != b &&
    (a.scope == "" || a.scope == ALL_ORGS) && (b.scope == "" || b.scope == ALL_ORGS)
  }

  lemma Tail(a: string, b: string, c: string)
    requires a + b == a + c
    ensures b == c
  {
    assert (a + b)[|a|..] == b && (a + c)[|a|..] == c;
  }

  /** Keys of different families differ in one of two characters after the namespace. */
  lemma FamilyMarks(r: Read)
    ensures |KeyOf(r)| >= 15
    ensures KeyOf(r)[10] == (if r.DocListRead? || r.DocRead? then 'd' else 'o')
    ensures KeyOf(r)[14] == match r
      case ExistsRead(_) => 'e'
      case GetRead(_) => 'g'
      case ListRead => 'l'
      case DocListRead(_) => 'l'
      case DocRead(_) => 'i'
  {
  }

  /** Two reads share a key exactly when they are the same read, or the admin list and the list of an organization called "__all__". */
  lemma KeysCollideIff(a: Read, b: Read)
    ensures KeyOf(a) == KeyOf(b) <==> (a == b || AdminClash(a, b))
  {
    FamilyMarks(a);
    FamilyMarks(b);
    if KeyOf(a) == KeyOf(b) {
      match (a, b)
      case (ExistsRead(c), ExistsRead(d)) => Tail(NAMESPACE + "org:exists:", c, d);
      case (GetRead(c), GetRead(d)) => Tail(NAMESPACE + "org:get:", c, d);
      case (DocListRead(c), DocListRead(d)) =>
        Tail(NAMESPACE + "doc:list:", if c == "" then ALL_ORGS else c, if d == "" then ALL_ORGS else d);
      case (DocRead(i), DocRead(j)) =>
        Tail(NAMESPACE + "doc:id:", Dec(i), Dec(j));
        UndecDec(i);
        UndecDec(j);
      case _ =>
    }
  }
}
