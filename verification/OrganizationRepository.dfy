/**
 The bare organization repository (internal/repository/organization/organization_repository.go:35-71)
 over a table kept in code order, soft-deleted rows included.
 */
module OrganizationRepository {
  import opened Prelude
  import opened Strings

  datatype Org = Org(code: string, name: string, description: string, active: bool,
                     createdAt: int, updatedAt: int, deleted: bool)

  type Table = seq<Org>

  // ---- queries ----

  function RowOf(t: Table, code: string): Option<Org> {
    if t == [] then None else if t[0].code == code then Some(t[0]) else RowOf(t[1..], code)
  }

  function GetByCode(t: Table, code: string): Option<Org> {
    match RowOf(t, code)
    case Some(o) => if o.deleted then None else Some(o)
    case None => None
  }

  predicate ExistsActive(t: Table, code: string) {
    match RowOf(t, code)
    case Some(o) => !o.deleted && o.active
    case None => false
  }

  /** ORDER BY code ASC over the rows not soft-deleted. */
  function List(t: Table): seq<Org> {
    if t == [] then [] else (if t[0].deleted then [] else [t[0]]) + List(t[1..])
  }

  // ---- writes ----

  /** Insert a row, or replace the row of the same code, at its place in code order. */
  function Put(t: Table, o: Org): Table {
    if t == [] then [o]
    else if t[0].code == o.code then [o] + t[1..]
    else if Less(o.code, t[0].code) then [o] + t
    else [t[0]] + Put(t[1..], o)
  }

  /** INSERT: the primary key covers soft-deleted rows; a false `active` takes the column default, true. */
  function Create(t: Table, o: Org): Outcome<Table> {
    if RowOf(t, o.code).Some? then Err else Ok(Put(t, o.(active := true, deleted := false)))
  }

  /** gorm's Save is an upsert by primary key. */
  function Save(t: Table, o: Org): Table {
    Put(t, o)
  }

  function SoftDelete(t: Table, code: string): Table {
    match RowOf(t, code)
    case Some(o) => Put(t, o.(deleted := true))
    case None => t
  }

  // ---- the table and its listing ----

  ghost predicate Sorted(t: Table) {
    forall i, j :: 0 <= i < j < |t| ==> Less(t[i].code, t[j].code)
  }

  lemma {:induction false} RowOfIs(t: Table, i: nat)
    requires Sorted(t) && i < |t|
    ensures RowOf(t, t[i].code) == Some(t[i])
  {
    if i > 0 {
      LessTrichotomy(t[0].code, t[i].code);
      assert t[1..][i - 1] == t[i];
      RowOfIs(t[1..], i - 1);
    }
  }

  lemma {:induction false} RowOfMember(t: Table, code: string)
    ensures RowOf(t, code).Some? ==> RowOf(t, code).value in t && RowOf(t, code).value.code == code
    ensures RowOf(t, code).None? ==> forall o :: o in t ==> o.code != code
  {
    if t != [] { RowOfMember(t[1..], code); }
  }

  lemma {:induction false} PutMembers(t: Table, o: Org, x: Org)
    requires x in Put(t, o)
    ensures x == o || x in t
  {
    if t != [] && t[0].code != o.code && !Less(o.code, t[0].code) && x != t[0] {
      PutMembers(t[1..], o, x);
    }
  }

  /** Writing a row keeps the table in strict code order, so codes stay unique. */
  lemma {:induction false} PutSorted(t: Table, o: Org)
    requires Sorted(t)
    ensures Sorted(Put(t, o))
  {
    if t != [] && t[0].code != o.code {
      LessTrichotomy(o.code, t[0].code);
      if Less(o.code, t[0].code) {
        forall j | 0 < j < |t| ensures Less(o.code, t[j].code) { LessTransitive(o.code, t[0].code, t[j].code); }
      } else {
        PutSorted(t[1..], o);
        forall x | x in Put(t[1..], o) ensures Less(t[0].code, x.code) { PutMembers(t[1..], o, x); }
      }
    }
  }

  /** A write changes the row of its own code and no other. */
  lemma {:induction false} PutRow(t: Table, o: Org, code: string)
    requires Sorted(t)
    ensures RowOf(Put(t, o), code) == if code == o.code then Some(o) else RowOf(t, code)
  {
    if t != [] && t[0].code != o.code {
      if Less(o.code, t[0].code) {
        if code == o.code {} else { assert ([o] + t)[1..] == t; }
      } else {
        assert ([t[0]] + Put(t[1..], o))[1..] == Put(t[1..], o);
        PutRow(t[1..], o, code);
      }
    } else if t == [] {
      assert [o][1..] == [];
    } else {
      assert ([o] + t[1..])[1..] == t[1..];
    }
  }

  /** The listing is in strict code order and holds exactly the rows not deleted. */
  lemma {:induction false} ListIsOrderedAndComplete(t: Table)
    requires Sorted(t)
    ensures Sorted(List(t))
    ensures forall o :: o in List(t) <==> (o in t && !o.deleted)
  {
    if t != [] {
      ListIsOrderedAndComplete(t[1..]);
      forall o | o in List(t[1..]) ensures Less(t[0].code, o.code) { assert o in t[1..]; }
      assert forall o :: o in t <==> o == t[0] || o in t[1..];
    }
  }

  /** A row can be read by code exactly when it is listed. */
  lemma GetAgreesWithList(t: Table, o: Org)
    requires Sorted(t)
    ensures o in List(t) <==> GetByCode(t, o.code) == Some(o)
  {
    ListIsOrderedAndComplete(t);
    RowOfMember(t, o.code);
    if o in t {
      var i :| 0 <= i < |t| && t[i] == o;
      RowOfIs(t, i);
    }
  }

  /** An organization is admitted exactly when the listing shows it active. */
  lemma {:induction false} ExistsActiveIff(t: Table, code: string)
    requires Sorted(t)
    ensures ExistsActive(t, code) <==> exists o :: o in List(t) && o.code == code && o.active
  {
    ListIsOrderedAndComplete(t);
    RowOfMember(t, code);
    if o :| o in List(t) && o.code == code && o.active {
      var i :| 0 <= i < |t| && t[i] == o;
      RowOfIs(t, i);
    }
  }
}
