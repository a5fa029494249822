/**
 The shared Redis cache and the texts stored in it. A get or set may fail, entries may
 vanish at any moment (expiry, flush), a delete may be lost. JSON is ideal: it
 carries every tagged field, and `deleted_at` is not tagged.
 */
module SharedCache {
  import opened Prelude
  import opened OrganizationRepository

  /** A completed upload (internal/model/upload/upload.go:9-21). */
  datatype Doc = Doc(id: nat, org: string, user: nat, name: string, path: string, createdAt: int)

  datatype OrgJson = OrgJson(code: string, name: string, description: string, active: bool, createdAt: int, updatedAt: int)

  datatype Text =
    | One | Zero            // "1" and "0"
    | Null                  // "null"
    | OrgText(o: OrgJson)
    | OrgsText(os: seq<OrgJson>)
    | DocText(d: Doc)
    | DocsText(ds: seq<Doc>)

  type Entries = map<string, Text>

  function Encode(o: Org): OrgJson {
    OrgJson(o.code, o.name, o.description, o.active, o.createdAt, o.updatedAt)
  }

  function Decode(j: OrgJson): Org {
    Org(j.code, j.name, j.description, j.active, j.createdAt, j.updatedAt, false)
  }

  function EncodeAll(os: seq<Org>): seq<OrgJson> {
    seq(|os|, i requires 0 <= i < |os| => Encode(os[i]))
  }

  function DecodeAll(js: seq<OrgJson>): seq<Org> {
    seq(|js|, i requires 0 <= i < |js| => Decode(js[i]))
  }

  /** A row survives the trip through the cache exactly when it is not deleted. */
  lemma JsonRoundTripIff(o: Org)
    ensures Decode(Encode(o)) == o <==> !o.deleted
  {
  }

  lemma JsonRoundTripAll(os: seq<Org>)
    requires forall o :: o in os ==> !o.deleted
    ensures DecodeAll(EncodeAll(os)) == os
  {
    forall i | 0 <= i < |os| ensures DecodeAll(EncodeAll(os))[i] == os[i] { JsonRoundTripIff(os[i]); }
  }

  class Redis {
    var entries: Entries

    constructor ()
      ensures entries == map[]
    {
      entries := map[];
    }

    /** Err is a backend failure, Ok(None) a miss. */
    method Get(key: string, fails: bool) returns (r: Outcome<Option<Text>>)
      ensures r == if fails then Err else Ok(if key in entries then Some(entries[key]) else None)
    {
      if fails { return Err; }
      if key in entries { return Ok(Some(entries[key])); }
      return Ok(None);
    }

    method Set(key: string, val: Text, fails: bool)
      modifies this
      ensures entries == if fails then old(entries) else old(entries)[key := val]
    {
      if !fails { entries := entries[key := val]; }
    }

    method Delete(keys: seq<string>, fails: bool)
      modifies this
      ensures entries == if fails then old(entries) else old(entries) - (set k | k in keys)
    {
      if !fails { entries := entries - (set k | k in keys); }
    }

    /** Expiry and flushes. */
    method Vanish(keys: set<string>)
      modifies this
      ensures entries == old(entries) - keys
    {
      entries := entries - keys;
    }
  }
}
