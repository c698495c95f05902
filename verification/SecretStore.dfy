/**
 The bucket of secrets. The functions say what one transaction does to the rows;
 the methods of `SecretStore` are the transactions, and the protocol's steps use the functions.
 A transaction that does not commit leaves the rows alone and reports an error.
 */
module SecretStore {
  import opened Records

  datatype Secret = Secret(ciphertext: string, createdAt: Time, expiresAt: Time, size: int)

  type Rows = map<Id, Row<Secret>>

  predicate Outlived(row: Row<Secret>, now: Time) {
    row.Row? && IsExpired(row.value.expiresAt, now)
  }

  function Created(rows: Rows, id: Id, secret: Secret): Result<Rows> {
    if id == "" then Err("secret id required")
    else if id in rows then Err("secret id collision")
    else Ok(rows[id := Row(secret)])
  }

  function MetaOf(rows: Rows, id: Id): Result<Option<Secret>> {
    if id !in rows then Ok(None)
    else match rows[id]
      case Undecodable => Err("undecodable")
      case Row(secret) => Ok(Some(secret))
  }

  /** What reading-and-deleting in one transaction leaves behind, next to what it answers. */
  function Burned(rows: Rows, id: Id): (Rows, Result<Option<Secret>>) {
    match MetaOf(rows, id)
    case Err(e) => (rows, Err(e))
    case Ok(None) => (rows, Ok(None))
    case Ok(Some(secret)) => (rows - {id}, Ok(Some(secret)))
  }

  function Unexpired(rows: Rows, now: Time): Rows {
    map id | id in rows && !Outlived(rows[id], now) :: rows[id]
  }

  class Store {
    const isOpen: bool
    var rows: Rows

    constructor (isOpen: bool)
      ensures this.isOpen == isOpen && rows == map[]
    {
      this.isOpen := isOpen;
      rows := map[];
    }

    method Create(id: Id, secret: Secret, commits: bool) returns (r: Result<()>)
      modifies this
      ensures r.Ok? <==> isOpen && commits && id != "" && id !in old(rows)
      ensures rows == if r.Ok? then Created(old(rows), id, secret).value else old(rows)
    {
      if !isOpen { return Err("store not open"); }
      if id == "" { return Err("secret id required"); }
      if id in rows { return Err("secret id collision"); }
      if !commits { return Err("transaction failed"); }
      rows := rows[id := Row(secret)];
      return Ok(());
    }

    method GetMeta(id: Id, commits: bool) returns (r: Result<Option<Secret>>)
      ensures r == if !isOpen then Ok(None) else if !commits then Err("transaction failed") else MetaOf(rows, id)
    {
      if !isOpen { return Ok(None); }
      if !commits { return Err("transaction failed"); }
      if id !in rows { return Ok(None); }
      var raw := rows[id];
      if raw.Undecodable? { return Err("undecodable"); }
      return Ok(Some(raw.value));
    }

    method GetAndBurn(id: Id, commits: bool) returns (r: Result<Option<Secret>>)
      modifies this
      ensures !isOpen ==> r == Ok(None) && rows == old(rows)
      ensures isOpen && !commits ==> r.Err? && rows == old(rows)
      ensures isOpen && commits ==> (rows, r) == Burned(old(rows), id)
    {
      if !isOpen { return Ok(None); }
      if !commits { return Err("transaction failed"); }
      if id !in rows { return Ok(None); }
      var raw := rows[id];
      if raw.Undecodable? { return Err("undecodable"); }
      rows := rows - {id};
      return Ok(Some(raw.value));
    }

    method Delete(id: Id, commits: bool) returns (r: Result<()>)
      modifies this
      ensures r.Ok? <==> isOpen && commits
      ensures rows == if r.Ok? then old(rows) - {id} else old(rows)
    {
      if !isOpen { return Err("store not open"); }
      if !commits { return Err("transaction failed"); }
      rows := rows - {id};
      return Ok(());
    }

    /** One cursor pass that deletes the rows it stands on; undecodable rows are stepped over. */
    method DeleteExpired(now: Time, commits: bool) returns (r: Result<nat>)
      modifies this
      ensures !isOpen ==> r == Ok(0) && rows == old(rows)
      ensures isOpen && !commits ==> r.Err? && rows == old(rows)
      ensures isOpen && commits ==> rows == Unexpired(old(rows), now) && r == Ok(|old(rows)| - |rows|)
      ensures isOpen && commits ==> (forall id :: id in rows <==> (id in old(rows) &&
        (old(rows)[id].Undecodable? || old(rows)[id].value.expiresAt == ZERO_TIME || now <= old(rows)[id].value.expiresAt)))
    {
      if !isOpen { return Ok(0); }
      if !commits { return Err("transaction failed"); }
      var count := 0;
      var ahead := rows.Keys;
      while ahead != {}
        invariant ahead <= rows.Keys <= old(rows).Keys
        invariant forall id :: id in rows ==> rows[id] == old(rows)[id]
        invariant forall id :: id in old(rows) && id !in ahead ==> (id in rows <==> !Outlived(old(rows)[id], now))
        invariant count == |old(rows)| - |rows|
        decreases |ahead|
      {
        var id :| id in ahead;
        ahead := ahead - {id};
        var raw := rows[id];
        if raw.Undecodable? { continue; }
        if IsExpired(raw.value.expiresAt, now) {
          DropShrinks(rows, id);
          rows := rows - {id};
          count := count + 1;
        }
      }
      assert rows == Unexpired(old(rows), now);
      return Ok(count);
    }
  }

  lemma DropShrinks<V>(rows: map<Id, V>, id: Id)
    requires id in rows
    ensures |rows - {id}| == |rows| - 1
  {
    assert (rows - {id}).Keys == rows.Keys - {id};
  }
}
