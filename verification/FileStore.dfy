/** The bucket of encrypted files: one-time like secrets, but expiry is checked inside the burn. */
module FileStore {
  import opened Records
  import S = SecretStore

  datatype File = File(ciphertext: seq<Byte>, createdAt: Time, expiresAt: Time, size: int)

  type Rows = map<Id, Row<File>>

  predicate Live(row: Row<File>, now: Time) {
    row.Row? && !IsExpired(row.value.expiresAt, now)
  }

  function MetaOf(rows: Rows, id: Id, now: Time): Result<Option<File>> {
    if id !in rows then Ok(None)
    else match rows[id]
      case Undecodable => Err("undecodable")
      case Row(f) => Ok(if IsExpired(f.expiresAt, now) then None else Some(f))
  }

  /** Whatever lies under the id is gone afterwards; only a live record is handed out. */
  function Burned(rows: Rows, id: Id, now: Time): (Rows, Option<File>) {
    (rows - {id}, if id in rows && Live(rows[id], now) then Some(rows[id].value) else None)
  }

  function Unexpired(rows: Rows, now: Time): Rows {
    map id | id in rows && Live(rows[id], now) :: rows[id]
  }

  class Store {
    var rows: Rows

    constructor ()
      ensures rows == map[]
    {
      rows := map[];
    }

    method Create(id: Id, file: File, commits: bool) returns (r: Result<()>)
      modifies this
      ensures r.Ok? <==> commits && id != ""
      ensures rows == if r.Ok? then old(rows)[id := Row(file)] else old(rows)
    {
      // A bolt put refuses an empty key.
      if !commits || id == "" { return Err("transaction failed"); }
      rows := rows[id := Row(file)];
      return Ok(());
    }

    method GetMeta(id: Id, now: Time, commits: bool) returns (r: Result<Option<File>>)
      ensures r == if commits then MetaOf(rows, id, now) else Err("transaction failed")
      ensures commits && id in rows && rows[id].Row? ==>
        r == Ok(if rows[id].value.expiresAt == ZERO_TIME || now <= rows[id].value.expiresAt then Some(rows[id].value) else None)
    {
      if !commits { return Err("transaction failed"); }
      if id !in rows { return Ok(None); }
      var raw := rows[id];
      if raw.Undecodable? { return Err("undecodable"); }
      if IsExpired(raw.value.expiresAt, now) { return Ok(None); }
      return Ok(Some(raw.value));
    }

    method GetAndBurn(id: Id, now: Time, commits: bool) returns (r: Result<Option<File>>)
      modifies this
      ensures !commits ==> r.Err? && rows == old(rows)
      ensures commits ==> r.Ok? && (rows, r.value) == Burned(old(rows), id, now)
    {
      if !commits { return Err("transaction failed"); }
      if id !in rows {
        assert rows - {id} == rows;
        return Ok(None);
      }
      var raw := rows[id];
      rows := rows - {id};
      if raw.Undecodable? || IsExpired(raw.value.expiresAt, now) { return Ok(None); }
      return Ok(Some(raw.value));
    }

    method Delete(id: Id, commits: bool) returns (r: Result<()>)
      modifies this
      ensures r.Ok? <==> commits
      ensures rows == if commits then old(rows) - {id} else old(rows)
    {
      if !commits { return Err("transaction failed"); }
      rows := rows - {id};
      return Ok(());
    }

    /** Two phases: collect what has to go, undecodable rows included, then delete it. */
    method DeleteExpired(now: Time, commits: bool) returns (r: Result<nat>)
      modifies this
      ensures !commits ==> r.Err? && rows == old(rows)
      ensures commits ==> rows == Unexpired(old(rows), now) && r == Ok(|old(rows)| - |rows|)
      ensures commits ==> (forall id :: id in rows <==> (id in old(rows) && old(rows)[id].Row? &&
        (old(rows)[id].value.expiresAt == ZERO_TIME || now <= old(rows)[id].value.expiresAt)))
    {
      if !commits { return Err("transaction failed"); }
      var expired: seq<Id> := [];
      var ahead := rows.Keys;
      while ahead != {}
        invariant ahead <= rows.Keys && rows == old(rows)
        invariant forall id :: id in expired <==> id in rows && id !in ahead && !Live(rows[id], now)
        invariant forall i, j :: 0 <= i < j < |expired| ==> expired[i] != expired[j]
        decreases |ahead|
      {
        var id :| id in ahead;
        ahead := ahead - {id};
        if rows[id].Undecodable? {
          expired := expired + [id];
          continue;
        }
        if IsExpired(rows[id].value.expiresAt, now) {
          expired := expired + [id];
        }
      }
      var removed := 0;
      while removed < |expired|
        invariant removed <= |expired|
        invariant forall id :: id in rows <==> id in old(rows) && id !in expired[..removed]
        invariant forall id :: id in rows ==> rows[id] == old(rows)[id]
        invariant removed == |old(rows)| - |rows|
      {
        assert expired[removed] in rows;
        S.DropShrinks(rows, expired[removed]);
        rows := rows - {expired[removed]};
        removed := removed + 1;
      }
      assert rows == Unexpired(old(rows), now);
      return Ok(removed);
    }
  }

  /** Rows of the two buckets that expire alike. */
  predicate SameLifetimes(secrets: S.Rows, files: Rows) {
    && secrets.Keys == files.Keys
    && forall id :: id in files ==>
         secrets[id].Row? && files[id].Row? && secrets[id].value.expiresAt == files[id].value.expiresAt
  }

  /**
   Deleting under the cursor and collecting first come to the same: on decodable rows both sweeps leave the
   same ids and remove as many, and what they leave is what is not past its expiry.
   */
  lemma SweepsAgree(secrets: S.Rows, files: Rows, now: Time)
    requires SameLifetimes(secrets, files)
    ensures SameLifetimes(S.Unexpired(secrets, now), Unexpired(files, now))
    ensures |secrets| - |S.Unexpired(secrets, now)| == |files| - |Unexpired(files, now)|
    ensures forall id :: id in Unexpired(files, now) <==> id in files && !IsExpired(files[id].value.expiresAt, now)
  {
    assert S.Unexpired(secrets, now).Keys == Unexpired(files, now).Keys;
    assert |S.Unexpired(secrets, now)| == |S.Unexpired(secrets, now).Keys|;
    assert |Unexpired(files, now)| == |Unexpired(files, now).Keys|;
    assert |secrets| == |secrets.Keys| && |files| == |files.Keys|;
  }

  /** They part on rows that do not decode: a secret's stays, a file's goes. */
  lemma SweepsPart(secrets: S.Rows, files: Rows, now: Time, id: Id)
    requires id in secrets && secrets[id].Undecodable? && id in files && files[id].Undecodable?
    ensures id in S.Unexpired(secrets, now) && id !in Unexpired(files, now)
  {
  }
}
