/** The bucket of multi-view budgets, told apart from the secrets it counts for. */
module ViewsStore {
  import opened Records

  datatype Budget = Budget(remaining: int, ciphertext: string)

  type Rows = map<Id, Row<Budget>>

  /** What a consume answers: while views remain, the stored copy; on the last one, nothing. */
  datatype Serving = Serving(ciphertext: string, remaining: int, found: bool)

  const NOTHING: Serving := Serving("", 0, false)

  function Written(rows: Rows, id: Id, remaining: int, ciphertext: string): Rows {
    if id == "" || remaining < 1 then rows else rows[id := Row(Budget(remaining, ciphertext))]
  }

  function Consumed(rows: Rows, id: Id): (Rows, Serving) {
    if id == "" || id !in rows then (rows, NOTHING)
    else match rows[id]
      case Undecodable => (rows - {id}, NOTHING)
      case Row(b) =>
        if b.remaining - 1 <= 0 then (rows - {id}, Serving("", 0, true))
        else (rows[id := Row(Budget(b.remaining - 1, b.ciphertext))], Serving(b.ciphertext, b.remaining - 1, true))
  }

  function BudgetLeft(rows: Rows, id: Id): Option<int> {
    if id == "" || id !in rows || rows[id].Undecodable? then None else Some(rows[id].value.remaining)
  }

  class Store {
    const isOpen: bool
    var rows: Rows

    /** Only `Put` and `Consume` write budgets, and neither stores one that is used up. */
    ghost predicate Valid() reads this {
      forall id :: id in rows && rows[id].Row? ==> rows[id].value.remaining >= 1
    }

    constructor (isOpen: bool)
      ensures Valid() && this.isOpen == isOpen && rows == map[]
    {
      this.isOpen := isOpen;
      rows := map[];
    }

    method Put(id: Id, remaining: int, ciphertext: string, commits: bool) returns (r: Result<()>)
      requires Valid()
      modifies this
      ensures Valid()
      ensures r.Err? <==> isOpen && id != "" && remaining >= 1 && !commits
      ensures rows == if isOpen && commits then Written(old(rows), id, remaining, ciphertext) else old(rows)
    {
      if !isOpen || id == "" || remaining < 1 { return Ok(()); }
      if !commits { return Err("transaction failed"); }
      rows := rows[id := Row(Budget(remaining, ciphertext))];
      return Ok(());
    }

    method Consume(id: Id, commits: bool) returns (r: Result<Serving>)
      requires Valid()
      modifies this
      ensures Valid()
      ensures r.Err? <==> isOpen && id != "" && !commits
      ensures r.Err? || !isOpen ==> rows == old(rows)
      ensures !isOpen ==> r == Ok(NOTHING)
      ensures isOpen && r.Ok? ==> (rows, r.value) == Consumed(old(rows), id)
    {
      if !isOpen || id == "" { return Ok(NOTHING); }
      if !commits { return Err("transaction failed"); }
      if id !in rows { return Ok(NOTHING); }
      var raw := rows[id];
      if raw.Undecodable? {
        rows := rows - {id};
        return Ok(NOTHING);
      }
      var remaining := raw.value.remaining - 1;
      if remaining <= 0 {
        rows := rows - {id};
        return Ok(Serving("", 0, true));
      }
      rows := rows[id := Row(Budget(remaining, raw.value.ciphertext))];
      return Ok(Serving(raw.value.ciphertext, remaining, true));
    }

    method Remaining(id: Id, commits: bool) returns (r: Result<Option<int>>)
      ensures r.Err? <==> isOpen && id != "" && !commits
      ensures r.Ok? ==> r.value == if isOpen then BudgetLeft(rows, id) else None
    {
      if !isOpen || id == "" { return Ok(None); }
      if !commits { return Err("transaction failed"); }
      if id !in rows { return Ok(None); }
      var raw := rows[id];
      if raw.Undecodable? { return Ok(None); }
      return Ok(Some(raw.value.remaining));
    }

    method Delete(id: Id, commits: bool) returns (r: Result<()>)
      requires Valid()
      modifies this
      ensures Valid()
      ensures r.Err? <==> isOpen && !commits
      ensures rows == if isOpen && commits then old(rows) - {id} else old(rows)
    {
      if !isOpen { return Ok(()); }
      if !commits { return Err("transaction failed"); }
      rows := rows - {id};
      return Ok(());
    }

    method List(commits: bool) returns (r: Result<seq<Id>>)
      ensures r.Err? <==> isOpen && !commits
      ensures r.Ok? ==> Lists(r.value, if isOpen then rows.Keys else {})
    {
      if !isOpen { return Ok([]); }
      if !commits { return Err("transaction failed"); }
      var ids := ListKeys(rows.Keys);
      return Ok(ids);
    }
  }
}
