/** The bucket of private ids: an id that is present needs a session, an absent one is public. */
module VisibilityStore {
  import opened Records

  class Store {
    const isOpen: bool
    var ids: set<Id>

    constructor (isOpen: bool)
      ensures this.isOpen == isOpen && ids == {}
    {
      this.isOpen := isOpen;
      ids := {};
    }

    method SetPrivate(id: Id, commits: bool) returns (r: Result<()>)
      modifies this
      ensures r.Err? <==> isOpen && id != "" && !commits
      ensures ids == if isOpen && id != "" && commits then old(ids) + {id} else old(ids)
    {
      if !isOpen || id == "" { return Ok(()); }
      if !commits { return Err("transaction failed"); }
      ids := ids + {id};
      return Ok(());
    }

    method IsPrivate(id: Id, commits: bool) returns (r: Result<bool>)
      ensures r.Err? <==> isOpen && id != "" && !commits
      ensures r.Ok? ==> r.value == (isOpen && id != "" && id in ids)
    {
      if !isOpen || id == "" { return Ok(false); }
      if !commits { return Err("transaction failed"); }
      return Ok(id in ids);
    }

    method Delete(id: Id, commits: bool) returns (r: Result<()>)
      modifies this
      ensures r.Err? <==> isOpen && !commits
      ensures ids == if isOpen && commits then old(ids) - {id} else old(ids)
    {
      if !isOpen { return Ok(()); }
      if !commits { return Err("transaction failed"); }
      ids := ids - {id};
      return Ok(());
    }

    method List(commits: bool) returns (r: Result<seq<Id>>)
      ensures r.Err? <==> isOpen && !commits
      ensures r.Ok? ==> Lists(r.value, if isOpen then ids else {})
    {
      if !isOpen { return Ok([]); }
      if !commits { return Err("transaction failed"); }
      var listed := ListKeys(ids);
      return Ok(listed);
    }
  }
}
