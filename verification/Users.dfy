/** The users of the console and the bucket that keeps them, keyed by normalized e-mail address. */
module Users {
  import opened Records
  import opened Text
  import opened Recovery

  datatype Role = Admin | Member

  /** The role a text names; anything unknown reads as the lesser one. */
  function ParseRole(s: string): (Role, bool) {
    var r := ToLower(TrimSpace(s));
    if r == "admin" then (Admin, true) else if r == "user" then (Member, true) else (Member, false)
  }

  datatype User = User(
    email: string, name: string, role: Role, source: string, passwordHash: string,
    pinned: bool, enabled: bool, subject: string,
    totpEnabled: bool, totpSecret: string, recovery: seq<string>,
    handle: seq<Byte>, passkeys: string,
    createdAt: Time, updatedAt: Time, lastLoginAt: Time)

  /** The zero value, from which new records are made. */
  const BLANK: User := User("", "", Member, "", "", false, false, "", false, "", [], [], "", ZERO_TIME, ZERO_TIME, ZERO_TIME)

  type Rows = map<string, Row<User>>

  function Normalize(email: string): string {
    ToLower(TrimSpace(email))
  }

  lemma NormalizeTwice(email: string)
    ensures Normalize(Normalize(email)) == Normalize(email)
  {
    var t := TrimSpace(email);
    TrimSpaceTrims(email);
    TrimSpaceTrims(ToLower(t));
    assert ToLower(ToLower(t)) == ToLower(t);
  }

  function Found(rows: Rows, email: string): Result<Option<User>> {
    if Normalize(email) !in rows then Ok(None)
    else match rows[Normalize(email)]
      case Undecodable => Err("undecodable")
      case Row(u) => Ok(Some(u))
  }

  /** The record as it is written: normalized key, first creation time, this update time. */
  function Stamped(rows: Rows, u: User, now: Time): User {
    var email := Normalize(u.email);
    var kept := if email in rows && rows[email].Row? && rows[email].value.createdAt != ZERO_TIME
                then rows[email].value.createdAt else u.createdAt;
    u.(email := email, createdAt := if kept == ZERO_TIME then now else kept, updatedAt := now)
  }

  function Upserted(rows: Rows, u: User, now: Time): Rows {
    rows[Normalize(u.email) := Row(Stamped(rows, u, now))]
  }

  predicate EnabledAdmin(u: User) {
    u.role == Admin && u.enabled
  }

  /** The store invariant: a record lies under the normalized form of its own address. */
  ghost predicate Keyed(rows: Rows) {
    forall k :: k in rows && rows[k].Row? ==> rows[k].value.email == k && Normalize(k) == k && k != "" && rows[k].value.createdAt != ZERO_TIME
  }

  lemma UpsertKeeps(rows: Rows, u: User, now: Time)
    requires Keyed(rows) && Normalize(u.email) != "" && now != ZERO_TIME
    ensures Keyed(Upserted(rows, u, now))
  {
    NormalizeTwice(u.email);
  }

  /** All users, in whatever order the bucket gives them. */
  ghost predicate Listed(us: seq<User>, keys: seq<string>, rows: Rows) {
    && Lists(keys, rows.Keys) && |us| == |keys|
    && forall i :: 0 <= i < |keys| ==> rows[keys[i]] == Row(us[i])
  }

  class Store {
    const isOpen: bool
    var rows: Rows

    constructor (isOpen: bool)
      ensures this.isOpen == isOpen && rows == map[]
    {
      this.isOpen := isOpen;
      rows := map[];
    }

    method Get(email: string, commits: bool) returns (r: Result<Option<User>>)
      ensures r == if !isOpen then Ok(None) else if !commits then Err("transaction failed") else Found(rows, email)
    {
      if !isOpen { return Ok(None); }
      if !commits { return Err("transaction failed"); }
      var key := Normalize(email);
      if key !in rows { return Ok(None); }
      var raw := rows[key];
      if raw.Undecodable? { return Err("undecodable"); }
      return Ok(Some(raw.value));
    }

    /** One record that does not decode fails the whole listing. */
    method List(commits: bool) returns (r: Result<seq<User>>, ghost keys: seq<string>)
      ensures !isOpen ==> r == Ok([])
      ensures isOpen ==> (r.Ok? <==> commits && forall k :: k in rows ==> rows[k].Row?)
      ensures isOpen && r.Ok? ==> Listed(r.value, keys, rows)
    {
      keys := [];
      if !isOpen { return Ok([]), []; }
      if !commits { return Err("transaction failed"), []; }
      var ids := ListKeys(rows.Keys);
      keys := ids;
      var us: seq<User> := [];
      for i := 0 to |ids|
        invariant |us| == i && forall k :: 0 <= k < i ==> rows[ids[k]] == Row(us[k])
      {
        var raw := rows[ids[i]];
        if raw.Undecodable? { return Err("undecodable"), keys; }
        us := us + [raw.value];
      }
      return Ok(us), keys;
    }

    method Upsert(u: User, now: Time, commits: bool) returns (r: Result<User>)
      modifies this
      ensures r.Ok? <==> isOpen && Normalize(u.email) != "" && commits
      ensures r.Ok? ==> r.value == Stamped(old(rows), u, now)
      ensures rows == if r.Ok? then Upserted(old(rows), u, now) else old(rows)
    {
      if !isOpen { return Err("store not open"); }
      if u.email == "" { return Err("user email required"); }
      var p := u.(email := Normalize(u.email));
      NormalizeTwice(u.email);
      // A bolt put refuses an empty key.
      if !commits || p.email == "" { return Err("transaction failed"); }
      if p.email in rows {
        var raw := rows[p.email];
        if raw.Row? && raw.value.createdAt != ZERO_TIME { p := p.(createdAt := raw.value.createdAt); }
      }
      if p.createdAt == ZERO_TIME { p := p.(createdAt := now); }
      p := p.(updatedAt := now);
      rows := rows[p.email := Row(p)];
      return Ok(p);
    }

    method Delete(email: string, commits: bool) returns (r: Result<()>)
      modifies this
      ensures r.Ok? <==> isOpen && commits
      ensures rows == if r.Ok? then old(rows) - {Normalize(email)} else old(rows)
    {
      if !isOpen { return Err("store not open"); }
      if !commits { return Err("transaction failed"); }
      rows := rows - {Normalize(email)};
      return Ok(());
    }

    /** Whoever holds the role counts, enabled or not. */
    method CountByRole(role: Role, commits: bool) returns (r: Result<nat>)
      ensures !isOpen ==> r == Ok(0)
      ensures isOpen ==> (r.Ok? <==> commits && forall k :: k in rows ==> rows[k].Row?)
      ensures isOpen && r.Ok? ==> r.value == |Holders(rows, role)|
    {
      if !isOpen { return Ok(0); }
      if !commits { return Err("transaction failed"); }
      var n := 0;
      var rest := rows.Keys;
      ghost var seen: set<string> := {};
      while rest != {}
        invariant rest <= rows.Keys && forall k :: k in rows && k !in rest ==> rows[k].Row?
        invariant seen == set k | k in Holders(rows, role) && k !in rest
        invariant n == |seen|
        decreases |rest|
      {
        var k :| k in rest;
        rest := rest - {k};
        var raw := rows[k];
        if raw.Undecodable? { return Err("undecodable"); }
        if raw.value.role == role {
          n := n + 1;
          seen := seen + {k};
        }
      }
      assert seen == Holders(rows, role);
      return Ok(n);
    }
  }

  function Holders(rows: Rows, role: Role): set<string> {
    set k | k in rows && rows[k].Row? && rows[k].value.role == role
  }

  /** The enabled admins but one. */
  function OtherAdmins(rows: Rows, but: string): set<string> {
    set k | k in rows && rows[k].Row? && rows[k].value.email != but && EnabledAdmin(rows[k].value)
  }

  /** How many in a listing count against a lockout. */
  function Counted(us: seq<User>, but: string): nat {
    if us == [] then 0
    else Counted(us[..|us| - 1], but) + if us[|us| - 1].email != but && EnabledAdmin(us[|us| - 1]) then 1 else 0
  }

  function Within(keys: seq<string>, all: set<string>): set<string> {
    set k | k in keys && k in all
  }

  lemma WithinGrows(keys: seq<string>, k: string, all: set<string>)
    requires k !in keys
    ensures |Within(keys + [k], all)| == |Within(keys, all)| + if k in all then 1 else 0
  {
    if k in all {
      assert Within(keys + [k], all) == Within(keys, all) + {k};
    } else {
      assert Within(keys + [k], all) == Within(keys, all);
    }
  }

  /** Every key is listed once, so counting the list counts the keys. */
  lemma {:induction false} CountedIs(us: seq<User>, keys: seq<string>, rows: Rows, but: string)
    requires |us| == |keys| && forall i :: 0 <= i < |keys| ==> keys[i] in rows && rows[keys[i]] == Row(us[i])
    requires forall i, j :: 0 <= i < j < |keys| ==> keys[i] != keys[j]
    ensures Counted(us, but) == |Within(keys, OtherAdmins(rows, but))|
  {
    if us == [] {
      assert Within(keys, OtherAdmins(rows, but)) == {};
    } else {
      var n := |us| - 1;
      assert keys[n] in OtherAdmins(rows, but) <==> us[n].email != but && EnabledAdmin(us[n]);
      hide OtherAdmins, EnabledAdmin, Within;
      CountedIs(us[..n], keys[..n], rows, but);
      assert keys == keys[..n] + [keys[n]];
      WithinGrows(keys[..n], keys[n], OtherAdmins(rows, but));
    }
  }

  /** Counts the enabled admins in a listing other than the one named. */
  method OtherEnabledAdmins(store: Store, but: string, commits: bool) returns (r: Result<nat>)
    requires store.isOpen
    ensures r.Ok? <==> commits && forall k :: k in store.rows ==> store.rows[k].Row?
    ensures r.Ok? ==> r.value == |OtherAdmins(store.rows, but)|
  {
    var listed, keys := store.List(commits);
    if listed.Err? { return Err(listed.error); }
    var us := listed.value;
    var n := 0;
    for i := 0 to |us|
      invariant n == Counted(us[..i], but)
    {
      assert us[..i + 1][..i] == us[..i];
      if us[i].email == but { continue; }
      if EnabledAdmin(us[i]) { n := n + 1; }
    }
    assert us[..|us|] == us;
    CountedIs(us, keys, store.rows, but);
    assert OtherAdmins(store.rows, but) == Within(keys, OtherAdmins(store.rows, but));
    return Ok(n);
  }
}
