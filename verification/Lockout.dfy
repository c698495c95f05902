/**
 Requests one after the other: whoever may sign in as an enabled admin, somebody always may; an account
 keeps the time it was created through everything that happens to it; and who is pinned stays admin.
 */
module Lockout {
  import opened Records
  import opened Text
  import opened Recovery
  import opened Users
  import opened Accounts
  import T = TwoFactor

  /** Which transactions of a request commit: its first read, its second, and its writes. */
  datatype Env = Env(gets: bool, checks: bool, commits: nat -> bool, now: Time)

  function OthersFound(rows: Rows, u: User, env: Env): Result<nat> {
    if env.checks && forall k :: k in rows ==> rows[k].Row? then Ok(|OtherAdmins(rows, u.email)|) else Err("internal error")
  }

  function TakenFound(rows: Rows, email: string, env: Env): Result<bool> {
    if !env.checks || Found(rows, email).Err? then Err("internal error") else Ok(Found(rows, email).value.Some?)
  }

  function HoldersFound(rows: Rows, env: Env): Result<nat> {
    if env.checks && forall k :: k in rows ==> rows[k].Row? then Ok(|Holders(rows, Admin)|) else Err("internal error")
  }

  /** What a request finds that nobody else gets in between. */
  function Look(rows: Rows, job: Job, env: Env): Findings {
    var found := if env.gets then Found(rows, job.who) else Err("internal error");
    Findings(found,
             if job.ChangeEmail? then TakenFound(rows, job.newEmail, env) else Ok(false),
             if Reads(found).Some? then OthersFound(rows, Reads(found).value, env) else Ok(0),
             HoldersFound(rows, env))
  }

  function Perform(rows: Rows, writes: seq<Write>, i: nat, env: Env): Rows
    decreases |writes|
  {
    if writes == [] then rows
    else if T.Lands(writes[0], env.commits(i)) then Perform(T.Written(rows, writes[0], env.now), writes[1..], i + 1, env)
    else if writes[0].vital then rows
    else Perform(rows, writes[1..], i + 1, env)
  }

  function Served(w: World, rows: Rows, job: Job, env: Env): Rows {
    match PlanFor(w, job, Look(rows, job, env))
    case Err(_) => rows
    case Ok(writes) => Perform(rows, writes, 0, env)
  }

  lemma OnePut(w: World, rows: Rows, job: Job, env: Env, u: User)
    requires PlanFor(w, job, Look(rows, job, env)) == Ok([Put(u, true)])
    ensures Served(w, rows, job, env) == if env.commits(0) && Normalize(u.email) != "" then Upserted(rows, u, env.now) else rows
  {
    hide PlanFor, Look, Upserted, Normalize;
    var writes: seq<Write> := [Put(u, true)];
    assert writes[0] == Put(u, true) && writes[1..] == [];
    assert Perform(Upserted(rows, u, env.now), [], 1, env) == Upserted(rows, u, env.now);
  }

  lemma OneRemove(w: World, rows: Rows, job: Job, env: Env, email: string)
    requires PlanFor(w, job, Look(rows, job, env)) == Ok([Remove(email, true)])
    ensures Served(w, rows, job, env) == if env.commits(0) then rows - {Normalize(email)} else rows
  {
    hide PlanFor, Look, Normalize;
    var writes: seq<Write> := [Remove(email, true)];
    assert writes[0] == Remove(email, true) && writes[1..] == [];
    assert Perform(rows - {Normalize(email)}, [], 1, env) == rows - {Normalize(email)};
    assert Perform(rows, [], 1, env) == rows;
  }

  lemma NothingServed(w: World, rows: Rows, job: Job, env: Env)
    requires var plan := PlanFor(w, job, Look(rows, job, env)); plan.Err? || plan.value == []
    ensures Served(w, rows, job, env) == rows
  {
  }

  type Requests = seq<(Job, Env)>

  /** A history: the bucket before, between and after any number of requests. */
  ghost predicate History(w: World, states: seq<Rows>, reqs: Requests) {
    && |states| == |reqs| + 1
    && forall i :: 0 <= i < |reqs| ==> ServedAt(w, states, reqs, i)
  }

  ghost predicate ServedAt(w: World, states: seq<Rows>, reqs: Requests, i: nat)
    requires |states| == |reqs| + 1 && i < |reqs|
  {
    reqs[i].1.now != ZERO_TIME && states[i + 1] == Served(w, states[i], reqs[i].0, reqs[i].1)
  }

  // ---- What a single write does ----

  ghost predicate HasAdmin(rows: Rows) {
    exists k :: k in rows && rows[k].Row? && EnabledAdmin(rows[k].value)
  }

  lemma PutKeepsAdmin(rows: Rows, u: User, now: Time, k: string)
    requires k == Normalize(u.email)
    ensures HasAdmin(Upserted(rows, u, now)) <==>
      EnabledAdmin(u) || exists o :: o != k && o in rows && rows[o].Row? && EnabledAdmin(rows[o].value)
  {
    var rows' := Upserted(rows, u, now);
    if EnabledAdmin(u) {
      assert rows'[k].Row? && EnabledAdmin(rows'[k].value);
    }
    forall o | o != k && o in rows && rows[o].Row? && EnabledAdmin(rows[o].value) ensures HasAdmin(rows') {
      assert o in rows' && rows'[o] == rows[o];
    }
  }

  /** Another enabled admin is one under another key. */
  lemma OtherIsElsewhere(rows: Rows, k: string)
    requires Keyed(rows)
    ensures OtherAdmins(rows, k) != {} <==> exists o :: o != k && o in rows && rows[o].Row? && EnabledAdmin(rows[o].value)
  {
    forall o | o != k && o in rows && rows[o].Row? && EnabledAdmin(rows[o].value) ensures OtherAdmins(rows, k) != {} {
      assert o in OtherAdmins(rows, k);
    }
    if OtherAdmins(rows, k) != {} {
      var o :| o in OtherAdmins(rows, k);
    }
  }

  // ---- Writes that leave role, state and address alone ----

  /** What the guard and the pin look at. */
  datatype Standing = Standing(role: Role, enabled: bool, pinned: bool)

  function StandingOf(u: User): Standing {
    Standing(u.role, u.enabled, u.pinned)
  }

  ghost predicate Holding(rows: Rows, k: string, st: Standing) {
    k in rows && rows[k].Row? && StandingOf(rows[k].value) == st
  }

  ghost predicate SteadyWrites(writes: seq<Write>, k: string, st: Standing) {
    forall i :: 0 <= i < |writes| ==>
      writes[i].Put? && Normalize(writes[i].user.email) == k && StandingOf(writes[i].user) == st
  }

  lemma {:induction false} SteadyKeeps(rows: Rows, writes: seq<Write>, i: nat, env: Env, k: string, st: Standing)
    requires HasAdmin(rows) && Keyed(rows) && k != "" && env.now != ZERO_TIME
    requires Holding(rows, k, st) && SteadyWrites(writes, k, st)
    ensures HasAdmin(Perform(rows, writes, i, env)) && Keyed(Perform(rows, writes, i, env))
    decreases |writes|
  {
    if writes != [] {
      var u, rest := writes[0].user, writes[1..];
      assert SteadyWrites(rest, k, st);
      if T.Lands(writes[0], env.commits(i)) {
        var rows' := Upserted(rows, u, env.now);
        UpsertKeeps(rows, u, env.now);
        PutKeepsAdmin(rows, u, env.now, k);
        hide Upserted;
        assert Holding(rows', k, st) by { HoldingAfter(rows, u, env.now, k); }
        SteadyKeeps(rows', rest, i + 1, env, k, st);
      } else if !writes[0].vital {
        SteadyKeeps(rows, rest, i + 1, env, k, st);
      }
    }
  }

  lemma HoldingAfter(rows: Rows, u: User, now: Time, k: string)
    requires k == Normalize(u.email)
    ensures Holding(Upserted(rows, u, now), k, StandingOf(u))
  {
  }

  predicate Steady(job: Job) {
    (ForSelf(job) && !job.ChangeEmail?) || job.Login? || job.PasskeyUse? || job.CliResetPassword?
  }

  lemma SteadyPlans(w: World, job: Job, f: Findings, k: string)
    requires Steady(job) && f.found.Ok? && PlanFor(w, job, f).Ok?
    requires f.found.value.Some? ==> Normalize(f.found.value.value.email) == k
    ensures PlanFor(w, job, f).value != [] ==> f.found.value.Some?
    ensures f.found.value.Some? ==> SteadyWrites(PlanFor(w, job, f).value, k, StandingOf(f.found.value.value))
  {
    hide Normalize, TrimSpace;
  }

  // ---- The lockout guard ----

  /** Everything a signed-in user and the admin console can ask for, signing in with a password or a passkey, and booting. */
  predicate Console(job: Job) {
    Steady(job) || job.ChangeEmail? || job.AdminCreate? || job.AdminUpdate? || job.AdminDelete? || job.Bootstrap?
  }

  lemma SteadyServed(w: World, rows: Rows, job: Job, env: Env)
    requires Steady(job) && Keyed(rows) && HasAdmin(rows) && env.now != ZERO_TIME
    ensures HasAdmin(Served(w, rows, job, env)) && Keyed(Served(w, rows, job, env))
  {
    var f := Look(rows, job, env);
    if PlanFor(w, job, f).Ok? && PlanFor(w, job, f).value != [] {
      var k := Normalize(job.who);
      NormalizeTwice(job.who);
      SteadyPlans(w, job, f, k);
      hide PlanFor, Normalize;
      var u := f.found.value.value;
      SteadyKeeps(rows, PlanFor(w, job, f).value, 0, env, k, StandingOf(u));
    }
  }

  /** A new record under a key of its own changes nothing for the others. */
  lemma NewKeeps(rows: Rows, u: User, now: Time)
    requires HasAdmin(rows) && Keyed(rows) && Normalize(u.email) !in rows && Normalize(u.email) != "" && now != ZERO_TIME
    ensures HasAdmin(Upserted(rows, u, now)) && Keyed(Upserted(rows, u, now))
  {
    UpsertKeeps(rows, u, now);
    PutKeepsAdmin(rows, u, now, Normalize(u.email));
  }

  lemma RemoveKeeps(rows: Rows, k: string)
    requires Keyed(rows) && (exists o :: o != k && o in rows && rows[o].Row? && EnabledAdmin(rows[o].value))
    ensures HasAdmin(rows - {k}) && Keyed(rows - {k})
  {
    var o :| o != k && o in rows && rows[o].Row? && EnabledAdmin(rows[o].value);
    assert o in rows - {k};
  }

  lemma CreatePlanned(w: World, job: Job, f: Findings)
    requires (job.AdminCreate? || job.Bootstrap?) && PlanFor(w, job, f).Ok? && PlanFor(w, job, f).value != []
    ensures f.found == Ok(None) && Normalize(job.who) != ""
    ensures exists u :: PlanFor(w, job, f) == Ok([Put(u, true)]) && u.email == Normalize(job.who)
  {
    var u := PlanFor(w, job, f).value[0].user;
    assert PlanFor(w, job, f) == Ok([Put(u, true)]);
  }

  lemma CreateServed(w: World, rows: Rows, job: Job, env: Env)
    requires (job.AdminCreate? || job.Bootstrap?) && Keyed(rows) && HasAdmin(rows) && env.now != ZERO_TIME
    ensures HasAdmin(Served(w, rows, job, env)) && Keyed(Served(w, rows, job, env))
  {
    var f := Look(rows, job, env);
    if PlanFor(w, job, f).Err? || PlanFor(w, job, f).value == [] {
      NothingServed(w, rows, job, env);
    } else {
      CreatePlanned(w, job, f);
      NormalizeTwice(job.who);
      var u :| PlanFor(w, job, f) == Ok([Put(u, true)]) && u.email == Normalize(job.who);
      OnePut(w, rows, job, env, u);
      NewKeeps(rows, u, env.now);
      hide PlanFor, Upserted, Normalize, Served;
    }
  }

  lemma UpdatePlanned(w: World, job: Job, f: Findings)
    requires job.AdminUpdate? && PlanFor(w, job, f).Ok?
    ensures f.found.Ok? && f.found.value.Some?
    ensures var u := f.found.value.value;
      exists next :: PlanFor(w, job, f) == Ok([Put(next, true)]) && next.email == u.email && next.createdAt == u.createdAt
        && (EnabledAdmin(u) && !EnabledAdmin(next) ==> f.others.Ok? && f.others.value > 0)
  {
    hide ParseRole, TrimSpace;
    var next := PlanFor(w, job, f).value[0].user;
    assert PlanFor(w, job, f) == Ok([Put(next, true)]);
  }

  /** Whatever becomes of one record, the admins are fine if it stays one, was none, or another one is there. */
  lemma UpdateServed(w: World, rows: Rows, job: Job, env: Env)
    requires job.AdminUpdate? && Keyed(rows) && HasAdmin(rows) && env.now != ZERO_TIME
    ensures HasAdmin(Served(w, rows, job, env)) && Keyed(Served(w, rows, job, env))
  {
    var f := Look(rows, job, env);
    if PlanFor(w, job, f).Err? {
      NothingServed(w, rows, job, env);
    } else {
      UpdatePlanned(w, job, f);
      var u := f.found.value.value;
      var next :| PlanFor(w, job, f) == Ok([Put(next, true)]) && next.email == u.email
        && (EnabledAdmin(u) && !EnabledAdmin(next) ==> f.others.Ok? && f.others.value > 0);
      OnePut(w, rows, job, env, next);
      OtherIsElsewhere(rows, u.email);
      UpsertKeeps(rows, next, env.now);
      PutKeepsAdmin(rows, next, env.now, u.email);
      hide PlanFor, Upserted, Normalize, Served;
    }
  }

  lemma DeletePlanned(w: World, job: Job, f: Findings)
    requires job.AdminDelete? && PlanFor(w, job, f).Ok?
    ensures f.found.Ok? && f.found.value.Some? && PlanFor(w, job, f) == Ok([Remove(job.who, true)])
    ensures EnabledAdmin(f.found.value.value) ==> f.others.Ok? && f.others.value > 0
  {
  }

  lemma DeleteServed(w: World, rows: Rows, job: Job, env: Env)
    requires job.AdminDelete? && Keyed(rows) && HasAdmin(rows) && env.now != ZERO_TIME
    ensures HasAdmin(Served(w, rows, job, env)) && Keyed(Served(w, rows, job, env))
  {
    var f := Look(rows, job, env);
    if PlanFor(w, job, f).Err? {
      NothingServed(w, rows, job, env);
    } else {
      DeletePlanned(w, job, f);
      OneRemove(w, rows, job, env, job.who);
      var u := f.found.value.value;
      assert u.email == Normalize(job.who);
      OtherIsElsewhere(rows, u.email);
      hide PlanFor, Normalize, Served;
      RemoveKeeps(rows, u.email);
    }
  }

  /** Re-keying writes the new record before it takes the old one away, so the admin is there throughout. */
  lemma MoveServed(w: World, rows: Rows, job: Job, env: Env)
    requires job.ChangeEmail? && Keyed(rows) && HasAdmin(rows) && env.now != ZERO_TIME
    ensures HasAdmin(Served(w, rows, job, env)) && Keyed(Served(w, rows, job, env))
  {
    var f := Look(rows, job, env);
    NormalizeTwice(job.newEmail);
    if PlanFor(w, job, f).Ok? && PlanFor(w, job, f).value != [] {
      var u := f.found.value.value;
      var moved := u.(email := Normalize(job.newEmail));
      assert PlanFor(w, job, f).value == [Put(moved, true), Remove(u.email, false)];
      MoveWrites(rows, u, moved, env);
    }
  }

  lemma MoveWrites(rows: Rows, u: User, moved: User, env: Env)
    requires Keyed(rows) && HasAdmin(rows) && env.now != ZERO_TIME
    requires u.email in rows && rows[u.email] == Row(u) && moved.email !in rows && moved.email != ""
    requires moved == u.(email := moved.email) && Normalize(moved.email) == moved.email
    ensures HasAdmin(Perform(rows, [Put(moved, true), Remove(u.email, false)], 0, env))
    ensures Keyed(Perform(rows, [Put(moved, true), Remove(u.email, false)], 0, env))
  {
    var writes := [Put(moved, true), Remove(u.email, false)];
    assert writes[1..] == [Remove(u.email, false)];
    if env.commits(0) {
      var rows1 := Upserted(rows, moved, env.now);
      NewKeeps(rows, moved, env.now);
      if EnabledAdmin(u) {
        assert EnabledAdmin(rows1[moved.email].value);
      } else {
        var o :| o in rows && rows[o].Row? && EnabledAdmin(rows[o].value);
        assert o != u.email && o in rows1 && rows1[o] == rows[o];
      }
      RemoveKeeps(rows1, u.email);
      assert Perform(rows, writes, 0, env) == Perform(rows1, [Remove(u.email, false)], 1, env);
      assert Perform(rows1, [Remove(u.email, false)], 1, env) == (if env.commits(1) then rows1 - {u.email} else rows1);
    }
  }

  lemma ConsoleServed(w: World, rows: Rows, job: Job, env: Env)
    requires Console(job) && Keyed(rows) && HasAdmin(rows) && env.now != ZERO_TIME
    ensures HasAdmin(Served(w, rows, job, env)) && Keyed(Served(w, rows, job, env))
  {
    hide Served, Keyed, HasAdmin;
    if Steady(job) { SteadyServed(w, rows, job, env); }
    else if job.ChangeEmail? { MoveServed(w, rows, job, env); }
    else if job.AdminUpdate? { UpdateServed(w, rows, job, env); }
    else if job.AdminDelete? { DeleteServed(w, rows, job, env); }
    else { CreateServed(w, rows, job, env); }
  }

  lemma OneServed(w: World, states: seq<Rows>, reqs: Requests, i: nat)
    requires History(w, states, reqs) && i < |reqs| && Console(reqs[i].0)
    requires Keyed(states[i]) && HasAdmin(states[i])
    ensures Keyed(states[i + 1]) && HasAdmin(states[i + 1])
  {
    hide HasAdmin, Keyed, Served, Console;
    assert ServedAt(w, states, reqs, i);
    ConsoleServed(w, states[i], reqs[i].0, reqs[i].1);
  }

  /** No run of requests, whatever is asked and whichever transactions fail, locks the last enabled admin out. */
  lemma {:induction false} NeverLockedOut(w: World, states: seq<Rows>, reqs: Requests, i: nat)
    requires History(w, states, reqs) && i < |states|
    requires forall k :: 0 <= k < |reqs| ==> Console(reqs[k].0)
    requires Keyed(states[0]) && HasAdmin(states[0])
    ensures Keyed(states[i]) && HasAdmin(states[i])
    decreases i
  {
    if i > 0 {
      hide HasAdmin, Keyed, Console, ServedAt;
      NeverLockedOut(w, states, reqs, i - 1);
      OneServed(w, states, reqs, i - 1);
    }
  }

  // ---- Where the guard does not reach ----

  /**
   A sign-on through an identity provider applies the role its groups give. It leaves an enabled admin exactly if
   it makes or keeps this user one, or another one is there.
   */
  lemma SignOnKeepsAdmin(w: World, rows: Rows, job: Job, env: Env)
    requires job.Provision? && Keyed(rows) && HasAdmin(rows) && env.gets && env.commits(0) && Normalize(job.who) != ""
    requires PlanFor(w, job, Look(rows, job, env)).Ok?
    ensures HasAdmin(Served(w, rows, job, env)) <==>
      || job.pinned || job.granted == Some(Admin)
      || (Found(rows, job.who).value.Some? && Found(rows, job.who).value.value.pinned)
      || OtherAdmins(rows, Normalize(job.who)) != {}
  {
    var f := Look(rows, job, env);
    var u := PlanFor(w, job, f).value[0].user;
    NormalizeTwice(job.who);
    assert PlanFor(w, job, f) == Ok([Put(u, true)]) && u.email == Normalize(job.who) && u.enabled;
    OnePut(w, rows, job, env, u);
    PutKeepsAdmin(rows, u, env.now, Normalize(job.who));
    OtherIsElsewhere(rows, Normalize(job.who));
  }

  /** The command line counts disabled admins too, so what it lets pass leaves an enabled one only if one is left. */
  lemma SetRoleKeepsAdmin(w: World, rows: Rows, job: Job, env: Env)
    requires job.CliSetRole? && Keyed(rows) && HasAdmin(rows) && env.commits(0)
    requires PlanFor(w, job, Look(rows, job, env)).Ok?
    ensures HasAdmin(Served(w, rows, job, env)) <==>
      (job.role == Admin && Found(rows, job.who).value.value.enabled) || OtherAdmins(rows, Normalize(job.who)) != {}
  {
    var f := Look(rows, job, env);
    var u := PlanFor(w, job, f).value[0].user;
    NormalizeTwice(job.who);
    assert PlanFor(w, job, f) == Ok([Put(u, true)]) && u.email == Normalize(job.who);
    OnePut(w, rows, job, env, u);
    PutKeepsAdmin(rows, u, env.now, Normalize(job.who));
    OtherIsElsewhere(rows, Normalize(job.who));
  }

  /** A deletion from the command line leaves an enabled admin exactly if another one is there. */
  lemma CliDeleteKeepsAdmin(w: World, rows: Rows, job: Job, env: Env)
    requires job.CliDelete? && Keyed(rows) && HasAdmin(rows) && env.commits(0)
    requires PlanFor(w, job, Look(rows, job, env)).Ok?
    ensures HasAdmin(Served(w, rows, job, env)) <==> OtherAdmins(rows, Normalize(job.who)) != {}
  {
    var k := Normalize(job.who);
    assert PlanFor(w, job, Look(rows, job, env)) == Ok([Remove(job.who, true)]);
    OneRemove(w, rows, job, env, job.who);
    OtherIsElsewhere(rows, k);
    hide PlanFor, Served, Normalize, Look;
    if OtherAdmins(rows, k) != {} {
      RemoveKeeps(rows, k);
    }
  }

  /** Creating from the command line has no guard: over an existing record it leaves an enabled admin exactly if it makes one or another is there. */
  lemma CliCreateKeepsAdmin(w: World, rows: Rows, job: Job, env: Env)
    requires job.CliCreate? && Keyed(rows) && HasAdmin(rows) && env.commits(0)
    requires PlanFor(w, job, Look(rows, job, env)).Ok?
    ensures HasAdmin(Served(w, rows, job, env)) <==> job.role == Admin || OtherAdmins(rows, Normalize(job.who)) != {}
  {
    var f := Look(rows, job, env);
    var u := PlanFor(w, job, f).value[0].user;
    NormalizeTwice(job.who);
    assert PlanFor(w, job, f) == Ok([Put(u, true)]) && u.email == Normalize(job.who) && u.enabled && u.role == job.role;
    OnePut(w, rows, job, env, u);
    PutKeepsAdmin(rows, u, env.now, Normalize(job.who));
    OtherIsElsewhere(rows, Normalize(job.who));
  }

  // ---- Pinned users ----

  predicate PinnedAdmin(rows: Rows, k: string) {
    k in rows && rows[k].Row? && rows[k].value.pinned && rows[k].value.role == Admin
  }

  lemma PinnedServed(w: World, rows: Rows, job: Job, env: Env, k: string)
    requires job.Provision? && Keyed(rows) && env.now != ZERO_TIME
    requires k in rows && rows[k].Row? && rows[k].value.pinned
    ensures var rows' := Served(w, rows, job, env);
      && Keyed(rows') && k in rows' && rows'[k].Row? && rows'[k].value.pinned
      && (rows[k].value.role == Admin ==> rows'[k].value.role == Admin)
      && (rows' != rows && Normalize(job.who) == k ==> rows'[k].value.role == Admin)
  {
    var f := Look(rows, job, env);
    if PlanFor(w, job, f).Err? {
      NothingServed(w, rows, job, env);
    } else {
      var u := PlanFor(w, job, f).value[0].user;
      NormalizeTwice(job.who);
      assert PlanFor(w, job, f) == Ok([Put(u, true)]) && u.email == Normalize(job.who);
      OnePut(w, rows, job, env, u);
      if Normalize(job.who) != "" { UpsertKeeps(rows, u, env.now); }
    }
  }

  /** Signing in with a password or a passkey, and all a user does for himself at one address, leave the pin and the role. */
  lemma {:induction false} PinnedPerform(rows: Rows, writes: seq<Write>, i: nat, env: Env, at: string, st: Standing, k: string)
    requires PinnedAdmin(rows, k) && Holding(rows, at, st) && SteadyWrites(writes, at, st)
    ensures PinnedAdmin(Perform(rows, writes, i, env), k)
    decreases |writes|
  {
    if writes != [] {
      var rest := writes[1..];
      assert SteadyWrites(rest, at, st);
      if T.Lands(writes[0], env.commits(i)) {
        PinnedPerform(Upserted(rows, writes[0].user, env.now), rest, i + 1, env, at, st, k);
      } else if !writes[0].vital {
        PinnedPerform(rows, rest, i + 1, env, at, st, k);
      }
    }
  }

  lemma PinnedSteady(w: World, rows: Rows, job: Job, env: Env, k: string)
    requires Steady(job) && Keyed(rows) && env.now != ZERO_TIME && PinnedAdmin(rows, k)
    ensures Keyed(Served(w, rows, job, env)) && PinnedAdmin(Served(w, rows, job, env), k)
  {
    var f := Look(rows, job, env);
    if PlanFor(w, job, f).Ok? {
      var at := Normalize(job.who);
      NormalizeTwice(job.who);
      PerformKeyed(rows, PlanFor(w, job, f).value, 0, env);
      SteadyPlans(w, job, f, at);
      hide PlanFor, Normalize, Keyed;
      if PlanFor(w, job, f).value != [] {
        PinnedPerform(rows, PlanFor(w, job, f).value, 0, env, at, StandingOf(f.found.value.value), k);
      }
    }
  }

  /** Signing in, in whatever way, and what a user does for himself short of changing his address. */
  predicate SignIn(job: Job) {
    job.Provision? || Steady(job)
  }

  lemma OneSignOn(w: World, states: seq<Rows>, reqs: Requests, k: string, i: nat)
    requires History(w, states, reqs) && i < |reqs| && SignIn(reqs[i].0)
    requires Keyed(states[i]) && PinnedAdmin(states[i], k)
    ensures Keyed(states[i + 1]) && PinnedAdmin(states[i + 1], k)
  {
    hide Keyed, Served;
    assert ServedAt(w, states, reqs, i);
    if reqs[i].0.Provision? {
      PinnedServed(w, states[i], reqs[i].0, reqs[i].1, k);
    } else {
      hide PinnedAdmin;
      PinnedSteady(w, states[i], reqs[i].0, reqs[i].1, k);
    }
  }

  /** No run of sign-ins, of whomever, by whatever way and with whatever groups, takes a pinned admin's role. */
  lemma {:induction false} PinnedStaysAdmin(w: World, states: seq<Rows>, reqs: Requests, k: string, i: nat)
    requires History(w, states, reqs) && i < |states|
    requires forall j :: 0 <= j < |reqs| ==> SignIn(reqs[j].0)
    requires Keyed(states[0]) && PinnedAdmin(states[0], k)
    ensures Keyed(states[i]) && PinnedAdmin(states[i], k)
    decreases i
  {
    if i > 0 {
      hide Keyed, PinnedAdmin, ServedAt;
      PinnedStaysAdmin(w, states, reqs, k, i - 1);
      OneSignOn(w, states, reqs, k, i - 1);
    }
  }

  // ---- The age of an account ----

  ghost predicate Alive(rows: Rows, k: string) {
    k in rows && rows[k].Row?
  }

  /** What is removed in a plan is not written again in it. */
  ghost predicate Ordered(writes: seq<Write>) {
    forall i, j :: 0 <= i < j < |writes| && writes[i].Remove? ==> writes[j].Remove?
  }

  lemma PlansOrdered(w: World, job: Job, f: Findings)
    requires PlanFor(w, job, f).Ok?
    ensures Ordered(PlanFor(w, job, f).value)
  {
    hide TrimSpace, Normalize, ParseRole, Accepts, Consumed;
  }

  lemma {:induction false} RemovesOnly(rows: Rows, writes: seq<Write>, i: nat, env: Env)
    requires forall j :: 0 <= j < |writes| ==> writes[j].Remove?
    ensures Perform(rows, writes, i, env).Keys <= rows.Keys
    decreases |writes|
  {
    if writes != [] {
      RemovesOnly(if env.commits(i) then T.Written(rows, writes[0], env.now) else rows, writes[1..], i + 1, env);
    }
  }

  lemma {:induction false} PerformAge(rows: Rows, writes: seq<Write>, i: nat, env: Env, k: string)
    requires Keyed(rows) && Alive(rows, k) && Ordered(writes) && env.now != ZERO_TIME
    ensures var rows' := Perform(rows, writes, i, env);
      Keyed(rows') && (k in rows' ==> Alive(rows', k) && rows'[k].value.createdAt == rows[k].value.createdAt)
    decreases |writes|
  {
    if writes != [] {
      var write, rest := writes[0], writes[1..];
      assert Ordered(rest);
      if T.Lands(write, env.commits(i)) {
        var rows1 := T.Written(rows, write, env.now);
        if write.Put? { UpsertKeeps(rows, write.user, env.now); }
        if k in rows1 {
          PerformAge(rows1, rest, i + 1, env, k);
        } else {
          assert forall j :: 0 <= j < |rest| ==> rest[j] == writes[j + 1];
          RemovesOnly(rows1, rest, i + 1, env);
          PerformKeyed(rows1, rest, i + 1, env);
        }
      } else if !write.vital {
        PerformAge(rows, rest, i + 1, env, k);
      }
    }
  }

  lemma {:induction false} PerformKeyed(rows: Rows, writes: seq<Write>, i: nat, env: Env)
    requires Keyed(rows) && env.now != ZERO_TIME
    ensures Keyed(Perform(rows, writes, i, env))
    decreases |writes|
  {
    if writes != [] {
      if T.Lands(writes[0], env.commits(i)) {
        if writes[0].Put? { UpsertKeeps(rows, writes[0].user, env.now); }
        PerformKeyed(T.Written(rows, writes[0], env.now), writes[1..], i + 1, env);
      } else if !writes[0].vital {
        PerformKeyed(rows, writes[1..], i + 1, env);
      }
    }
  }

  /** Whether a request re-keys the account that lies under `k`. */
  predicate Rekeys(w: World, rows: Rows, job: Job, env: Env, k: string) {
    && job.ChangeEmail? && Normalize(job.who) == k && env.commits(0)
    && var plan := PlanFor(w, job, Look(rows, job, env)); plan.Ok? && plan.value != []
  }

  function KeyThen(w: World, rows: Rows, job: Job, env: Env, k: string): string {
    if Rekeys(w, rows, job, env, k) then Normalize(job.newEmail) else k
  }

  lemma ServedAge(w: World, rows: Rows, job: Job, env: Env, k: string)
    requires Keyed(rows) && Alive(rows, k) && env.now != ZERO_TIME
    ensures var rows', k' := Served(w, rows, job, env), KeyThen(w, rows, job, env, k);
      Keyed(rows') && (k' in rows' ==> Alive(rows', k') && rows'[k'].value.createdAt == rows[k].value.createdAt)
  {
    var plan := PlanFor(w, job, Look(rows, job, env));
    if plan.Ok? {
      PlansOrdered(w, job, Look(rows, job, env));
      if Rekeys(w, rows, job, env, k) {
        RekeyAge(w, rows, job, env, k);
      } else {
        hide PlanFor, Perform, Keyed;
        PerformAge(rows, plan.value, 0, env, k);
      }
    }
  }

  lemma RekeyAge(w: World, rows: Rows, job: Job, env: Env, k: string)
    requires Keyed(rows) && Alive(rows, k) && env.now != ZERO_TIME && Rekeys(w, rows, job, env, k)
    ensures var rows', k' := Served(w, rows, job, env), Normalize(job.newEmail);
      Keyed(rows') && Alive(rows', k') && rows'[k'].value.createdAt == rows[k].value.createdAt
  {
    var f := Look(rows, job, env);
    var u := rows[k].value;
    var moved := u.(email := Normalize(job.newEmail));
    NormalizeTwice(job.newEmail);
    assert f.found == Ok(Some(u));
    assert PlanFor(w, job, f).value == [Put(moved, true), Remove(k, false)];
    hide PlanFor;
    UpsertKeeps(rows, moved, env.now);
    MovePerformed(rows, moved, k, env);
  }

  lemma MovePerformed(rows: Rows, moved: User, k: string, env: Env)
    requires env.commits(0) && Normalize(moved.email) != ""
    ensures var rows1 := Upserted(rows, moved, env.now);
      Perform(rows, [Put(moved, true), Remove(k, false)], 0, env) == if env.commits(1) then rows1 - {Normalize(k)} else rows1
  {
    hide Normalize, Upserted;
    var writes := [Put(moved, true), Remove(k, false)];
    var rows1 := Upserted(rows, moved, env.now);
    assert writes[1..] == [Remove(k, false)] && writes[1..][1..] == [];
    assert Perform(rows, writes, 0, env) == Perform(rows1, [Remove(k, false)], 1, env);
    assert Perform(rows1 - {Normalize(k)}, [], 2, env) == rows1 - {Normalize(k)} && Perform(rows1, [], 2, env) == rows1;
  }

  /** The key of one account through a history that never deletes it, wherever its address takes it. */
  ghost predicate Tracks(w: World, states: seq<Rows>, reqs: Requests, keys: seq<string>) {
    && |states| == |reqs| + 1 == |keys|
    && (forall i :: 0 <= i < |keys| ==> keys[i] in states[i])
    && (forall i :: 0 <= i < |reqs| ==> TracksAt(w, states, reqs, keys, i))
  }

  ghost predicate TracksAt(w: World, states: seq<Rows>, reqs: Requests, keys: seq<string>, i: nat)
    requires |states| == |reqs| + 1 == |keys| && i < |reqs|
  {
    keys[i + 1] == KeyThen(w, states[i], reqs[i].0, reqs[i].1, keys[i])
  }

  lemma OneAge(w: World, states: seq<Rows>, reqs: Requests, keys: seq<string>, i: nat)
    requires History(w, states, reqs) && Tracks(w, states, reqs, keys) && i < |reqs|
    requires Keyed(states[i]) && Alive(states[i], keys[i])
    ensures Keyed(states[i + 1]) && Alive(states[i + 1], keys[i + 1])
    ensures states[i + 1][keys[i + 1]].value.createdAt == states[i][keys[i]].value.createdAt
  {
    hide Keyed, Served, KeyThen;
    assert ServedAt(w, states, reqs, i) && TracksAt(w, states, reqs, keys, i);
    ServedAge(w, states[i], reqs[i].0, reqs[i].1, keys[i]);
  }

  /** Through every run of requests, commands and sign-ons, an account keeps the time it was created. */
  lemma {:induction false} CreatedOnce(w: World, states: seq<Rows>, reqs: Requests, keys: seq<string>, i: nat)
    requires History(w, states, reqs) && Tracks(w, states, reqs, keys) && i < |states|
    requires Keyed(states[0]) && Alive(states[0], keys[0])
    ensures Keyed(states[i]) && Alive(states[i], keys[i])
    ensures states[i][keys[i]].value.createdAt == states[0][keys[0]].value.createdAt
    decreases i
  {
    if i > 0 {
      hide Keyed, ServedAt, TracksAt;
      CreatedOnce(w, states, reqs, keys, i - 1);
      OneAge(w, states, reqs, keys, i - 1);
    }
  }
}
