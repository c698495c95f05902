/**
 What every request does, in terms of the record it is about: when it succeeds, and which fields of which record
 then have which values. Nothing here names a plan or the functions that plans are made of.
 */
module Deeds {
  import opened Records
  import opened Text
  import opened Recovery
  import opened Users
  import opened Accounts
  import opened Lockout
  import I = SignIns
  import T = TwoFactor

  /** The answer: a refusal, an error where a write that matters failed, or success. */
  function Outcome(w: World, rows: Rows, job: Job, env: Env): Result<()> {
    match PlanFor(w, job, Look(rows, job, env))
    case Err(e) => Err(e)
    case Ok(writes) => if Failing(writes, 0, env) then Err("internal error") else Ok(())
  }

  predicate Failing(writes: seq<Write>, i: nat, env: Env)
    decreases |writes|
  {
    writes != [] && ((writes[0].vital && !T.Lands(writes[0], env.commits(i))) || Failing(writes[1..], i + 1, env))
  }

  lemma Refused(w: World, rows: Rows, job: Job, env: Env, e: string)
    requires PlanFor(w, job, Look(rows, job, env)) == Err(e)
    ensures Served(w, rows, job, env) == rows && Outcome(w, rows, job, env) == Err(e)
  {
  }

  lemma Idle(w: World, rows: Rows, job: Job, env: Env)
    requires PlanFor(w, job, Look(rows, job, env)) == Ok([])
    ensures Served(w, rows, job, env) == rows && Outcome(w, rows, job, env) == Ok(())
  {
  }

  lemma Saved(w: World, rows: Rows, job: Job, env: Env, u: User, vital: bool)
    requires PlanFor(w, job, Look(rows, job, env)) == Ok([Put(u, vital)])
    ensures var lands := env.commits(0) && Normalize(u.email) != "";
      && Served(w, rows, job, env) == (if lands then Upserted(rows, u, env.now) else rows)
      && Outcome(w, rows, job, env) == if vital && !lands then Err("internal error") else Ok(())
  {
    hide PlanFor, Look, Upserted, Normalize;
    var writes: seq<Write> := [Put(u, vital)];
    assert writes[0] == Put(u, vital) && writes[1..] == [] && !Failing(writes[1..], 1, env);
    assert Perform(Upserted(rows, u, env.now), [], 1, env) == Upserted(rows, u, env.now);
    assert Perform(rows, [], 1, env) == rows;
  }

  lemma SavedTwice(w: World, rows: Rows, job: Job, env: Env, u: User, v: User)
    requires PlanFor(w, job, Look(rows, job, env)) == Ok([Put(u, false), Put(v, false)])
    ensures Outcome(w, rows, job, env) == Ok(())
    ensures var rows1 := if T.Lands(Put(u, false), env.commits(0)) then Upserted(rows, u, env.now) else rows;
      Served(w, rows, job, env) == if T.Lands(Put(v, false), env.commits(1)) then Upserted(rows1, v, env.now) else rows1
  {
    I.TwoPuts(w, rows, job, env, u, v);
    hide PlanFor, Look, Served, Upserted, Normalize;
    var writes: seq<Write> := [Put(u, false), Put(v, false)];
    assert writes[1..] == [Put(v, false)] && writes[1..][1..] == [];
    assert !Failing(writes[1..], 1, env);
  }

  lemma Rekeyed(w: World, rows: Rows, job: Job, env: Env, u: User, from: string)
    requires PlanFor(w, job, Look(rows, job, env)) == Ok([Put(u, true), Remove(from, false)])
    ensures var lands := T.Lands(Put(u, true), env.commits(0));
      && Outcome(w, rows, job, env) == (if lands then Ok(()) else Err("internal error"))
      && var rows1 := Upserted(rows, u, env.now);
         Served(w, rows, job, env) == if !lands then rows else if env.commits(1) then rows1 - {Normalize(from)} else rows1
  {
    hide PlanFor, Look, Upserted, Normalize;
    var writes: seq<Write> := [Put(u, true), Remove(from, false)];
    assert writes[1..] == [Remove(from, false)] && writes[1..][1..] == [];
    var rows1 := Upserted(rows, u, env.now);
    if T.Lands(Put(u, true), env.commits(0)) {
      assert Perform(rows, writes, 0, env) == Perform(rows1, [Remove(from, false)], 1, env);
      assert Perform(rows1 - {Normalize(from)}, [], 2, env) == rows1 - {Normalize(from)} && Perform(rows1, [], 2, env) == rows1;
      assert !Failing(writes[1..], 1, env);
    }
  }

  lemma Removed(w: World, rows: Rows, job: Job, env: Env, who: string)
    requires PlanFor(w, job, Look(rows, job, env)) == Ok([Remove(who, true)])
    ensures Served(w, rows, job, env) == (if env.commits(0) then rows - {Normalize(who)} else rows)
    ensures Outcome(w, rows, job, env) == if env.commits(0) then Ok(()) else Err("internal error")
  {
    OneRemove(w, rows, job, env, who);
    var writes: seq<Write> := [Remove(who, true)];
    assert writes[1..] == [] && !Failing(writes[1..], 1, env);
  }

  // ---- One record is rewritten ----

  lemma KeepsKey(rows: Rows, k: string, p: User, q: User, now: Time)
    requires Keyed(rows) && k in rows && rows[k] == Row(p) && q.email == p.email && q.createdAt == p.createdAt
    ensures k == p.email == Normalize(q.email) != ""
    ensures Upserted(rows, q, now) == rows[k := Row(q.(updatedAt := now))]
  {
  }

  lemma Rewrites(w: World, rows: Rows, job: Job, env: Env, k: string, p: User, q: User)
    requires Keyed(rows) && k in rows && rows[k] == Row(p) && q.email == p.email && q.createdAt == p.createdAt
    requires PlanFor(w, job, Look(rows, job, env)) == Ok([Put(q, true)])
    ensures Outcome(w, rows, job, env).Ok? <==> env.commits(0)
    ensures Served(w, rows, job, env) == if env.commits(0) then rows[k := Row(q.(updatedAt := env.now))] else rows
  {
    Saved(w, rows, job, env, q, true);
    KeepsKey(rows, k, p, q, env.now);
    hide PlanFor, Look, Served, Outcome, Upserted, Normalize;
  }

  /** Nobody is found who could be asked: the record is not there, or it cannot be read. */
  lemma NobodyFound(w: World, rows: Rows, job: Job, env: Env)
    requires !job.AdminCreate? && !job.Provision? && !job.CliCreate? && !job.Bootstrap?
    requires !env.gets || Normalize(job.who) !in rows || rows[Normalize(job.who)].Undecodable?
    ensures Outcome(w, rows, job, env).Err? && Served(w, rows, job, env) == rows
  {
    var plan := PlanFor(w, job, Look(rows, job, env));
    Refused(w, rows, job, env, plan.error);
    hide Served, Outcome, Normalize;
  }

  /** Enrolment starts for the right password, where two-factor is off. */
  lemma SetupDone(w: World, rows: Rows, job: Job, env: Env, p: User)
    requires job.Setup? && Keyed(rows) && env.gets && Normalize(job.who) in rows && rows[Normalize(job.who)] == Row(p)
    ensures Outcome(w, rows, job, env).Ok? <==>
      p.enabled && p.passwordHash != "" && w.suits(p.passwordHash, job.password) && !p.totpEnabled && env.commits(0)
    ensures Served(w, rows, job, env) ==
      if Outcome(w, rows, job, env).Ok? then rows[Normalize(job.who) := Row(p.(totpSecret := job.sealed, updatedAt := env.now))] else rows
  {
    var plan := PlanFor(w, job, Look(rows, job, env));
    if plan.Ok? {
      Rewrites(w, rows, job, env, Normalize(job.who), p, p.(totpSecret := job.sealed));
    } else {
      Refused(w, rows, job, env, plan.error);
    }
    hide Served, Outcome, Normalize, TrimSpace;
  }

  /** It ends with a code that is valid for the pending secret. */
  lemma ConfirmDone(w: World, rows: Rows, job: Job, env: Env, p: User)
    requires job.Confirm? && Keyed(rows) && env.gets && Normalize(job.who) in rows && rows[Normalize(job.who)] == Row(p)
    ensures Outcome(w, rows, job, env).Ok? <==>
      p.enabled && !p.totpEnabled && p.totpSecret != "" && w.unseal(p.totpSecret).Some?
      && w.valid(TrimSpace(job.code), w.unseal(p.totpSecret).value, job.at) && env.commits(0)
    ensures Served(w, rows, job, env) ==
      if Outcome(w, rows, job, env).Ok? then rows[Normalize(job.who) := Row(p.(totpEnabled := true, recovery := job.hashes, updatedAt := env.now))] else rows
  {
    var plan := PlanFor(w, job, Look(rows, job, env));
    if plan.Ok? {
      Rewrites(w, rows, job, env, Normalize(job.who), p, p.(totpEnabled := true, recovery := job.hashes));
    } else {
      Refused(w, rows, job, env, plan.error);
    }
    hide Served, Outcome, Normalize, TrimSpace;
  }

  /** Two-factor goes, with its secret and all codes, for the right password. */
  lemma DisableDone(w: World, rows: Rows, job: Job, env: Env, p: User)
    requires job.Disable? && Keyed(rows) && env.gets && Normalize(job.who) in rows && rows[Normalize(job.who)] == Row(p)
    ensures Outcome(w, rows, job, env).Ok? <==>
      p.enabled && p.passwordHash != "" && w.suits(p.passwordHash, job.password) && env.commits(0)
    ensures Served(w, rows, job, env) ==
      if Outcome(w, rows, job, env).Ok? then rows[Normalize(job.who) := Row(p.(totpEnabled := false, totpSecret := "", recovery := [], updatedAt := env.now))] else rows
  {
    var plan := PlanFor(w, job, Look(rows, job, env));
    if plan.Ok? {
      Rewrites(w, rows, job, env, Normalize(job.who), p, p.(totpEnabled := false, totpSecret := "", recovery := []));
    } else {
      Refused(w, rows, job, env, plan.error);
    }
    hide Served, Outcome, Normalize, TrimSpace;
  }

  /** New codes take the place of all old ones, for the right password, where two-factor is on. */
  lemma RegenerateDone(w: World, rows: Rows, job: Job, env: Env, p: User)
    requires job.Regenerate? && Keyed(rows) && env.gets && Normalize(job.who) in rows && rows[Normalize(job.who)] == Row(p)
    ensures Outcome(w, rows, job, env).Ok? <==>
      p.enabled && p.passwordHash != "" && w.suits(p.passwordHash, job.password) && p.totpEnabled && env.commits(0)
    ensures Served(w, rows, job, env) ==
      if Outcome(w, rows, job, env).Ok? then rows[Normalize(job.who) := Row(p.(recovery := job.hashes, updatedAt := env.now))] else rows
  {
    var plan := PlanFor(w, job, Look(rows, job, env));
    if plan.Ok? {
      Rewrites(w, rows, job, env, Normalize(job.who), p, p.(recovery := job.hashes));
    } else {
      Refused(w, rows, job, env, plan.error);
    }
    hide Served, Outcome, Normalize, TrimSpace;
  }

  /** The hash is replaced, for the right password and a new one that bcrypt takes. */
  lemma PasswordChanged(w: World, rows: Rows, job: Job, env: Env, p: User)
    requires job.ChangePassword? && Keyed(rows) && env.gets && Normalize(job.who) in rows && rows[Normalize(job.who)] == Row(p)
    ensures Outcome(w, rows, job, env).Ok? <==>
      p.enabled && p.passwordHash != "" && w.suits(p.passwordHash, job.password) && 8 <= |job.newPassword| <= 72 && env.commits(0)
    ensures Served(w, rows, job, env) ==
      if Outcome(w, rows, job, env).Ok? then rows[Normalize(job.who) := Row(p.(passwordHash := job.hash, updatedAt := env.now))] else rows
  {
    var plan := PlanFor(w, job, Look(rows, job, env));
    if plan.Ok? {
      Rewrites(w, rows, job, env, Normalize(job.who), p, p.(passwordHash := job.hash));
    } else {
      Refused(w, rows, job, env, plan.error);
    }
    hide Served, Outcome, Normalize, TrimSpace;
  }

  /** Passkeys are added by any enabled user. */
  lemma PasskeyAdded(w: World, rows: Rows, job: Job, env: Env, p: User)
    requires job.PasskeyAdd? && Keyed(rows) && env.gets && Normalize(job.who) in rows && rows[Normalize(job.who)] == Row(p)
    ensures Outcome(w, rows, job, env).Ok? <==>
      p.enabled && env.commits(0)
    ensures Served(w, rows, job, env) ==
      if Outcome(w, rows, job, env).Ok? then rows[Normalize(job.who) := Row(p.(passkeys := job.passkeys, updatedAt := env.now))] else rows
  {
    var plan := PlanFor(w, job, Look(rows, job, env));
    if plan.Ok? {
      Rewrites(w, rows, job, env, Normalize(job.who), p, p.(passkeys := job.passkeys));
    } else {
      Refused(w, rows, job, env, plan.error);
    }
    hide Served, Outcome, Normalize, TrimSpace;
  }

  /** They are dropped for the right password. */
  lemma PasskeyDropped(w: World, rows: Rows, job: Job, env: Env, p: User)
    requires job.PasskeyDrop? && Keyed(rows) && env.gets && Normalize(job.who) in rows && rows[Normalize(job.who)] == Row(p)
    ensures Outcome(w, rows, job, env).Ok? <==>
      p.enabled && p.passwordHash != "" && w.suits(p.passwordHash, job.password) && env.commits(0)
    ensures Served(w, rows, job, env) ==
      if Outcome(w, rows, job, env).Ok? then rows[Normalize(job.who) := Row(p.(passkeys := job.passkeys, updatedAt := env.now))] else rows
  {
    var plan := PlanFor(w, job, Look(rows, job, env));
    if plan.Ok? {
      Rewrites(w, rows, job, env, Normalize(job.who), p, p.(passkeys := job.passkeys));
    } else {
      Refused(w, rows, job, env, plan.error);
    }
    hide Served, Outcome, Normalize, TrimSpace;
  }

  /** The command line sets a password for anybody there is, and makes the account a local one. */
  lemma PasswordReset(w: World, rows: Rows, job: Job, env: Env, p: User)
    requires job.CliResetPassword? && Keyed(rows) && env.gets && Normalize(job.who) in rows && rows[Normalize(job.who)] == Row(p)
    ensures Outcome(w, rows, job, env).Ok? <==>
      env.commits(0)
    ensures Served(w, rows, job, env) ==
      if Outcome(w, rows, job, env).Ok? then rows[Normalize(job.who) := Row(p.(passwordHash := job.hash, source := "local", updatedAt := env.now))] else rows
  {
    Rewrites(w, rows, job, env, Normalize(job.who), p, p.(passwordHash := job.hash, source := "local"));
    hide Served, Outcome, Normalize, TrimSpace;
  }

  /** A handle is made for the right password where there is none; where there is one nothing is written. */
  lemma PasskeyBegun(w: World, rows: Rows, job: Job, env: Env, p: User)
    requires job.PasskeyBegin? && Keyed(rows) && env.gets && Normalize(job.who) in rows && rows[Normalize(job.who)] == Row(p)
    ensures Outcome(w, rows, job, env).Ok? <==>
      p.enabled && p.passwordHash != "" && w.suits(p.passwordHash, job.password) && (p.handle == [] ==> env.commits(0))
    ensures Served(w, rows, job, env) ==
      if Outcome(w, rows, job, env).Ok? && p.handle == []
      then rows[Normalize(job.who) := Row(p.(handle := job.handle, updatedAt := env.now))] else rows
  {
    var plan := PlanFor(w, job, Look(rows, job, env));
    if plan.Err? {
      Refused(w, rows, job, env, plan.error);
    } else if p.handle == [] {
      Rewrites(w, rows, job, env, Normalize(job.who), p, p.(handle := job.handle));
    } else {
      Idle(w, rows, job, env);
    }
    hide Served, Outcome, Normalize;
  }

  /** A sign-in with a passkey: any enabled user, noted if it can be. */
  lemma PasskeyUsed(w: World, rows: Rows, job: Job, env: Env, p: User)
    requires job.PasskeyUse? && Keyed(rows) && env.gets && Normalize(job.who) in rows && rows[Normalize(job.who)] == Row(p)
    ensures Outcome(w, rows, job, env).Ok? <==> p.enabled
    ensures Served(w, rows, job, env) ==
      if p.enabled && env.commits(0)
      then rows[Normalize(job.who) := Row(p.(passkeys := job.passkeys, lastLoginAt := job.at, updatedAt := env.now))] else rows
  {
    if p.enabled {
      var q := p.(passkeys := job.passkeys, lastLoginAt := job.at);
      Saved(w, rows, job, env, q, false);
      KeepsKey(rows, Normalize(job.who), p, q, env.now);
    } else {
      Refused(w, rows, job, env, "passkey authentication failed");
    }
    hide Served, Outcome, Normalize, Upserted;
  }

  /** Another enabled admin is there, as the guard finds out only if it can read everything. */
  lemma OthersRead(rows: Rows, p: User, k: string, env: Env)
    requires Keyed(rows) && k in rows && rows[k] == Row(p)
    ensures var others := OthersFound(rows, p, env);
      && (others.Err? <==> !env.checks || exists o :: o in rows && rows[o].Undecodable?)
      && (others.Ok? ==> (others.value > 0 <==>
            exists o :: o != k && o in rows && rows[o].Row? && rows[o].value.role == Admin && rows[o].value.enabled))
  {
    OtherIsElsewhere(rows, k);
    assert p.email == k;
  }

  /** A deletion: of anybody, except an enabled admin who is the last one, or where that cannot be told. */
  lemma DeleteDone(w: World, rows: Rows, job: Job, env: Env, p: User)
    requires job.AdminDelete? && Keyed(rows) && env.gets && Normalize(job.who) in rows && rows[Normalize(job.who)] == Row(p)
    ensures Outcome(w, rows, job, env).Ok? <==> env.commits(0) && (p.role == Admin && p.enabled ==>
      && env.checks && (forall o :: o in rows ==> rows[o].Row?)
      && exists o :: o != Normalize(job.who) && o in rows && rows[o].Row? && rows[o].value.role == Admin && rows[o].value.enabled)
    ensures Served(w, rows, job, env) == if Outcome(w, rows, job, env).Ok? then rows - {Normalize(job.who)} else rows
  {
    OthersRead(rows, p, Normalize(job.who), env);
    var plan := PlanFor(w, job, Look(rows, job, env));
    if plan.Ok? {
      Removed(w, rows, job, env, job.who);
    } else {
      Refused(w, rows, job, env, plan.error);
    }
    hide Served, Outcome, Normalize, OthersFound;
  }

  /** What an update asks for and gets, field by field; nothing else changes, in this record or any other. */
  ghost predicate Updated(p: User, q: User, patch: Patch, now: Time) {
    && q.name == (if patch.name.Some? then TrimSpace(patch.name.value) else p.name)
    && q.role == (if patch.role.None? then p.role else if ToLower(TrimSpace(patch.role.value)) == "admin" then Admin else Member)
    && q.enabled == (if patch.enabled.Some? then patch.enabled.value else p.enabled)
    && q.passwordHash == (if patch.password.None? then p.passwordHash else if patch.password.value == "" then "" else patch.hash)
    && q.source == (if patch.password.Some? && patch.password.value != "" && p.source == "" then "local" else p.source)
    && q.totpEnabled == (p.totpEnabled && !patch.clearTotp)
    && q.totpSecret == (if patch.clearTotp then "" else p.totpSecret)
    && q.recovery == (if patch.clearTotp then [] else p.recovery)
    && q.passkeys == (if patch.clearPasskeys then "" else p.passkeys)
    && q.handle == (if patch.clearPasskeys then [] else p.handle)
    && q.email == p.email && q.pinned == p.pinned && q.subject == p.subject
    && q.createdAt == p.createdAt && q.lastLoginAt == p.lastLoginAt && q.updatedAt == now
  }

  /** The update names a role, if it names one, and sets a password, if it sets one, that bcrypt takes. */
  predicate WellAsked(patch: Patch) {
    && (patch.role.Some? ==> ToLower(TrimSpace(patch.role.value)) in {"admin", "user"})
    && (patch.password.Some? && patch.password.value != "" ==> 8 <= |patch.password.value| <= 72)
  }

  /** It takes an enabled admin: by another role, or by disabling him. */
  predicate TakesAdmin(p: User, patch: Patch) {
    && p.role == Admin && p.enabled
    && ((patch.role.Some? && ToLower(TrimSpace(patch.role.value)) != "admin") || patch.enabled == Some(false))
  }

  lemma UpdatePlanned(p: User, patch: Patch, others: Result<nat>)
    ensures PlanUpdate(p, patch, others).Ok? <==> WellAsked(patch) && (TakesAdmin(p, patch) ==> others.Ok? && others.value > 0)
  {
    hide ToLower, TrimSpace, WithPassword, Revoked;
  }

  /** Name, role and state first, the password then, and at last what is revoked; each leaves the fields of the others alone. */
  lemma ThreeEdits(p: User, v: User, u: User, patch: Patch)
    requires v == Patched(p, patch) && u == WithPassword(v, patch)
    ensures v == p.(name := v.name, role := v.role, enabled := v.enabled)
    ensures u == v.(passwordHash := u.passwordHash, source := u.source)
    ensures var q := Revoked(u, patch);
      q == u.(totpEnabled := q.totpEnabled, totpSecret := q.totpSecret, recovery := q.recovery, passkeys := q.passkeys, handle := q.handle)
  {
    hide ParseRole, TrimSpace;
  }

  lemma PatchedFields(p: User, patch: Patch)
    ensures var v := Patched(p, patch);
      && v.name == (if patch.name.Some? then TrimSpace(patch.name.value) else p.name)
      && v.role == (if patch.role.None? then p.role else if ToLower(TrimSpace(patch.role.value)) == "admin" then Admin else Member)
      && v.enabled == (if patch.enabled.Some? then patch.enabled.value else p.enabled)
  {
    hide ToLower, TrimSpace;
  }

  lemma UpdateFields(p: User, patch: Patch, others: Result<nat>, now: Time)
    requires PlanUpdate(p, patch, others).Ok?
    ensures var plan := PlanUpdate(p, patch, others);
      |plan.value| == 1 && plan.value[0].Put? && plan.value[0].vital && Updated(p, plan.value[0].user.(updatedAt := now), patch, now)
  {
    var v := Patched(p, patch);
    var u := WithPassword(v, patch);
    assert PlanUpdate(p, patch, others).value == [Put(Revoked(u, patch), true)];
    PatchedFields(p, patch);
    ThreeEdits(p, v, u, patch);
    hide ToLower, TrimSpace, ParseRole, PlanUpdate, Patched, EnabledAdmin;
  }

  /** It is refused for a role that is none, a password that bcrypt does not take, and where it takes the last enabled admin. */
  lemma UpdateDone(w: World, rows: Rows, job: Job, env: Env, p: User)
    requires job.AdminUpdate? && Keyed(rows) && env.gets && Normalize(job.who) in rows && rows[Normalize(job.who)] == Row(p)
    ensures var k, rows' := Normalize(job.who), Served(w, rows, job, env);
      && (Outcome(w, rows, job, env).Err? ==> rows' == rows)
      && (Outcome(w, rows, job, env).Ok? ==>
            k in rows' && rows'[k].Row? && rows' == rows[k := rows'[k]] && Updated(p, rows'[k].value, job.patch, env.now))
    ensures Outcome(w, rows, job, env).Ok? <==>
      && env.commits(0) && WellAsked(job.patch)
      && (TakesAdmin(p, job.patch) ==>
            && env.checks && (forall o :: o in rows ==> rows[o].Row?)
            && exists o :: o != Normalize(job.who) && o in rows && rows[o].Row? && rows[o].value.role == Admin && rows[o].value.enabled)
  {
    OthersRead(rows, p, Normalize(job.who), env);
    var plan := PlanFor(w, job, Look(rows, job, env));
    assert plan == PlanUpdate(p, job.patch, OthersFound(rows, p, env));
    UpdatePlanned(p, job.patch, OthersFound(rows, p, env));
    if plan.Ok? { UpdateFields(p, job.patch, OthersFound(rows, p, env), env.now); }
    hide PlanUpdate, OthersFound, Normalize, WellAsked, TakesAdmin, PlanFor, Look;
    if plan.Ok? {
      var q := plan.value[0].user;
      assert plan.value == [Put(q, true)] && q.email == p.email && q.createdAt == p.createdAt;
      Rewrites(w, rows, job, env, Normalize(job.who), p, q);
    } else {
      Refused(w, rows, job, env, plan.error);
    }
    hide Served, Outcome, Updated;
  }

  /** One record is updated as asked for, and all others stay as they are. */
  ghost predicate OneUpdated(rows: Rows, rows': Rows, k: string, patch: Patch, now: Time) {
    && k in rows && rows[k].Row? && k in rows' && rows'[k].Row?
    && Updated(rows[k].value, rows'[k].value, patch, now) && rows' == rows[k := rows'[k]]
  }

  lemma UpdateEffect(w: World, rows: Rows, job: Job, env: Env)
    requires job.AdminUpdate? && Keyed(rows) && Outcome(w, rows, job, env).Ok?
    ensures OneUpdated(rows, Served(w, rows, job, env), Normalize(job.who), job.patch, env.now)
  {
    hide Served, Outcome, Normalize, Updated;
    if env.gets && Normalize(job.who) in rows && rows[Normalize(job.who)].Row? {
      UpdateDone(w, rows, job, env, rows[Normalize(job.who)].value);
    } else {
      NobodyFound(w, rows, job, env);
    }
  }

  // ---- A record appears ----

  lemma Appears(rows: Rows, u: User, now: Time)
    requires Normalize(u.email) !in rows && u.createdAt == ZERO_TIME
    ensures Upserted(rows, u, now) == rows[Normalize(u.email) := Row(u.(email := Normalize(u.email), createdAt := now, updatedAt := now))]
  {
  }

  /** A user is created under a free address, local with a password, for single sign-on without; disabled only if asked for. */
  lemma CreateDone(w: World, rows: Rows, job: Job, env: Env)
    requires job.AdminCreate?
    ensures var e := Normalize(job.who);
      && (Outcome(w, rows, job, env).Ok? <==>
            && env.gets && env.commits(0) && '@' in e && e !in rows
            && (job.roleName == "" || ToLower(TrimSpace(job.roleName)) in {"admin", "user"})
            && (job.password == "" || 8 <= |job.password| <= 72))
      && Served(w, rows, job, env) ==
           if Outcome(w, rows, job, env).Err? then rows
           else rows[e := Row(User(e, TrimSpace(job.name), if ToLower(TrimSpace(job.roleName)) == "admin" then Admin else Member,
                                   if job.password != "" then "local" else "oidc", if job.password != "" then job.hash else "",
                                   false, job.enabled != Some(false), "", false, "", [], [], "", env.now, env.now, ZERO_TIME))]
  {
    NormalizeTwice(job.who);
    var plan := PlanFor(w, job, Look(rows, job, env));
    if plan.Ok? {
      Saved(w, rows, job, env, plan.value[0].user, true);
      Appears(rows, plan.value[0].user, env.now);
    } else {
      Refused(w, rows, job, env, plan.error);
    }
    hide Served, Outcome, Normalize, TrimSpace, ToLower, Upserted;
  }

  /** Signing on for the first time makes a record, with the role the rules give. */
  lemma FirstSignOn(w: World, rows: Rows, job: Job, env: Env)
    requires job.Provision? && Normalize(job.who) !in rows
    ensures var k := Normalize(job.who);
      && (Outcome(w, rows, job, env).Ok? <==> env.gets && env.commits(0) && k != "" && (job.pinned || job.granted.Some?))
      && Served(w, rows, job, env) ==
           if Outcome(w, rows, job, env).Err? then rows
           else rows[k := Row(User(k, job.name, if job.pinned then Admin else job.granted.value, "oidc", "", job.pinned, true, job.subject,
                                   false, "", [], [], "", env.now, env.now, job.at))]
  {
    NormalizeTwice(job.who);
    var plan := PlanFor(w, job, Look(rows, job, env));
    if plan.Ok? {
      Saved(w, rows, job, env, plan.value[0].user, true);
      Appears(rows, plan.value[0].user, env.now);
    } else {
      Refused(w, rows, job, env, plan.error);
    }
    hide Served, Outcome, Normalize, Upserted;
  }

  /** Signing on again: who is disabled stays out; who is pinned, now or before, is an admin; the role of all others is given anew. */
  lemma SignedOnAgain(w: World, rows: Rows, job: Job, env: Env, p: User)
    requires job.Provision? && Keyed(rows) && env.gets && Normalize(job.who) in rows && rows[Normalize(job.who)] == Row(p)
    ensures Outcome(w, rows, job, env).Ok? <==> p.enabled && (job.pinned || p.pinned || job.granted.Some?) && env.commits(0)
    ensures Served(w, rows, job, env) ==
      if Outcome(w, rows, job, env).Err? then rows
      else rows[Normalize(job.who) := Row(p.(role := if job.pinned || p.pinned then Admin else job.granted.value,
        pinned := job.pinned || p.pinned, source := if p.source == "" then "oidc" else p.source, subject := job.subject,
        name := if job.name != "" then job.name else p.name, lastLoginAt := job.at, updatedAt := env.now))]
  {
    var plan := PlanFor(w, job, Look(rows, job, env));
    if plan.Ok? {
      Rewrites(w, rows, job, env, Normalize(job.who), p, plan.value[0].user);
    } else {
      Refused(w, rows, job, env, plan.error);
    }
    hide Served, Outcome, Normalize;
  }

  /** The address moves: the record lies under the new one, and no longer under the old one if that could be removed. */
  lemma EmailChanged(w: World, rows: Rows, job: Job, env: Env, p: User)
    requires job.ChangeEmail? && Keyed(rows) && env.gets && Normalize(job.who) in rows && rows[Normalize(job.who)] == Row(p)
    ensures var e := Normalize(job.newEmail);
      Outcome(w, rows, job, env).Ok? <==>
        && p.enabled && p.passwordHash != "" && w.suits(p.passwordHash, job.password) && '@' in e
        && (e == Normalize(job.who) || (env.checks && e !in rows && env.commits(0)))
    ensures var k, e := Normalize(job.who), Normalize(job.newEmail);
      Served(w, rows, job, env) ==
        if Outcome(w, rows, job, env).Err? || e == k then rows
        else rows[e := Row(p.(email := e, updatedAt := env.now))] - if env.commits(1) then {k} else {}
  {
    NormalizeTwice(job.newEmail);
    var plan := PlanFor(w, job, Look(rows, job, env));
    if plan.Err? {
      Refused(w, rows, job, env, plan.error);
    } else if plan.value == [] {
      Idle(w, rows, job, env);
    } else {
      var moved := p.(email := Normalize(job.newEmail));
      assert plan.value == [Put(moved, true), Remove(p.email, false)];
      Rekeyed(w, rows, job, env, moved, p.email);
      assert Upserted(rows, moved, env.now) == rows[moved.email := Row(moved.(updatedAt := env.now))];
      assert rows[moved.email := Row(moved.(updatedAt := env.now))] - {} == rows[moved.email := Row(moved.(updatedAt := env.now))];
    }
    hide Served, Outcome, Normalize, Upserted;
  }

  // ---- The command line, and the first admin ----

  lemma CliCreated(w: World, rows: Rows, job: Job, env: Env)
    requires job.CliCreate? && Normalize(job.who) !in rows
    ensures var k := Normalize(job.who);
      && (Outcome(w, rows, job, env).Ok? <==> env.gets && env.commits(0) && '@' in k)
      && Served(w, rows, job, env) ==
           if Outcome(w, rows, job, env).Err? then rows
           else rows[k := Row(User(k, "", job.role, if job.oidcOnly then "oidc" else "local", if job.oidcOnly then "" else job.hash,
                                   job.role == Admin, true, "", false, "", [], [], "", env.now, env.now, ZERO_TIME))]
  {
    NormalizeTwice(job.who);
    var plan := PlanFor(w, job, Look(rows, job, env));
    if plan.Ok? {
      Saved(w, rows, job, env, plan.value[0].user, true);
      Appears(rows, plan.value[0].user, env.now);
    } else {
      Refused(w, rows, job, env, plan.error);
    }
    hide Served, Outcome, Normalize, Upserted;
  }

  /** Creating over an existing user takes his record over, and pins it exactly if it makes an admin. */
  lemma CliRecreated(w: World, rows: Rows, job: Job, env: Env, p: User)
    requires job.CliCreate? && Keyed(rows) && env.gets && Normalize(job.who) in rows && rows[Normalize(job.who)] == Row(p)
    ensures Outcome(w, rows, job, env).Ok? <==> '@' in Normalize(job.who) && env.commits(0)
    ensures Served(w, rows, job, env) ==
      if Outcome(w, rows, job, env).Err? then rows
      else rows[Normalize(job.who) := Row(p.(role := job.role, enabled := true, pinned := job.role == Admin,
        passwordHash := if job.oidcOnly then p.passwordHash else job.hash,
        source := if !job.oidcOnly then "local" else if p.source == "" then "oidc" else p.source, updatedAt := env.now))]
  {
    var plan := PlanFor(w, job, Look(rows, job, env));
    if plan.Ok? {
      Rewrites(w, rows, job, env, Normalize(job.who), p, plan.value[0].user);
    } else {
      Refused(w, rows, job, env, plan.error);
    }
    hide Served, Outcome, Normalize;
  }

  /** The count of the command line tells whether another admin is there, enabled or not. */
  lemma HoldersRead(rows: Rows, p: User, k: string, env: Env)
    requires k in rows && rows[k] == Row(p) && p.role == Admin
    ensures LastHolder(p, HoldersFound(rows, env)) <==>
      || !env.checks || (exists o :: o in rows && rows[o].Undecodable?)
      || forall o :: o != k && o in rows && rows[o].Row? ==> rows[o].value.role != Admin
  {
    var all := Holders(rows, Admin);
    assert k in all;
    if o :| o != k && o in rows && rows[o].Row? && rows[o].value.role == Admin {
      assert o in all && {k, o} <= all;
      Fits({k, o}, all);
    } else {
      assert all == {k};
    }
  }

  lemma Fits(some: set<string>, all: set<string>)
    requires some <= all
    ensures |some| <= |all|
  {
    assert all == some + (all - some) && some !! (all - some);
  }

  /** The role is set, and with it the pin; not taken from an admin if he is the last one, or where that cannot be told. */
  lemma RoleSet(w: World, rows: Rows, job: Job, env: Env, p: User)
    requires job.CliSetRole? && Keyed(rows) && env.gets && Normalize(job.who) in rows && rows[Normalize(job.who)] == Row(p)
    ensures Outcome(w, rows, job, env).Ok? <==> env.commits(0) && (p.role == Admin && job.role != Admin ==>
      && env.checks && (forall o :: o in rows ==> rows[o].Row?)
      && exists o :: o != Normalize(job.who) && o in rows && rows[o].Row? && rows[o].value.role == Admin)
    ensures Served(w, rows, job, env) ==
      if Outcome(w, rows, job, env).Err? then rows
      else rows[Normalize(job.who) := Row(p.(role := job.role, pinned := job.role == Admin, updatedAt := env.now))]
  {
    if p.role == Admin { HoldersRead(rows, p, Normalize(job.who), env); }
    var plan := PlanFor(w, job, Look(rows, job, env));
    if plan.Ok? {
      Rewrites(w, rows, job, env, Normalize(job.who), p, plan.value[0].user);
    } else {
      Refused(w, rows, job, env, plan.error);
    }
    hide Served, Outcome, Normalize, HoldersFound;
  }

  lemma CliDeleted(w: World, rows: Rows, job: Job, env: Env, p: User)
    requires job.CliDelete? && Keyed(rows) && env.gets && Normalize(job.who) in rows && rows[Normalize(job.who)] == Row(p)
    ensures Outcome(w, rows, job, env).Ok? <==> env.commits(0) && (p.role == Admin ==>
      && env.checks && (forall o :: o in rows ==> rows[o].Row?)
      && exists o :: o != Normalize(job.who) && o in rows && rows[o].Row? && rows[o].value.role == Admin)
    ensures Served(w, rows, job, env) == if Outcome(w, rows, job, env).Ok? then rows - {Normalize(job.who)} else rows
  {
    if p.role == Admin { HoldersRead(rows, p, Normalize(job.who), env); }
    var plan := PlanFor(w, job, Look(rows, job, env));
    if plan.Ok? {
      Removed(w, rows, job, env, job.who);
    } else {
      Refused(w, rows, job, env, plan.error);
    }
    hide Served, Outcome, Normalize, HoldersFound;
  }

  /** The admin of the configuration is made where there is no record of his; otherwise nothing is written. */
  lemma Bootstrapped(w: World, rows: Rows, job: Job, env: Env)
    requires job.Bootstrap?
    ensures Normalize(job.who) in rows ==> Served(w, rows, job, env) == rows
    ensures Normalize(job.who) !in rows && (!env.gets || !env.commits(0) || Normalize(job.who) == "") ==> Served(w, rows, job, env) == rows
    ensures Normalize(job.who) !in rows && env.gets && env.commits(0) && Normalize(job.who) != "" ==>
      Served(w, rows, job, env) == rows[Normalize(job.who) :=
        Row(User(Normalize(job.who), "", Admin, if job.hash != "" then "local" else "oidc", job.hash, true, true, "",
                 false, "", [], [], "", env.now, env.now, ZERO_TIME))]
  {
    NormalizeTwice(job.who);
    var plan := PlanFor(w, job, Look(rows, job, env));
    if plan.Err? {
      Refused(w, rows, job, env, plan.error);
    } else if plan.value == [] {
      Idle(w, rows, job, env);
    } else {
      Saved(w, rows, job, env, plan.value[0].user, true);
      Appears(rows, plan.value[0].user, env.now);
    }
    hide Served, Outcome, Normalize, Upserted;
  }

  // ---- Passwords and second factors ----

  /** The requests that ask for the password of the account. */
  predicate AsksPassword(job: Job) {
    job.Setup? || job.Disable? || job.Regenerate? || job.Login? || job.PasskeyBegin? || job.PasskeyDrop? || job.ChangeEmail? || job.ChangePassword?
  }

  /** Whatever was read and whenever the plan is carried out: none of them gets anywhere without the right one. */
  lemma PasswordAsked(w: World, job: Job, f: Findings)
    requires AsksPassword(job) && PlanFor(w, job, f).Ok?
    ensures f.found.Ok? && f.found.value.Some?
    ensures var u := f.found.value.value; u.enabled && u.passwordHash != "" && w.suits(u.passwordHash, job.password)
  {
    hide Normalize, TrimSpace, Accepts, SecondFactor;
  }

  /** A current code of the authenticator whose secret is sealed in the record. */
  predicate CurrentCode(w: World, p: User, code: string, at: Time) {
    p.totpSecret != "" && w.unseal(p.totpSecret).Some? && w.valid(TrimSpace(code), w.unseal(p.totpSecret).value, at)
  }

  /** One of the recovery codes of the record, in any spelling. */
  ghost predicate UnusedCode(w: World, p: User, code: string) {
    NormRecovery(TrimSpace(code)) != "" && exists i :: 0 <= i < |p.recovery| && w.suits(p.recovery[i], NormRecovery(TrimSpace(code)))
  }

  lemma LoginPlanned(w: World, p: User, password: string, code: string, at: Time)
    ensures var known := p.enabled && p.passwordHash != "" && w.suits(p.passwordHash, password);
      && (I.LetsIn(w, p, password, code, at) <==>
            known && (p.totpEnabled ==> TrimSpace(code) != "" && (CurrentCode(w, p, code, at) || UnusedCode(w, p, code))))
      && (I.AskedForCode(w, p, password, code) <==> known && p.totpEnabled && TrimSpace(code) == "")
  {
    hide NormRecovery, TrimSpace;
    if Accepts(p.recovery, TrimSpace(code), w.suits) { I.AcceptsSuits(p.recovery, TrimSpace(code), w.suits); }
  }

  /** What a sign-in leaves in the bucket: the time of the login where it is let in, and one code less where it used one. */
  lemma LoginDone(w: World, rows: Rows, job: Job, env: Env, p: User)
    requires job.Login? && Keyed(rows) && env.gets && Normalize(job.who) in rows && rows[Normalize(job.who)] == Row(p)
    ensures !I.LetsIn(w, p, job.password, job.code, job.at) ==> Served(w, rows, job, env) == rows
    ensures I.LetsIn(w, p, job.password, job.code, job.at) && (!p.totpEnabled || CurrentCode(w, p, job.code, job.at)) ==>
      Served(w, rows, job, env) ==
        if env.commits(0) then rows[Normalize(job.who) := Row(p.(lastLoginAt := job.at, updatedAt := env.now))] else rows
    ensures I.LetsIn(w, p, job.password, job.code, job.at) && p.totpEnabled && !CurrentCode(w, p, job.code, job.at) ==>
      exists i :: 0 <= i < |p.recovery| && w.suits(p.recovery[i], NormRecovery(TrimSpace(job.code)))
        && Served(w, rows, job, env) == Noted(rows, Normalize(job.who), p.(recovery := p.recovery[..i] + p.recovery[i + 1..]), job.at, env)
  {
    hide NormRecovery, TrimSpace;
    var k, plan := Normalize(job.who), PlanFor(w, job, Look(rows, job, env));
    if !I.LetsIn(w, p, job.password, job.code, job.at) {
      NothingServed(w, rows, job, env);
    } else if !p.totpEnabled || CurrentCode(w, p, job.code, job.at) {
      var q := p.(lastLoginAt := job.at);
      Saved(w, rows, job, env, q, false);
      KeepsKey(rows, k, p, q, env.now);
    } else {
      var i := Match(p.recovery, NormRecovery(TrimSpace(job.code)), w.suits);
      var q := p.(recovery := p.recovery[..i] + p.recovery[i + 1..]);
      I.TwoPuts(w, rows, job, env, q, q.(lastLoginAt := job.at));
      NotedTwice(rows, k, p, q, job.at, env);
    }
    hide Served, Normalize, Upserted;
  }

  /** The record without the code, saved once and then with the login; each of the two may fail. */
  function Noted(rows: Rows, k: string, q: User, at: Time, env: Env): Rows {
    if env.commits(1) then rows[k := Row(q.(lastLoginAt := at, updatedAt := env.now))]
    else if env.commits(0) then rows[k := Row(q.(updatedAt := env.now))] else rows
  }

  lemma NotedTwice(rows: Rows, k: string, p: User, q: User, at: Time, env: Env)
    requires Keyed(rows) && k in rows && rows[k] == Row(p) && q.email == p.email && q.createdAt == p.createdAt
    ensures var v := q.(lastLoginAt := at);
      var rows1 := if T.Lands(Put(q, false), env.commits(0)) then Upserted(rows, q, env.now) else rows;
      Noted(rows, k, q, at, env) == if T.Lands(Put(v, false), env.commits(1)) then Upserted(rows1, v, env.now) else rows1
  {
  }
}
