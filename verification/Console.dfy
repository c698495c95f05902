/**
 The handlers that write user records, as code over the store: read, check in order, edit, write. Each is
 proved to answer and to leave the bucket as its plan says when no other request gets in between.
 */
module Console {
  import opened Records
  import opened Text
  import opened Recovery
  import opened Users
  import opened Accounts
  import opened Lockout
  import opened Deeds
  import I = SignIns
  import T = TwoFactor

  /** The two ways in which a sign-in does not fail: a session is minted, or the second factor is asked for. */
  datatype SignedIn = Minted | MfaRequired

  class Console {
    const w: World
    const users: Store

    ghost predicate Valid() {
      users.isOpen
    }

    constructor (w: World)
      ensures Valid() && this.w == w && fresh(users) && users.rows == map[]
    {
      this.w := w;
      users := new Store(true);
    }

    method Save(u: User, env: Env, ghost job: Job) returns (r: Result<()>)
      requires Valid() && PlanFor(w, job, Look(users.rows, job, env)) == Ok([Put(u, true)])
      modifies users
      ensures users.rows == Served(w, old(users.rows), job, env) && r == Outcome(w, old(users.rows), job, env)
    {
      Saved(w, users.rows, job, env, u, true);
      hide PlanFor, Served, Outcome;
      var saved := users.Upsert(u, env.now, env.commits(0));
      return if saved.Ok? then Ok(()) else Err("internal error");
    }

    /** The signed-in user, if there still is one and he is enabled. */
    method LocalSelfUser(who: string, env: Env) returns (r: Result<User>)
      requires Valid()
      ensures r == match (if env.gets then Found(users.rows, who) else Err("internal error"))
        case Err(_) => Err("internal error")
        case Ok(found) => if found.None? || !found.value.enabled then Err("unauthorized") else Ok(found.value)
    {
      var found := users.Get(who, env.gets);
      if found.Err? { return Err("internal error"); }
      if found.value.None? || !found.value.value.enabled { return Err("unauthorized"); }
      return Ok(found.value.value);
    }

    // ---- Two-factor sign-in ----

    method TwoFASetup(who: string, password: string, sealed: string, env: Env) returns (r: Result<()>)
      requires Valid()
      modifies users
      ensures users.rows == Served(w, old(users.rows), Setup(who, password, sealed), env)
      ensures r == Outcome(w, old(users.rows), Setup(who, password, sealed), env)
    {
      hide Served, Outcome;
      ghost var job := Setup(who, password, sealed);
      var self := LocalSelfUser(who, env);
      if self.Err? { Refused(w, users.rows, job, env, self.error); return Err(self.error); }
      var p := self.value;
      if p.passwordHash == "" {
        Refused(w, users.rows, job, env, "two-factor auth requires a local password account");
        return Err("two-factor auth requires a local password account");
      }
      if !CheckPassword(w, p, password) {
        Refused(w, users.rows, job, env, "incorrect password");
        return Err("incorrect password");
      }
      if p.totpEnabled {
        Refused(w, users.rows, job, env, "two-factor auth is already enabled; disable it first");
        return Err("two-factor auth is already enabled; disable it first");
      }
      p := p.(totpSecret := sealed);
      r := Save(p, env, job);
    }

    method TwoFAConfirm(who: string, code: string, hashes: seq<string>, at: Time, env: Env) returns (r: Result<()>)
      requires Valid()
      modifies users
      ensures users.rows == Served(w, old(users.rows), Confirm(who, code, hashes, at), env)
      ensures r == Outcome(w, old(users.rows), Confirm(who, code, hashes, at), env)
    {
      hide Served, Outcome;
      ghost var job := Confirm(who, code, hashes, at);
      var self := LocalSelfUser(who, env);
      if self.Err? { Refused(w, users.rows, job, env, self.error); return Err(self.error); }
      var p := self.value;
      if p.totpEnabled {
        Refused(w, users.rows, job, env, "two-factor auth is already enabled");
        return Err("two-factor auth is already enabled");
      }
      if p.totpSecret == "" {
        Refused(w, users.rows, job, env, "start setup first");
        return Err("start setup first");
      }
      var secret := w.unseal(p.totpSecret);
      if secret.None? {
        Refused(w, users.rows, job, env, "internal error");
        return Err("internal error");
      }
      if !w.valid(TrimSpace(code), secret.value, at) {
        Refused(w, users.rows, job, env, "invalid code");
        return Err("invalid code");
      }
      p := p.(recovery := hashes);
      p := p.(totpEnabled := true);
      r := Save(p, env, job);
    }

    method TwoFADisable(who: string, password: string, env: Env) returns (r: Result<()>)
      requires Valid()
      modifies users
      ensures users.rows == Served(w, old(users.rows), Disable(who, password), env)
      ensures r == Outcome(w, old(users.rows), Disable(who, password), env)
    {
      hide Served, Outcome;
      ghost var job := Disable(who, password);
      var self := LocalSelfUser(who, env);
      if self.Err? { Refused(w, users.rows, job, env, self.error); return Err(self.error); }
      var p := self.value;
      if !CheckPassword(w, p, password) {
        Refused(w, users.rows, job, env, "incorrect password");
        return Err("incorrect password");
      }
      p := p.(totpEnabled := false);
      p := p.(totpSecret := "");
      p := p.(recovery := []);
      r := Save(p, env, job);
    }

    method TwoFARecoveryRegenerate(who: string, password: string, hashes: seq<string>, env: Env) returns (r: Result<()>)
      requires Valid()
      modifies users
      ensures users.rows == Served(w, old(users.rows), Regenerate(who, password, hashes), env)
      ensures r == Outcome(w, old(users.rows), Regenerate(who, password, hashes), env)
    {
      hide Served, Outcome;
      ghost var job := Regenerate(who, password, hashes);
      var self := LocalSelfUser(who, env);
      if self.Err? { Refused(w, users.rows, job, env, self.error); return Err(self.error); }
      var p := self.value;
      if !p.totpEnabled {
        Refused(w, users.rows, job, env, "two-factor auth is not enabled");
        return Err("two-factor auth is not enabled");
      }
      if !CheckPassword(w, p, password) {
        Refused(w, users.rows, job, env, "incorrect password");
        return Err("incorrect password");
      }
      r := Save(p.(recovery := hashes), env, job);
    }

    /** A current code, or else a recovery code, which is used up and saved at once. */
    method VerifySecondFactor(p: User, code: string, at: Time, env: Env) returns (ok: bool, u: User, wrote: bool)
      requires Valid()
      modifies users
      ensures wrote <==> !SecondFactor(w, p, code, at) && Accepts(p.recovery, code, w.suits)
      ensures ok <==> SecondFactor(w, p, code, at) || wrote
      ensures u == if wrote then p.(recovery := Consumed(p.recovery, code, w.suits)) else p
      ensures users.rows == if wrote && T.Lands(Put(u, false), env.commits(0)) then Upserted(old(users.rows), u, env.now) else old(users.rows)
    {
      if p.totpSecret != "" {
        var secret := w.unseal(p.totpSecret);
        if secret.Some? && w.valid(code, secret.value, at) { return true, p, false; }
      }
      var codes := new Codes.Load(p.recovery);
      var accepted := codes.Consume(code, w.suits);
      if accepted {
        u := p.(recovery := codes.slots[..codes.count]);
        var _ := users.Upsert(u, env.now, env.commits(0));
        return true, u, true;
      }
      return false, p, false;
    }

    /** A sign-in, by password and second factor; that it happened is noted if it can be. */
    method PasswordLogin(who: string, password: string, code: string, at: Time, env: Env) returns (r: Result<SignedIn>)
      requires Valid()
      modifies users
      ensures users.rows == Served(w, old(users.rows), Login(who, password, code, at), env)
      ensures Outcome(w, old(users.rows), Login(who, password, code, at), env) == if r.Err? then Err(r.error) else Ok(())
      ensures var found := if env.gets then Found(old(users.rows), who) else Err("internal error");
        && (r == Ok(Minted) <==> found.Ok? && found.value.Some? && I.LetsIn(w, found.value.value, password, code, at))
        && (r == Ok(MfaRequired) <==> found.Ok? && found.value.Some? && I.AskedForCode(w, found.value.value, password, code))
      ensures var rows, k := old(users.rows), Normalize(who);
        r == Ok(Minted) <==>
          && env.gets && k in rows && rows[k].Row? && rows[k].value.enabled
          && rows[k].value.passwordHash != "" && w.suits(rows[k].value.passwordHash, password)
          && (rows[k].value.totpEnabled ==>
                TrimSpace(code) != "" && (CurrentCode(w, rows[k].value, code, at) || UnusedCode(w, rows[k].value, code)))
      ensures var rows, k := old(users.rows), Normalize(who);
        r == Ok(MfaRequired) <==>
          && env.gets && k in rows && rows[k].Row? && rows[k].value.enabled
          && rows[k].value.passwordHash != "" && w.suits(rows[k].value.passwordHash, password)
          && rows[k].value.totpEnabled && TrimSpace(code) == ""
    {
      hide Served, Outcome, TrimSpace, Accepts, Consumed;
      ghost var job := Login(who, password, code, at);
      ghost var before := users.rows;
      if Normalize(who) in before && before[Normalize(who)].Row? {
        LoginPlanned(w, before[Normalize(who)].value, password, code, at);
      }
      hide UnusedCode, CurrentCode;
      NormalizeTwice(who);
      var found := users.Get(Normalize(who), env.gets);
      if found.Err? { Refused(w, before, job, env, "internal error"); return Err("internal error"); }
      if found.value.None? || !found.value.value.enabled || found.value.value.passwordHash == ""
         || !CheckPassword(w, found.value.value, password) {
        Refused(w, before, job, env, "invalid email or password");
        return Err("invalid email or password");
      }
      var p := found.value.value;
      if !p.totpEnabled {
        Saved(w, before, job, env, p.(lastLoginAt := at), false);
        var _ := users.Upsert(p.(lastLoginAt := at), env.now, env.commits(0));
        return Ok(Minted);
      }
      var trimmed := TrimSpace(code);
      if trimmed == "" { Idle(w, before, job, env); return Ok(MfaRequired); }
      var ok, u, wrote := VerifySecondFactor(p, trimmed, at, env);
      if !ok {
        Refused(w, before, job, env, "invalid authentication code");
        return Err("invalid authentication code");
      }
      if wrote {
        SavedTwice(w, before, job, env, u, u.(lastLoginAt := at));
      } else {
        Saved(w, before, job, env, u.(lastLoginAt := at), false);
      }
      var _ := users.Upsert(u.(lastLoginAt := at), env.now, env.commits(if wrote then 1 else 0));
      return Ok(Minted);
    }

    // ---- The account ----

    /** The new record is written before the old one is removed, so a failure cannot lose the account. */
    method ChangeEmail(who: string, newEmail: string, password: string, env: Env) returns (r: Result<()>)
      requires Valid()
      modifies users
      ensures users.rows == Served(w, old(users.rows), Job.ChangeEmail(who, newEmail, password), env)
      ensures r == Outcome(w, old(users.rows), Job.ChangeEmail(who, newEmail, password), env)
    {
      hide Served, Outcome, TrimSpace, ToLower;
      ghost var job := Job.ChangeEmail(who, newEmail, password);
      ghost var before := users.rows;
      var self := LocalSelfUser(who, env);
      if self.Err? { Refused(w, before, job, env, self.error); return Err(self.error); }
      var p := self.value;
      if p.passwordHash == "" {
        Refused(w, before, job, env, "changing email requires a local password account");
        return Err("changing email requires a local password account");
      }
      if !CheckPassword(w, p, password) {
        Refused(w, before, job, env, "incorrect password");
        return Err("incorrect password");
      }
      var email := Normalize(newEmail);
      NormalizeTwice(newEmail);
      if email == "" || '@' !in email {
        Refused(w, before, job, env, "a valid email is required");
        return Err("a valid email is required");
      }
      var oldEmail := p.email;
      if email == oldEmail { Idle(w, before, job, env); return Ok(()); }
      var existing := users.Get(email, env.checks);
      if existing.Err? { Refused(w, before, job, env, "internal error"); return Err("internal error"); }
      if existing.value.Some? {
        Refused(w, before, job, env, "that email is already in use");
        return Err("that email is already in use");
      }
      p := p.(email := email);
      Rekeyed(w, before, job, env, p, oldEmail);
      var saved := users.Upsert(p, env.now, env.commits(0));
      if saved.Err? { return Err("internal error"); }
      var _ := users.Delete(oldEmail, env.commits(1));
      return Ok(());
    }

    method ChangePassword(who: string, password: string, newPassword: string, hash: string, env: Env) returns (r: Result<()>)
      requires Valid()
      modifies users
      ensures users.rows == Served(w, old(users.rows), Job.ChangePassword(who, password, newPassword, hash), env)
      ensures r == Outcome(w, old(users.rows), Job.ChangePassword(who, password, newPassword, hash), env)
    {
      hide Served, Outcome;
      ghost var job := Job.ChangePassword(who, password, newPassword, hash);
      var self := LocalSelfUser(who, env);
      if self.Err? { Refused(w, users.rows, job, env, self.error); return Err(self.error); }
      var p := self.value;
      if p.passwordHash == "" {
        Refused(w, users.rows, job, env, "this account has no password to change");
        return Err("this account has no password to change");
      }
      if !CheckPassword(w, p, password) {
        Refused(w, users.rows, job, env, "incorrect password");
        return Err("incorrect password");
      }
      if |newPassword| < 8 || |newPassword| > 72 {
        Refused(w, users.rows, job, env, "password must be 8-72 characters");
        return Err("password must be 8-72 characters");
      }
      r := Save(p.(passwordHash := hash), env, job);
    }

    // ---- The admin console ----

    method CreateUser(job: Job, env: Env) returns (r: Result<()>)
      requires Valid() && job.AdminCreate?
      modifies users
      ensures users.rows == Served(w, old(users.rows), job, env)
      ensures r == Outcome(w, old(users.rows), job, env)
    {
      hide Served, Outcome, TrimSpace, ToLower;
      ghost var before := users.rows;
      var email := Normalize(job.who);
      NormalizeTwice(job.who);
      var (role, known) := ParseRole(job.roleName);
      ghost var plan := PlanFor(w, job, Look(before, job, env));
      if plan.Err? { Refused(w, before, job, env, plan.error); }
      if email == "" || '@' !in email { return Err("a valid email is required"); }
      if job.roleName != "" && !known { return Err("role must be admin or user"); }
      var existing := users.Get(email, env.gets);
      if existing.Err? { return Err("internal error"); }
      if existing.value.Some? { return Err("a user with that email already exists"); }
      var p := BLANK.(email := email, name := TrimSpace(job.name), role := role,
                      enabled := job.enabled.None? || job.enabled.value);
      if job.password != "" {
        if |job.password| < 8 || |job.password| > 72 { return Err("password must be 8-72 characters"); }
        p := p.(passwordHash := job.hash, source := "local");
      } else {
        p := p.(source := "oidc");
      }
      r := Save(p, env, job);
    }

    /** The fields that the guard is about, and the name. */
    static method PatchProfile(p: User, patch: Patch) returns (r: Result<User>)
      ensures r == if patch.role.Some? && !ParseRole(patch.role.value).1 then Err("role must be admin or user") else Ok(Patched(p, patch))
    {
      hide ParseRole, TrimSpace;
      var next := p;
      if patch.name.Some? { next := next.(name := TrimSpace(patch.name.value)); }
      if patch.role.Some? {
        var (role, known) := ParseRole(patch.role.value);
        if !known { return Err("role must be admin or user"); }
        next := next.(role := role);
      }
      if patch.enabled.Some? { next := next.(enabled := patch.enabled.value); }
      return Ok(next);
    }

    /** The password, and what an admin may revoke. */
    static method PatchCredentials(p: User, patch: Patch) returns (r: Result<User>)
      ensures r == if patch.password.Some? && patch.password.value != "" && !FitsBcrypt(patch.password.value)
                   then Err("password must be 8-72 characters") else Ok(Revoked(WithPassword(p, patch), patch))
    {
      var next := p;
      if patch.password.Some? {
        if patch.password.value == "" {
          next := next.(passwordHash := "");
        } else {
          if |patch.password.value| < 8 || |patch.password.value| > 72 { return Err("password must be 8-72 characters"); }
          next := next.(passwordHash := patch.hash);
          if next.source == "" { next := next.(source := "local"); }
        }
      }
      if patch.clearTotp { next := next.(totpEnabled := false, totpSecret := "", recovery := []); }
      if patch.clearPasskeys { next := next.(passkeys := "", handle := []); }
      return Ok(next);
    }

    /** Field by field, with the guard between the fields it is about and the others. */
    method UpdateUser(who: string, patch: Patch, env: Env) returns (r: Result<()>)
      requires Valid()
      modifies users
      ensures users.rows == Served(w, old(users.rows), AdminUpdate(who, patch), env)
      ensures r == Outcome(w, old(users.rows), AdminUpdate(who, patch), env)
      ensures Keyed(old(users.rows)) && r.Ok? ==> OneUpdated(old(users.rows), users.rows, Normalize(who), patch, env.now)
    {
      hide Served, Outcome, Normalize, ParseRole, Patched, WithPassword, Revoked, HoldersFound, OneUpdated, Keyed;
      ghost var job := AdminUpdate(who, patch);
      ghost var before := users.rows;
      if Keyed(before) && Outcome(w, before, job, env).Ok? { UpdateEffect(w, before, job, env); }
      NormalizeTwice(who);
      var found := users.Get(Normalize(who), env.gets);
      if found.Err? { Refused(w, before, job, env, "internal error"); return Err("internal error"); }
      if found.value.None? { Refused(w, before, job, env, "user not found"); return Err("user not found"); }
      var p := found.value.value;
      var profile := PatchProfile(p, patch);
      if profile.Err? { Refused(w, before, job, env, profile.error); return Err(profile.error); }
      var next := profile.value;
      if EnabledAdmin(p) && !EnabledAdmin(next) {
        var others := OtherEnabledAdmins(users, p.email, env.checks);
        if others.Err? { Refused(w, before, job, env, "internal error"); return Err("internal error"); }
        if others.value == 0 {
          Refused(w, before, job, env, "cannot demote or disable the last enabled admin");
          return Err("cannot demote or disable the last enabled admin");
        }
      }
      var patched := PatchCredentials(next, patch);
      if patched.Err? { Refused(w, before, job, env, patched.error); return Err(patched.error); }
      r := Save(patched.value, env, job);
    }

    method DeleteUser(who: string, env: Env) returns (r: Result<()>)
      requires Valid()
      modifies users
      ensures users.rows == Served(w, old(users.rows), AdminDelete(who), env)
      ensures r == Outcome(w, old(users.rows), AdminDelete(who), env)
    {
      hide Served, Outcome, TrimSpace, ToLower;
      ghost var job := AdminDelete(who);
      ghost var before := users.rows;
      NormalizeTwice(who);
      var found := users.Get(Normalize(who), env.gets);
      if found.Err? { Refused(w, before, job, env, "internal error"); return Err("internal error"); }
      if found.value.None? { Refused(w, before, job, env, "user not found"); return Err("user not found"); }
      if EnabledAdmin(found.value.value) {
        var others := OtherEnabledAdmins(users, found.value.value.email, env.checks);
        if others.Err? { Refused(w, before, job, env, "internal error"); return Err("internal error"); }
        if others.value == 0 {
          Refused(w, before, job, env, "cannot delete the last enabled admin");
          return Err("cannot delete the last enabled admin");
        }
      }
      Removed(w, before, job, env, who);
      var deleted := users.Delete(Normalize(who), env.commits(0));
      return if deleted.Ok? then Ok(()) else Err("internal error");
    }

    // ---- Single sign-on ----

    /** Creates or updates the record of an admitted sign-on; who is pinned, now or before, is an admin. */
    method ProvisionOidc(job: Job, env: Env) returns (r: Result<()>)
      requires Valid() && job.Provision?
      modifies users
      ensures users.rows == Served(w, old(users.rows), job, env)
      ensures r == Outcome(w, old(users.rows), job, env)
    {
      hide Served, Outcome, TrimSpace, ToLower;
      ghost var before := users.rows;
      var found := users.Get(job.who, env.gets);
      if found.Err? { Refused(w, before, job, env, "internal error"); return Err("internal error"); }
      var p := found.value;
      if p.Some? && !p.value.enabled { Refused(w, before, job, env, "user is disabled"); return Err("user is disabled"); }
      var pinnedNow := job.pinned || (p.Some? && p.value.pinned);
      if job.granted.None? && !pinnedNow { Refused(w, before, job, env, "access denied"); return Err("access denied"); }
      var u := if p.Some? then p.value else BLANK.(email := Normalize(job.who), enabled := true, source := "oidc");
      if u.source == "" { u := u.(source := "oidc"); }
      u := u.(subject := job.subject);
      if job.name != "" { u := u.(name := job.name); }
      if pinnedNow {
        u := u.(pinned := true, role := Admin);
      } else {
        u := u.(role := job.granted.value);
      }
      u := u.(lastLoginAt := job.at);
      r := Save(u, env, job);
    }
  }
}
