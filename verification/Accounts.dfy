/**
 Every request, command and sign-in that writes a user record, as what it plans to write after what it
 has read. Reading and writing are separate transactions on the whole record, so plans made from old
 records interleave freely; what every record keeps all the same is shown in `TwoFactor`.
 */
module Accounts {
  import opened Records
  import opened Text
  import opened Recovery
  import opened Users

  const RECOVERY_CODES: nat := 10

  /** The libraries: bcrypt's comparison, opening what is sealed at rest, checking a code at a time. */
  datatype World = World(suits: Check, unseal: string -> Option<string>, valid: (string, string, Time) -> bool)

  datatype Patch = Patch(
    name: Option<string>, role: Option<string>, enabled: Option<bool>, password: Option<string>, hash: string,
    clearTotp: bool, clearPasskeys: bool)

  /** What is asked for, with what the random source contributes: sealed secrets, hashes, handles. */
  datatype Job =
    | Setup(who: string, password: string, sealed: string)
    | Confirm(who: string, code: string, hashes: seq<string>, at: Time)
    | Disable(who: string, password: string)
    | Regenerate(who: string, password: string, hashes: seq<string>)
    | Login(who: string, password: string, code: string, at: Time)
    | PasskeyBegin(who: string, password: string, handle: seq<Byte>)
    | PasskeyAdd(who: string, passkeys: string)
    | PasskeyDrop(who: string, password: string, passkeys: string)
    | PasskeyUse(who: string, passkeys: string, at: Time)
    | ChangeEmail(who: string, newEmail: string, password: string)
    | ChangePassword(who: string, password: string, newPassword: string, hash: string)
    | AdminCreate(who: string, name: string, roleName: string, password: string, hash: string, enabled: Option<bool>)
    | AdminUpdate(who: string, patch: Patch)
    | AdminDelete(who: string)
    | Provision(who: string, subject: string, name: string, granted: Option<Role>, pinned: bool, at: Time)
    | CliCreate(who: string, role: Role, oidcOnly: bool, hash: string)
    | CliSetRole(who: string, role: Role)
    | CliResetPassword(who: string, hash: string)
    | CliDelete(who: string)
    | Bootstrap(who: string, hash: string)

  /** What the reads of a request bring up; each of them may fail. */
  datatype Findings = Findings(
    found: Result<Option<User>>, taken: Result<bool>, others: Result<nat>, holders: Result<nat>)

  /** One write; without a vital one the rest is not attempted. */
  datatype Write = Put(user: User, vital: bool) | Remove(email: string, vital: bool)

  type Plan = Result<seq<Write>>

  function Reads(found: Result<Option<User>>): Option<User> {
    if found.Ok? then found.value else None
  }

  function CheckPassword(w: World, u: User, plain: string): bool {
    u.passwordHash != "" && w.suits(u.passwordHash, plain)
  }

  predicate FitsBcrypt(password: string) {
    8 <= |password| <= 72
  }

  function SecondFactor(w: World, u: User, code: string, at: Time): bool {
    u.totpSecret != "" && w.unseal(u.totpSecret).Some? && w.valid(code, w.unseal(u.totpSecret).value, at)
  }

  function PlanSetup(w: World, u: User, password: string, sealed: string): Plan {
    if u.passwordHash == "" then Err("two-factor auth requires a local password account")
    else if !CheckPassword(w, u, password) then Err("incorrect password")
    else if u.totpEnabled then Err("two-factor auth is already enabled; disable it first")
    else Ok([Put(u.(totpSecret := sealed), true)])
  }

  function PlanConfirm(w: World, u: User, code: string, hashes: seq<string>, at: Time): Plan {
    if u.totpEnabled then Err("two-factor auth is already enabled")
    else if u.totpSecret == "" then Err("start setup first")
    else if w.unseal(u.totpSecret).None? then Err("internal error")
    else if !w.valid(TrimSpace(code), w.unseal(u.totpSecret).value, at) then Err("invalid code")
    else Ok([Put(u.(recovery := hashes, totpEnabled := true), true)])
  }

  function PlanDisable(w: World, u: User, password: string): Plan {
    if !CheckPassword(w, u, password) then Err("incorrect password")
    else Ok([Put(u.(totpEnabled := false, totpSecret := "", recovery := []), true)])
  }

  function PlanRegenerate(w: World, u: User, password: string, hashes: seq<string>): Plan {
    if !u.totpEnabled then Err("two-factor auth is not enabled")
    else if !CheckPassword(w, u, password) then Err("incorrect password")
    else Ok([Put(u.(recovery := hashes), true)])
  }

  function PlanLogin(w: World, found: Option<User>, password: string, code: string, at: Time): Plan {
    if found.None? || !found.value.enabled || !CheckPassword(w, found.value, password) then Err("invalid email or password")
    else
      var u := found.value;
      if !u.totpEnabled then Ok([Put(u.(lastLoginAt := at), false)])
      else if TrimSpace(code) == "" then Ok([])
      else if SecondFactor(w, u, TrimSpace(code), at) then Ok([Put(u.(lastLoginAt := at), false)])
      else if !Accepts(u.recovery, TrimSpace(code), w.suits) then Err("invalid authentication code")
      else
        var used := u.(recovery := Consumed(u.recovery, TrimSpace(code), w.suits));
        Ok([Put(used, false), Put(used.(lastLoginAt := at), false)])
  }

  function PlanChangeEmail(w: World, u: User, newEmail: string, password: string, taken: Result<bool>): Plan {
    var email := Normalize(newEmail);
    if u.passwordHash == "" then Err("changing email requires a local password account")
    else if !CheckPassword(w, u, password) then Err("incorrect password")
    else if email == "" || '@' !in email then Err("a valid email is required")
    else if email == u.email then Ok([])
    else if taken.Err? then Err("internal error")
    else if taken.value then Err("that email is already in use")
    else Ok([Put(u.(email := email), true), Remove(u.email, false)])
  }

  function PlanChangePassword(w: World, u: User, password: string, newPassword: string, hash: string): Plan {
    if u.passwordHash == "" then Err("this account has no password to change")
    else if !CheckPassword(w, u, password) then Err("incorrect password")
    else if !FitsBcrypt(newPassword) then Err("password must be 8-72 characters")
    else Ok([Put(u.(passwordHash := hash), true)])
  }

  function PlanCreate(job: Job, found: Result<Option<User>>): Plan
    requires job.AdminCreate?
  {
    var email := Normalize(job.who);
    var (role, known) := ParseRole(job.roleName);
    if email == "" || '@' !in email then Err("a valid email is required")
    else if job.roleName != "" && !known then Err("role must be admin or user")
    else if found.Err? then Err("internal error")
    else if found.value.Some? then Err("a user with that email already exists")
    else if job.password != "" && !FitsBcrypt(job.password) then Err("password must be 8-72 characters")
    else
      var u := BLANK.(email := email, name := TrimSpace(job.name), role := role,
                      enabled := job.enabled.None? || job.enabled.value);
      Ok([Put(if job.password != "" then u.(passwordHash := job.hash, source := "local") else u.(source := "oidc"), true)])
  }

  /** The record after the first half of an update, name, role and enabled-state. */
  function Patched(u: User, p: Patch): User {
    u.(name := if p.name.Some? then TrimSpace(p.name.value) else u.name,
       role := if p.role.Some? then ParseRole(p.role.value).0 else u.role,
       enabled := if p.enabled.Some? then p.enabled.value else u.enabled)
  }

  function WithPassword(u: User, p: Patch): User {
    if p.password.None? then u
    else if p.password.value == "" then u.(passwordHash := "")
    else u.(passwordHash := p.hash, source := if u.source == "" then "local" else u.source)
  }

  function Revoked(u: User, p: Patch): User {
    var v := if p.clearTotp then u.(totpEnabled := false, totpSecret := "", recovery := []) else u;
    if p.clearPasskeys then v.(passkeys := "", handle := []) else v
  }

  function PlanUpdate(u: User, p: Patch, others: Result<nat>): Plan {
    var next := Patched(u, p);
    var guarded := EnabledAdmin(u) && !EnabledAdmin(next);
    if p.role.Some? && !ParseRole(p.role.value).1 then Err("role must be admin or user")
    else if guarded && others.Err? then Err("internal error")
    else if guarded && others.value == 0 then Err("cannot demote or disable the last enabled admin")
    else if p.password.Some? && p.password.value != "" && !FitsBcrypt(p.password.value) then Err("password must be 8-72 characters")
    else Ok([Put(Revoked(WithPassword(next, p), p), true)])
  }

  function PlanDelete(who: string, u: User, others: Result<nat>): Plan {
    if EnabledAdmin(u) && others.Err? then Err("internal error")
    else if EnabledAdmin(u) && others.value == 0 then Err("cannot delete the last enabled admin")
    else Ok([Remove(who, true)])
  }

  function PlanProvision(job: Job, found: Option<User>): Plan
    requires job.Provision?
  {
    var pinnedNow := job.pinned || (found.Some? && found.value.pinned);
    if found.Some? && !found.value.enabled then Err("user is disabled")
    else if job.granted.None? && !pinnedNow then Err("access denied")
    else
      var u := if found.Some? then found.value
               else BLANK.(email := Normalize(job.who), enabled := true, source := "oidc");
      var v := u.(source := if u.source == "" then "oidc" else u.source, subject := job.subject,
                  name := if job.name != "" then job.name else u.name, lastLoginAt := job.at);
      Ok([Put(if pinnedNow then v.(pinned := true, role := Admin) else v.(role := job.granted.value), true)])
  }

  function PlanCliCreate(job: Job, found: Option<User>): Plan
    requires job.CliCreate?
  {
    var email := Normalize(job.who);
    if email == "" || '@' !in email then Err("a valid email is required")
    else
      var u := if found.Some? then found.value else BLANK.(email := email);
      var v := u.(role := job.role, enabled := true, pinned := job.role == Admin);
      Ok([Put(if job.oidcOnly then v.(source := if v.source == "" then "oidc" else v.source)
              else v.(passwordHash := job.hash, source := "local"), true)])
  }

  /** The command line guards with the number of admins, disabled ones included. */
  predicate LastHolder(u: User, holders: Result<nat>) {
    u.role == Admin && (holders.Err? || holders.value <= 1)
  }

  /** The self-service requests: those a signed-in user makes for himself. */
  predicate ForSelf(job: Job) {
    job.Setup? || job.Confirm? || job.Disable? || job.Regenerate? || job.PasskeyBegin? || job.PasskeyAdd?
    || job.PasskeyDrop? || job.ChangeEmail? || job.ChangePassword?
  }

  function PlanSelf(w: World, job: Job, u: User, taken: Result<bool>): Plan
    requires ForSelf(job)
  {
    match job
    case Setup(_, password, sealed) => PlanSetup(w, u, password, sealed)
    case Confirm(_, code, hashes, at) => PlanConfirm(w, u, code, hashes, at)
    case Disable(_, password) => PlanDisable(w, u, password)
    case Regenerate(_, password, hashes) => PlanRegenerate(w, u, password, hashes)
    case PasskeyBegin(_, password, handle) =>
      if u.passwordHash == "" then Err("passkeys require a local password account")
      else if !CheckPassword(w, u, password) then Err("incorrect password")
      else Ok(if u.handle == [] then [Put(u.(handle := handle), true)] else [])
    case PasskeyAdd(_, passkeys) => Ok([Put(u.(passkeys := passkeys), true)])
    case PasskeyDrop(_, password, passkeys) =>
      if !CheckPassword(w, u, password) then Err("incorrect password") else Ok([Put(u.(passkeys := passkeys), true)])
    case ChangeEmail(_, newEmail, password) => PlanChangeEmail(w, u, newEmail, password, taken)
    case ChangePassword(_, password, newPassword, hash) => PlanChangePassword(w, u, password, newPassword, hash)
  }

  function PlanFor(w: World, job: Job, f: Findings): Plan {
    if job.AdminCreate? then PlanCreate(job, f.found)
    else if f.found.Err? then Err("internal error")
    else
      var found := f.found.value;
      if ForSelf(job) then
        if found.None? || !found.value.enabled then Err("unauthorized") else PlanSelf(w, job, found.value, f.taken)
      else match job
        case Login(_, password, code, at) => PlanLogin(w, found, password, code, at)
        case PasskeyUse(_, passkeys, at) =>
          if found.None? || !found.value.enabled then Err("passkey authentication failed")
          else Ok([Put(found.value.(passkeys := passkeys, lastLoginAt := at), false)])
        case AdminUpdate(_, patch) => if found.None? then Err("user not found") else PlanUpdate(found.value, patch, f.others)
        case AdminDelete(who) => if found.None? then Err("user not found") else PlanDelete(who, found.value, f.others)
        case Provision(_, _, _, _, _, _) => PlanProvision(job, found)
        case CliCreate(_, _, _, _) => PlanCliCreate(job, found)
        case CliSetRole(_, role) =>
          if found.None? then Err("no such user")
          else if role != Admin && LastHolder(found.value, f.holders) then Err("refusing to remove the last admin")
          else Ok([Put(found.value.(role := role, pinned := role == Admin), true)])
        case CliResetPassword(_, hash) =>
          if found.None? then Err("no such user") else Ok([Put(found.value.(passwordHash := hash, source := "local"), true)])
        case CliDelete(who) =>
          if found.None? then Err("no such user")
          else if LastHolder(found.value, f.holders) then Err("refusing to remove the last admin")
          else Ok([Remove(who, true)])
        case Bootstrap(who, hash) =>
          if Normalize(who) == "" || found.Some? then Ok([])
          else Ok([Put(BLANK.(email := Normalize(who), role := Admin, pinned := true, enabled := true, passwordHash := hash,
                              source := if hash != "" then "local" else "oidc"), true)])
  }

  /** What the random source and the generators always deliver. */
  predicate Wellmade(job: Job) {
    && (job.Setup? ==> job.sealed != "")
    && (job.Confirm? || job.Regenerate? ==> |job.hashes| == RECOVERY_CODES)
  }
}
