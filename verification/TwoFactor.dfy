/**
 What every user record keeps, whichever handlers read it and write it back in whatever order: reads and
 writes of any number of requests interleave, writes fail, processes die, and plans made from records long
 overwritten are still carried out.
 */
module TwoFactor {
  import opened Records
  import opened Text
  import opened Recovery
  import opened Users
  import opened Accounts

  /** A code that proved possession of a sealed secret, when. */
  datatype Confirmation = Confirmation(sealed: string, code: string, at: Time)

  /** The bucket, what is in flight, and, for the record only, the confirmations there have been. */
  datatype State = State(rows: Rows, running: map<nat, seq<Write>>, log: seq<Confirmation>)

  const EMPTY: State := State(map[], map[], [])

  datatype Action =
    | Begin(pid: nat, job: Job, findings: Findings)
    | Go(pid: nat, commits: bool, now: Time)
    | Crash
    | Spoil(key: string)

  function BeginStep(w: World, s: State, pid: nat, job: Job, f: Findings): State {
    match PlanFor(w, job, f)
    case Err(_) => s
    case Ok(writes) => s.(running := s.running[pid := writes], log := s.log + Confirmed(w, job, f))
  }

  function Confirmed(w: World, job: Job, f: Findings): seq<Confirmation> {
    if job.Confirm? && PlanFor(w, job, f).Ok? then [Confirmation(f.found.value.value.totpSecret, TrimSpace(job.code), job.at)] else []
  }

  function Written(rows: Rows, write: Write, now: Time): Rows {
    match write
    case Put(u, _) => Upserted(rows, u, now)
    case Remove(email, _) => rows - {Normalize(email)}
  }

  /** The transaction of a write takes effect; a put without a key is an error of the store. */
  predicate Lands(write: Write, commits: bool) {
    commits && (write.Put? ==> Normalize(write.user.email) != "")
  }

  function GoStep(s: State, pid: nat, commits: bool, now: Time): State
    requires pid in s.running && s.running[pid] != []
  {
    var write, rest := s.running[pid][0], s.running[pid][1..];
    if Lands(write, commits) then s.(rows := Written(s.rows, write, now), running := s.running[pid := rest])
    else s.(running := s.running[pid := if write.vital then [] else rest])
  }

  function Step(w: World, s: State, a: Action): State
    requires a.Go? ==> a.pid in s.running && s.running[a.pid] != []
  {
    match a
    case Begin(pid, job, f) => BeginStep(w, s, pid, job, f)
    case Go(pid, commits, now) => GoStep(s, pid, commits, now)
    case Crash => s.(running := map[])
    case Spoil(key) => s.(rows := s.rows[key := Undecodable])
  }

  /** A request finds the record of its address; a passkey, that of any address. */
  ghost predicate Reflects(rows: Rows, job: Job, found: Result<Option<User>>) {
    found.Ok? && found.value.Some? ==>
      exists k :: k in rows && rows[k] == Row(found.value.value) && (job.PasskeyUse? || k == Normalize(job.who))
  }

  ghost predicate Enabled(w: World, s: State, a: Action) {
    match a
    case Begin(pid, job, f) => pid !in s.running && Wellmade(job) && Reflects(s.rows, job, f.found)
    case Go(pid, _, now) => pid in s.running && s.running[pid] != [] && now != ZERO_TIME
    case Spoil(key) => key in s.rows
    case Crash => true
  }

  ghost predicate IsRun(w: World, states: seq<State>, actions: seq<Action>) {
    && |states| == |actions| + 1
    && states[0] == EMPTY
    && forall i :: 0 <= i < |actions| ==> MovesAt(w, states, actions, i)
  }

  ghost predicate MovesAt(w: World, states: seq<State>, actions: seq<Action>, i: nat)
    requires |states| == |actions| + 1 && i < |actions|
  {
    Enabled(w, states[i], actions[i]) && states[i + 1] == Step(w, states[i], actions[i])
  }

  // ---- The invariant ----

  ghost predicate Proven(w: World, log: seq<Confirmation>, sealed: string) {
    exists i :: 0 <= i < |log| && log[i].sealed == sealed
      && w.unseal(sealed).Some? && w.valid(log[i].code, w.unseal(sealed).value, log[i].at)
  }

  ghost predicate Good(w: World, log: seq<Confirmation>, u: User) {
    && (u.totpEnabled ==> u.totpSecret != "" && Proven(w, log, u.totpSecret))
    && (!u.totpEnabled ==> u.recovery == [])
    && |u.recovery| <= RECOVERY_CODES
  }

  ghost predicate GoodWrites(w: World, log: seq<Confirmation>, writes: seq<Write>) {
    forall i :: 0 <= i < |writes| ==> writes[i].Put? ==> Good(w, log, writes[i].user)
  }

  ghost predicate Inv(w: World, s: State) {
    && (forall k :: k in s.rows && s.rows[k].Row? ==> Good(w, s.log, s.rows[k].value))
    && (forall pid :: pid in s.running ==> GoodWrites(w, s.log, s.running[pid]))
    && Keyed(s.rows)
  }

  lemma GoodLater(w: World, log: seq<Confirmation>, more: seq<Confirmation>, u: User)
    requires Good(w, log, u)
    ensures Good(w, log + more, u)
  {
    if u.totpEnabled {
      var i :| 0 <= i < |log| && log[i].sealed == u.totpSecret && w.valid(log[i].code, w.unseal(u.totpSecret).value, log[i].at);
      assert (log + more)[i] == log[i];
    }
  }

  /** A sign-in shortens the list of codes at most. */
  lemma LoginGood(w: World, log: seq<Confirmation>, found: Option<User>, password: string, code: string, at: Time)
    requires found.Some? ==> Good(w, log, found.value)
    requires PlanLogin(w, found, password, code, at).Ok?
    ensures GoodWrites(w, log, PlanLogin(w, found, password, code, at).value)
  {
  }

  lemma SelfGood(w: World, log: seq<Confirmation>, job: Job, u: User, taken: Result<bool>)
    requires ForSelf(job) && Wellmade(job) && Good(w, log, u) && PlanSelf(w, job, u, taken).Ok?
    ensures GoodWrites(w,
      log + (if job.Confirm? then [Confirmation(u.totpSecret, TrimSpace(job.code), job.at)] else []),
      PlanSelf(w, job, u, taken).value)
  {
    if job.Confirm? {
      var c := Confirmation(u.totpSecret, TrimSpace(job.code), job.at);
      assert (log + [c])[|log|] == c;
      assert Proven(w, log + [c], u.totpSecret);
    } else {
      assert log + [] == log;
    }
  }

  lemma UpdateGood(w: World, log: seq<Confirmation>, u: User, p: Patch, others: Result<nat>)
    requires Good(w, log, u) && PlanUpdate(u, p, others).Ok?
    ensures GoodWrites(w, log, PlanUpdate(u, p, others).value)
  {
    hide ParseRole, TrimSpace, Proven;
  }

  lemma OthersGood(w: World, log: seq<Confirmation>, job: Job, f: Findings)
    requires !ForSelf(job) && f.found.Ok? && (f.found.value.Some? ==> Good(w, log, f.found.value.value))
    requires PlanFor(w, job, f).Ok?
    ensures GoodWrites(w, log, PlanFor(w, job, f).value)
  {
    if job.Login? { LoginGood(w, log, f.found.value, job.password, job.code, job.at); }
    if job.AdminUpdate? { UpdateGood(w, log, f.found.value.value, job.patch, f.others); }
    hide PlanLogin, PlanUpdate, Proven, TrimSpace, Normalize, ParseRole;
  }

  lemma BeginKeeps(w: World, s: State, pid: nat, job: Job, f: Findings)
    requires Inv(w, s) && Enabled(w, s, Begin(pid, job, f))
    ensures Inv(w, BeginStep(w, s, pid, job, f))
  {
    var s' := BeginStep(w, s, pid, job, f);
    if PlanFor(w, job, f).Ok? {
      var more := Confirmed(w, job, f);
      var writes := PlanFor(w, job, f).value;
      if ForSelf(job) {
        SelfGood(w, s.log, job, f.found.value.value, f.taken);
      } else {
        OthersGood(w, s.log, job, f);
        assert more == [] && s.log + more == s.log;
      }
      assert GoodWrites(w, s.log + more, writes);
      hide PlanFor, Good, Confirmed;
      forall k | k in s.rows && s.rows[k].Row? ensures Good(w, s.log + more, s.rows[k].value) {
        GoodLater(w, s.log, more, s.rows[k].value);
      }
      forall p | p in s.running ensures GoodWrites(w, s.log + more, s.running[p]) {
        forall i | 0 <= i < |s.running[p]| && s.running[p][i].Put? ensures Good(w, s.log + more, s.running[p][i].user) {
          GoodLater(w, s.log, more, s.running[p][i].user);
        }
      }
    }
  }

  lemma GoKeeps(w: World, s: State, pid: nat, commits: bool, now: Time)
    requires Inv(w, s) && pid in s.running && s.running[pid] != [] && now != ZERO_TIME
    ensures Inv(w, GoStep(s, pid, commits, now))
  {
    var write := s.running[pid][0];
    if Lands(write, commits) && write.Put? {
      UpsertKeeps(s.rows, write.user, now);
    }
  }

  lemma StepKeeps(w: World, s: State, a: Action)
    requires Inv(w, s) && Enabled(w, s, a)
    ensures Inv(w, Step(w, s, a))
  {
    match a
    case Begin(pid, job, f) => BeginKeeps(w, s, pid, job, f);
    case Go(pid, commits, now) => GoKeeps(w, s, pid, commits, now);
    case Crash =>
    case Spoil(_) =>
  }

  lemma {:induction false} RunInv(w: World, run: seq<State>, actions: seq<Action>, i: nat)
    requires IsRun(w, run, actions) && i < |run|
    ensures Inv(w, run[i])
    decreases i
  {
    if i > 0 {
      RunInv(w, run, actions, i - 1);
      assert MovesAt(w, run, actions, i - 1);
      StepKeeps(w, run[i - 1], actions[i - 1]);
    }
  }

  /**
   At every moment, in every record: two-factor sign-in is on only with a sealed secret for which a valid code was
   shown; while it is off there are no recovery codes; and there are never more than ten.
   */
  lemma TwoFactorHolds(w: World, run: seq<State>, actions: seq<Action>, i: nat, k: string)
    requires IsRun(w, run, actions) && i < |run| && k in run[i].rows && run[i].rows[k].Row?
    ensures var u := run[i].rows[k].value;
      && (u.totpEnabled ==> u.totpSecret != "" && Proven(w, run[i].log, u.totpSecret))
      && (!u.totpEnabled ==> u.recovery == [])
      && |u.recovery| <= 10
  {
    RunInv(w, run, actions, i);
  }

  /** And each lies under its own normalized address. */
  lemma KeyedHolds(w: World, run: seq<State>, actions: seq<Action>, i: nat)
    requires IsRun(w, run, actions) && i < |run|
    ensures Keyed(run[i].rows)
  {
    RunInv(w, run, actions, i);
  }
}
