/**
 The two promises about user records that hold one request after the other, an enabled admin and recovery codes that
 work once, when requests overlap: the steps that break them, exactly, in every run of reads and writes that
 interleave. A guard asks before the write, and a plan carries whole records, so what counts is the write that lands
 and the bucket it lands on.
 */
module Overlap {
  import opened Records
  import opened Text
  import opened Recovery
  import opened Users
  import opened Accounts
  import opened Lockout
  import I = SignIns
  import T = TwoFactor

  /** The write that this step carries out. */
  function Landing(s: T.State, a: T.Action): Option<Write> {
    if a.Go? && a.pid in s.running && s.running[a.pid] != [] && T.Lands(s.running[a.pid][0], a.commits)
    then Some(s.running[a.pid][0]) else None
  }

  /** Only a write that lands, or a row that stops decoding, changes the bucket. */
  lemma StepRows(w: World, s: T.State, a: T.Action)
    requires T.Enabled(w, s, a)
    ensures T.Step(w, s, a).rows ==
      if Landing(s, a).Some? then T.Written(s.rows, Landing(s, a).value, a.now)
      else if a.Spoil? then s.rows[a.key := Undecodable] else s.rows
  {
    hide PlanFor, T.Written, T.Reflects, T.Lands, Wellmade;
  }

  // ---- Somebody is left ----

  /** Written onto these rows it makes an enabled admin, or there is one under another key. */
  predicate SparesAdmin(rows: Rows, write: Write) {
    match write
    case Put(u, _) => EnabledAdmin(u) || OtherAdmins(rows, Normalize(u.email)) != {}
    case Remove(email, _) => OtherAdmins(rows, Normalize(email)) != {}
  }

  /** The step leaves an enabled admin: what it writes does, or the row it spoils is not the last one. */
  predicate Spares(s: T.State, a: T.Action) {
    && (Landing(s, a).Some? ==> SparesAdmin(s.rows, Landing(s, a).value))
    && (a.Spoil? ==> OtherAdmins(s.rows, a.key) != {})
  }

  lemma WriteSpares(rows: Rows, write: Write, now: Time)
    requires Keyed(rows)
    ensures HasAdmin(T.Written(rows, write, now)) <==> SparesAdmin(rows, write)
  {
    match write
    case Put(u, _) =>
      PutKeepsAdmin(rows, u, now, Normalize(u.email));
      OtherIsElsewhere(rows, Normalize(u.email));
      hide Normalize, Upserted, OtherAdmins;
    case Remove(email, _) =>
      OtherIsElsewhere(rows, Normalize(email));
      LosesRow(rows, rows - {Normalize(email)}, Normalize(email));
      hide Normalize, OtherAdmins;
  }

  /** Without the row under the key, an enabled admin is one under another. */
  lemma LosesRow(rows: Rows, rows': Rows, k: string)
    requires k in rows' ==> rows'[k].Undecodable?
    requires forall o :: o != k ==> (o in rows <==> o in rows') && (o in rows ==> rows'[o] == rows[o])
    ensures HasAdmin(rows') <==> exists o :: o != k && o in rows && rows[o].Row? && EnabledAdmin(rows[o].value)
  {
    if HasAdmin(rows') {
      var o :| o in rows' && rows'[o].Row? && EnabledAdmin(rows'[o].value);
      assert o != k && o in rows;
    }
    forall o | o != k && o in rows && rows[o].Row? && EnabledAdmin(rows[o].value) ensures HasAdmin(rows') {
      assert o in rows' && rows'[o] == rows[o];
    }
  }

  lemma StepSpares(w: World, s: T.State, a: T.Action)
    requires T.Enabled(w, s, a) && Keyed(s.rows) && HasAdmin(s.rows)
    ensures HasAdmin(T.Step(w, s, a).rows) <==> Spares(s, a)
  {
    StepRows(w, s, a);
    hide T.Step, T.Enabled, Landing;
    if Landing(s, a).Some? {
      WriteSpares(s.rows, Landing(s, a).value, a.now);
    }
    if a.Spoil? {
      OtherIsElsewhere(s.rows, a.key);
      LosesRow(s.rows, s.rows[a.key := Undecodable], a.key);
    }
  }

  /**
   In every interleaving: from a moment with an enabled admin on there is one at every moment exactly if every write
   that lands, and every row that is spoiled, meanwhile spares one on the bucket it meets.
   */
  lemma {:induction false} AdminsThrough(w: World, run: seq<T.State>, actions: seq<T.Action>, i: nat, j: nat)
    requires T.IsRun(w, run, actions) && i <= j < |run| && HasAdmin(run[i].rows)
    ensures (forall m :: i <= m <= j ==> HasAdmin(run[m].rows)) <==> forall m :: i <= m < j ==> Spares(run[m], actions[m])
    decreases j
  {
    if i < j {
      AdminsThrough(w, run, actions, i, j - 1);
      assert T.MovesAt(w, run, actions, j - 1);
      T.KeyedHolds(w, run, actions, j - 1);
      hide T.Step, T.Enabled, HasAdmin, Spares, Keyed;
      if HasAdmin(run[j - 1].rows) {
        StepSpares(w, run[j - 1], actions[j - 1]);
      }
    }
  }

  lemma {:induction false} NothingLands(rows: Rows, writes: seq<Write>, i: nat, env: Env)
    requires forall n :: n >= i ==> !env.commits(n)
    ensures Perform(rows, writes, i, env) == rows
    decreases |writes|
  {
    if writes != [] && !writes[0].vital {
      NothingLands(rows, writes[1..], i + 1, env);
    }
  }

  /** The guards of the console do see to it for the bucket they looked at: what fails to spare is a plan from an older one. */
  lemma FreshSpares(w: World, rows: Rows, job: Job, env: Env)
    requires Console(job) && Keyed(rows) && HasAdmin(rows)
    requires var plan := PlanFor(w, job, Look(rows, job, env)); plan.Ok? && plan.value != [] && T.Lands(plan.value[0], true)
    ensures SparesAdmin(rows, PlanFor(w, job, Look(rows, job, env)).value[0])
  {
    var writes := PlanFor(w, job, Look(rows, job, env)).value;
    var once := env.(commits := n => n == 0, now := 2);
    assert Look(rows, job, once) == Look(rows, job, env);
    ConsoleServed(w, rows, job, once);
    hide PlanFor, Look, Keyed, HasAdmin, Console, SparesAdmin;
    NothingLands(T.Written(rows, writes[0], 2), writes[1..], 1, once);
    assert Served(w, rows, job, once) == T.Written(rows, writes[0], 2);
    WriteSpares(rows, writes[0], 2);
  }

  // ---- A used code stays used ----

  /** The step writes a record under the key with a hash that suits the text: planned, perhaps, before the code was used. */
  ghost predicate Restores(w: World, s: T.State, a: T.Action, k: string, n: string) {
    var write := Landing(s, a);
    write.Some? && write.value.Put? && Normalize(write.value.user.email) == k && Suits(write.value.user.recovery, n, w.suits)
  }

  lemma StepSpends(w: World, s: T.State, a: T.Action, k: string, n: string)
    requires T.Enabled(w, s, a) && I.Spent(w, s.rows, k, n)
    ensures I.Spent(w, T.Step(w, s, a).rows, k, n) <==> !Restores(w, s, a, k, n)
  {
    StepRows(w, s, a);
    hide T.Step, T.Enabled, Landing, Normalize, Suits;
  }

  /**
   In every interleaving: a text that suits no code under the key suits none at any later moment exactly if no record
   with one that it suits is written under the key meanwhile.
   */
  lemma {:induction false} SpentThrough(w: World, run: seq<T.State>, actions: seq<T.Action>, i: nat, j: nat, k: string, n: string)
    requires T.IsRun(w, run, actions) && i <= j < |run| && I.Spent(w, run[i].rows, k, n)
    ensures (forall m :: i <= m <= j ==> I.Spent(w, run[m].rows, k, n)) <==> forall m :: i <= m < j ==> !Restores(w, run[m], actions[m], k, n)
    decreases j
  {
    if i < j {
      SpentThrough(w, run, actions, i, j - 1, k, n);
      assert T.MovesAt(w, run, actions, j - 1);
      hide T.Step, T.Enabled, I.Spent, Restores;
      if I.Spent(w, run[j - 1].rows, k, n) {
        StepSpends(w, run[j - 1], actions[j - 1], k, n);
      }
    }
  }

  /** What is left to pass with where a code is spent, and where it is not. */
  lemma AcceptedUnspent(w: World, rows: Rows, k: string, code: string)
    requires k in rows && rows[k].Row?
    ensures Accepts(rows[k].value.recovery, code, w.suits) <==>
      NormRecovery(code) != "" && !I.Spent(w, rows, k, NormRecovery(code))
  {
    hide NormRecovery;
  }

  /** It writes a record of the address in which no hash suits the text. */
  ghost predicate Spends(w: World, write: Write, email: string, n: string) {
    write.Put? && write.user.email == email && !Suits(write.user.recovery, n, w.suits)
  }

  /** Both writes of a sign-in with a recovery code carry a record that no longer has it. */
  lemma BothSpend(w: World, job: Job, f: Findings)
    requires job.Login? && f.found.Ok? && f.found.value.Some? && I.ByRecovery(w, f.found.value.value, job)
    requires Sharp(f.found.value.value.recovery, w.suits)
    ensures PlanFor(w, job, f).Ok? && |PlanFor(w, job, f).value| == 2
    ensures forall i :: 0 <= i < 2 ==> Spends(w, PlanFor(w, job, f).value[i], f.found.value.value.email, NormRecovery(TrimSpace(job.code)))
  {
    var n := NormRecovery(TrimSpace(job.code));
    ConsumedSuits(f.found.value.value.recovery, TrimSpace(job.code), w.suits, n);
    hide NormRecovery, TrimSpace, Consumed, SecondFactor, CheckPassword, Suits, Sharp;
  }

  /**
   A recovery code over a run in which requests overlap. From the step on that writes a record without it, a sign-in
   passes with the code, in any spelling, only after a record that still had it was written back.
   */
  lemma CodeComesBack(w: World, run: seq<T.State>, actions: seq<T.Action>, i: nat, j: nat, job: Job)
    requires T.IsRun(w, run, actions) && i < j < |run| && job.Login?
    requires var write := Landing(run[i], actions[i]);
      write.Some? && write.value.Put? && Normalize(write.value.user.email) == Normalize(job.who)
      && !Suits(write.value.user.recovery, NormRecovery(TrimSpace(job.code)), w.suits)
    requires I.Passes(w, run[j].rows, job)
    ensures exists m :: i < m < j && Restores(w, run[m], actions[m], Normalize(job.who), NormRecovery(TrimSpace(job.code)))
  {
    var k, n := Normalize(job.who), NormRecovery(TrimSpace(job.code));
    assert T.MovesAt(w, run, actions, i);
    StepRows(w, run[i], actions[i]);
    assert I.Spent(w, run[i + 1].rows, k, n);
    SpentThrough(w, run, actions, i + 1, j, k, n);
    AcceptedUnspent(w, run[j].rows, k, TrimSpace(job.code));
    hide T.Step, T.Enabled, Restores, Landing, NormRecovery, TrimSpace, Normalize;
  }
}
