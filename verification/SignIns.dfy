/** Recovery codes over histories of requests: a code is used up when its use is written, and then it stays so. */
module SignIns {
  import opened Records
  import opened Text
  import opened Recovery
  import opened Users
  import opened Accounts
  import opened Lockout
  import T = TwoFactor

  /** Whom a sign-in lets in: an enabled user with his password and, where it is on, one of his second factors. */
  predicate LetsIn(w: World, u: User, password: string, code: string, at: Time) {
    && u.enabled && CheckPassword(w, u, password)
    && (u.totpEnabled ==>
          TrimSpace(code) != "" && (SecondFactor(w, u, TrimSpace(code), at) || Accepts(u.recovery, TrimSpace(code), w.suits)))
  }

  /** Who is asked for a second factor: he has shown his password, and no code. */
  predicate AskedForCode(w: World, u: User, password: string, code: string) {
    u.enabled && CheckPassword(w, u, password) && u.totpEnabled && TrimSpace(code) == ""
  }

  /** A sign-in that gets past the password and then past the second factor with a recovery code. */
  predicate ByRecovery(w: World, u: User, job: Job)
    requires job.Login?
  {
    && u.enabled && CheckPassword(w, u, job.password) && u.totpEnabled && TrimSpace(job.code) != ""
    && !SecondFactor(w, u, TrimSpace(job.code), job.at) && Accepts(u.recovery, TrimSpace(job.code), w.suits)
  }

  lemma TwoPuts(w: World, rows: Rows, job: Job, env: Env, u: User, v: User)
    requires PlanFor(w, job, Look(rows, job, env)) == Ok([Put(u, false), Put(v, false)])
    ensures var rows1 := if T.Lands(Put(u, false), env.commits(0)) then Upserted(rows, u, env.now) else rows;
      Served(w, rows, job, env) == if T.Lands(Put(v, false), env.commits(1)) then Upserted(rows1, v, env.now) else rows1
  {
    hide PlanFor, Look, Upserted, Normalize;
    var writes: seq<Write> := [Put(u, false), Put(v, false)];
    assert writes[1..] == [Put(v, false)] && writes[1..][1..] == [];
    var rows1 := if T.Lands(Put(u, false), env.commits(0)) then Upserted(rows, u, env.now) else rows;
    assert Perform(rows, writes, 0, env) == Perform(rows1, [Put(v, false)], 1, env);
    assert Perform(Upserted(rows1, v, env.now), [], 2, env) == Upserted(rows1, v, env.now) && Perform(rows1, [], 2, env) == rows1;
  }

  /**
   The sign-in is accepted in any case. The code leaves the record exactly if one of the two writes lands, the one that
   saves its use or the one that notes the login.
   */
  lemma CodeGoesIfWritten(w: World, rows: Rows, job: Job, env: Env)
    requires job.Login? && Keyed(rows) && env.gets
    requires var k := Normalize(job.who); k in rows && rows[k].Row? && ByRecovery(w, rows[k].value, job)
    ensures PlanFor(w, job, Look(rows, job, env)).Ok?
    ensures var k, rows' := Normalize(job.who), Served(w, rows, job, env);
      k in rows' && rows'[k].Row? && rows'[k].value.recovery ==
        if env.commits(0) || env.commits(1) then Consumed(rows[k].value.recovery, TrimSpace(job.code), w.suits)
        else rows[k].value.recovery
  {
    var k := Normalize(job.who);
    var p := rows[k].value;
    var u := p.(recovery := Consumed(p.recovery, TrimSpace(job.code), w.suits));
    var v := u.(lastLoginAt := job.at);
    hide Consumed, Accepts, SecondFactor, TrimSpace;
    assert PlanFor(w, job, Look(rows, job, env)) == Ok([Put(u, false), Put(v, false)]);
    TwoPuts(w, rows, job, env, u, v);
    assert Normalize(u.email) == k && Normalize(v.email) == k && k != "";
    hide PlanFor, Look, Served, Normalize;
  }

  // ---- A used code stays used ----

  /** No hash under the key suits the text. */
  ghost predicate Spent(w: World, rows: Rows, k: string, n: string) {
    k in rows && rows[k].Row? ==> !Suits(rows[k].value.recovery, n, w.suits)
  }

  /** What can bring new codes under an address: enrolment, renewal, and an account that moves there. */
  predicate Renews(job: Job) {
    job.Confirm? || job.Regenerate? || job.ChangeEmail?
  }

  ghost predicate SpentWrites(w: World, writes: seq<Write>, k: string, n: string) {
    forall i :: 0 <= i < |writes| && writes[i].Put? && Normalize(writes[i].user.email) == k ==> !Suits(writes[i].user.recovery, n, w.suits)
  }

  lemma ConsumedFits(hashes: seq<string>, code: string, check: Check, n: string)
    requires !Suits(hashes, n, check)
    ensures !Suits(Consumed(hashes, code, check), n, check)
  {
    if Accepts(hashes, code, check) {
      var i := Match(hashes, NormRecovery(code), check);
      var rest := hashes[..i] + hashes[i + 1..];
      assert forall k :: 0 <= k < |rest| ==> rest[k] == hashes[if k < i then k else k + 1];
      hide Accepts, NormRecovery, Match;
    }
  }

  lemma BlankFits(n: string, check: Check)
    ensures !Suits([], n, check)
  {
  }

  ghost predicate FoundSpent(w: World, found: Option<User>, k: string, n: string) {
    found.Some? && Normalize(found.value.email) == k ==> !Suits(found.value.recovery, n, w.suits)
  }

  lemma SelfSpends(w: World, job: Job, u: User, taken: Result<bool>, k: string, n: string)
    requires ForSelf(job) && !Renews(job) && FoundSpent(w, Some(u), k, n) && PlanSelf(w, job, u, taken).Ok?
    ensures SpentWrites(w, PlanSelf(w, job, u, taken).value, k, n)
  {
    BlankFits(n, w.suits);
    hide Normalize, TrimSpace, Suits;
  }

  lemma LoginSpends(w: World, found: Option<User>, password: string, code: string, at: Time, k: string, n: string)
    requires FoundSpent(w, found, k, n) && PlanLogin(w, found, password, code, at).Ok?
    ensures SpentWrites(w, PlanLogin(w, found, password, code, at).value, k, n)
  {
    if found.Some? && Normalize(found.value.email) == k {
      ConsumedFits(found.value.recovery, TrimSpace(code), w.suits, n);
    }
    hide Normalize, TrimSpace, Suits, Consumed, Accepts;
  }

  lemma UpdateSpends(w: World, u: User, p: Patch, others: Result<nat>, k: string, n: string)
    requires FoundSpent(w, Some(u), k, n) && PlanUpdate(u, p, others).Ok?
    ensures SpentWrites(w, PlanUpdate(u, p, others).value, k, n)
  {
    BlankFits(n, w.suits);
    hide Normalize, TrimSpace, ParseRole, Suits;
  }

  /** Every plan keeps the codes of the record it read, or fewer, or writes none. */
  lemma PlansSpend(w: World, job: Job, f: Findings, k: string, n: string)
    requires PlanFor(w, job, f).Ok? && !Renews(job) && (f.found.Ok? ==> FoundSpent(w, f.found.value, k, n))
    ensures SpentWrites(w, PlanFor(w, job, f).value, k, n)
  {
    if ForSelf(job) {
      SelfSpends(w, job, f.found.value.value, f.taken, k, n);
      hide PlanSelf, SpentWrites;
    } else if job.Login? {
      LoginSpends(w, f.found.value, job.password, job.code, job.at, k, n);
      hide PlanLogin, SpentWrites;
    } else if job.AdminUpdate? {
      UpdateSpends(w, f.found.value.value, job.patch, f.others, k, n);
      hide PlanUpdate, SpentWrites;
    } else {
      BlankFits(n, w.suits);
      hide Normalize, TrimSpace, ParseRole, Suits;
    }
  }

  lemma {:induction false} PerformSpends(w: World, rows: Rows, writes: seq<Write>, i: nat, env: Env, k: string, n: string)
    requires Spent(w, rows, k, n) && SpentWrites(w, writes, k, n)
    ensures Spent(w, Perform(rows, writes, i, env), k, n)
    decreases |writes|
  {
    if writes != [] {
      var rest := writes[1..];
      assert SpentWrites(w, rest, k, n);
      hide Suits;
      if T.Lands(writes[0], env.commits(i)) {
        PerformSpends(w, T.Written(rows, writes[0], env.now), rest, i + 1, env, k, n);
      } else if !writes[0].vital {
        PerformSpends(w, rows, rest, i + 1, env, k, n);
      }
    }
  }

  lemma ServedSpends(w: World, rows: Rows, job: Job, env: Env, k: string, n: string)
    requires Keyed(rows) && !Renews(job) && Spent(w, rows, k, n)
    ensures Spent(w, Served(w, rows, job, env), k, n)
  {
    var f := Look(rows, job, env);
    if PlanFor(w, job, f).Ok? {
      PlansSpend(w, job, f, k, n);
      hide PlanFor, Suits;
      PerformSpends(w, rows, PlanFor(w, job, f).value, 0, env, k, n);
    }
  }

  lemma {:induction false} StaysSpent(w: World, states: seq<Rows>, reqs: Requests, i: nat, j: nat, k: string, n: string)
    requires History(w, states, reqs) && i <= j < |states| && Keyed(states[i]) && Spent(w, states[i], k, n)
    requires forall m :: i <= m < j ==> !Renews(reqs[m].0)
    ensures Keyed(states[j]) && Spent(w, states[j], k, n)
    decreases j
  {
    if i < j {
      hide Keyed, Spent, Served, ServedAt;
      StaysSpent(w, states, reqs, i, j - 1, k, n);
      OneSpends(w, states, reqs, j - 1, k, n);
    }
  }

  lemma OneSpends(w: World, states: seq<Rows>, reqs: Requests, i: nat, k: string, n: string)
    requires History(w, states, reqs) && i < |reqs| && Keyed(states[i]) && Spent(w, states[i], k, n) && !Renews(reqs[i].0)
    ensures Keyed(states[i + 1]) && Spent(w, states[i + 1], k, n)
  {
    assert ServedAt(w, states, reqs, i);
    ServedKeyed(w, states[i], reqs[i].0, reqs[i].1);
    ServedSpends(w, states[i], reqs[i].0, reqs[i].1, k, n);
    hide Keyed, Spent, Served;
  }

  lemma ServedKeyed(w: World, rows: Rows, job: Job, env: Env)
    requires Keyed(rows) && env.now != ZERO_TIME
    ensures Keyed(Served(w, rows, job, env))
  {
    if PlanFor(w, job, Look(rows, job, env)).Ok? {
      hide PlanFor;
      PerformKeyed(rows, PlanFor(w, job, Look(rows, job, env)).value, 0, env);
    }
  }

  /** Whether a sign-in can pass with a recovery code at all, as the bucket stands. */
  ghost predicate Passes(w: World, rows: Rows, job: Job)
    requires job.Login?
  {
    var k := Normalize(job.who); k in rows && rows[k].Row? && ByRecovery(w, rows[k].value, job)
  }

  /**
   In any history of requests: once a sign-in has passed with a recovery code and either of its writes has landed, no
   later sign-in passes with that code in any spelling, until codes are issued anew or an account moves to the address.
   */
  lemma CodeWorksOnce(w: World, states: seq<Rows>, reqs: Requests, i: nat, j: nat)
    requires History(w, states, reqs) && i < j < |reqs| && Keyed(states[i]) && reqs[i].0.Login? && reqs[j].0.Login?
    requires Passes(w, states[i], reqs[i].0) && reqs[i].1.gets && (reqs[i].1.commits(0) || reqs[i].1.commits(1))
    requires Sharp(states[i][Normalize(reqs[i].0.who)].value.recovery, w.suits)
    requires forall m :: i < m < j ==> !Renews(reqs[m].0)
    requires Normalize(reqs[j].0.who) == Normalize(reqs[i].0.who)
    requires NormRecovery(TrimSpace(reqs[j].0.code)) == NormRecovery(TrimSpace(reqs[i].0.code))
    ensures !Passes(w, states[j], reqs[j].0)
  {
    var job, env := reqs[i].0, reqs[i].1;
    var k, n := Normalize(job.who), NormRecovery(TrimSpace(job.code));
    assert ServedAt(w, states, reqs, i);
    CodeGoesIfWritten(w, states[i], job, env);
    ServedKeyed(w, states[i], job, env);
    hide Normalize, NormRecovery, TrimSpace, Keyed, PlanFor, Look, Served, Sharp, Suits, Consumed, SecondFactor, CheckPassword;
    var hashes := states[i][k].value.recovery;
    assert n != "";
    ConsumedSuits(hashes, TrimSpace(job.code), w.suits, n);
    assert Spent(w, states[i + 1], k, n);
    StaysSpent(w, states, reqs, i + 1, j, k, n);
    if Passes(w, states[j], reqs[j].0) {
      AcceptsSuits(states[j][k].value.recovery, TrimSpace(reqs[j].0.code), w.suits);
    }
  }

  lemma AcceptsSuits(hashes: seq<string>, code: string, check: Check)
    requires Accepts(hashes, code, check)
    ensures Suits(hashes, NormRecovery(code), check)
  {
    hide NormRecovery;
  }
}
