/**
 Buckets of users, each one that the console itself comes to, on which the guards do not hold, where their conditions
 say they need not.
 */
module UserWitnesses {
  import opened Records
  import opened Text
  import opened Recovery
  import opened Users
  import opened Accounts
  import opened Lockout
  import I = SignIns
  import T = TwoFactor

  ghost predicate Reachable(w: World, s: T.State) {
    exists run, actions :: T.IsRun(w, run, actions) && run[|actions|] == s
  }

  lemma EmptyReachable(w: World)
    ensures Reachable(w, T.EMPTY)
  {
    assert T.IsRun(w, [T.EMPTY], []);
  }

  lemma Goes(w: World, s: T.State, a: T.Action, t: T.State)
    requires Reachable(w, s) && T.Enabled(w, s, a) && t == T.Step(w, s, a)
    ensures Reachable(w, t)
  {
    hide T.Enabled, T.Step;
    var run, actions :| T.IsRun(w, run, actions) && run[|actions|] == s;
    var run', actions' := run + [t], actions + [a];
    forall i: nat | i < |actions'| ensures T.MovesAt(w, run', actions', i) {
      if i < |actions| { assert T.MovesAt(w, run, actions, i); }
    }
    assert T.IsRun(w, run', actions') && run'[|actions'|] == t;
  }

  const A: string := "a@x"
  const B: string := "b@x"
  const PASS: string := "password"

  lemma Plain(s: string)
    requires s in {"a@x", "b@x"}
    ensures Normalize(s) == s && '@' in s
  {
    TrimSpaceTrims(s);
    assert ToLower(s) == s;
    assert s[1] == '@';
  }

  function UserAt(email: string, role: Role, local: bool, enabled: bool): User {
    BLANK.(email := email, role := role, source := if local then "local" else "oidc",
           passwordHash := if local then PASS else "", enabled := enabled, createdAt := 1, updatedAt := 1)
  }

  /** Everything commits. */
  const SMOOTH: Env := Env(true, true, _ => true, 2)

  /** A request whose plan is known starts. */
  lemma Begins(w: World, s: T.State, pid: nat, job: Job, writes: seq<Write>, more: seq<T.Confirmation>, t: T.State)
    requires Reachable(w, s) && pid !in s.running && Wellmade(job)
    requires var f := Look(s.rows, job, SMOOTH);
      PlanFor(w, job, f) == Ok(writes) && T.Reflects(s.rows, job, f.found) && T.Confirmed(w, job, f) == more
    requires t == s.(running := s.running[pid := writes], log := s.log + more)
    ensures Reachable(w, t)
  {
    var f := Look(s.rows, job, SMOOTH);
    hide PlanFor, Look, T.Confirmed, T.Reflects, Reachable, Wellmade;
    assert T.Step(w, s, T.Begin(pid, job, f)) == t;
    Goes(w, s, T.Begin(pid, job, f), t);
  }

  lemma Puts(w: World, s: T.State, pid: nat, now: Time, u: User, vital: bool, rest: seq<Write>, t: T.State)
    requires Reachable(w, s) && pid in s.running && s.running[pid] == [Put(u, vital)] + rest
    requires Normalize(u.email) != "" && now != ZERO_TIME
    requires t == s.(rows := Upserted(s.rows, u, now), running := s.running[pid := rest])
    ensures Reachable(w, t)
  {
    hide Upserted, Normalize, Reachable;
    assert s.running[pid][0] == Put(u, vital) && s.running[pid][1..] == rest;
    assert T.Step(w, s, T.Go(pid, true, now)) == t;
    Goes(w, s, T.Go(pid, true, now), t);
  }

  lemma Deletes(w: World, s: T.State, pid: nat, who: string, t: T.State)
    requires Reachable(w, s) && pid in s.running && s.running[pid] == [Remove(who, true)] && Normalize(who) == who
    requires t == s.(rows := s.rows - {who}, running := s.running[pid := []])
    ensures Reachable(w, t)
  {
    hide Normalize, Reachable;
    assert s.running[pid][0] == Remove(who, true) && s.running[pid][1..] == [];
    assert T.Step(w, s, T.Go(pid, true, 2)) == t;
    Goes(w, s, T.Go(pid, true, 2), t);
  }

  /** A request that writes one record, from its start to a restart of the server. */
  lemma Writes(w: World, s: T.State, job: Job, u: User, more: seq<T.Confirmation>)
    requires Reachable(w, s) && s.running == map[] && Wellmade(job) && Normalize(u.email) != ""
    requires var f := Look(s.rows, job, SMOOTH);
      PlanFor(w, job, f) == Ok([Put(u, true)]) && T.Reflects(s.rows, job, f.found) && T.Confirmed(w, job, f) == more
    ensures Reachable(w, T.State(Upserted(s.rows, u, 1), map[], s.log + more))
  {
    hide PlanFor, Look, T.Reflects, T.Confirmed, Upserted, Normalize, Reachable, Wellmade;
    var s1 := T.State(s.rows, map[0 := [Put(u, true)]], s.log + more);
    Begins(w, s, 0, job, [Put(u, true)], more, s1);
    assert [Put(u, true)] + [] == [Put(u, true)];
    var s2 := T.State(Upserted(s.rows, u, 1), map[0 := []], s.log + more);
    Puts(w, s1, 0, 1, u, true, [], s2);
    Restarts(w, s2);
  }

  /** The plan of a request is known, and it confirms nothing. */
  ghost predicate Plans(w: World, rows: Rows, job: Job, writes: seq<Write>) {
    && Wellmade(job) && !job.Confirm?
    && PlanFor(w, job, Look(rows, job, SMOOTH)) == Ok(writes) && T.Reflects(rows, job, Look(rows, job, SMOOTH).found)
  }

  /** Two requests read before either writes. */
  lemma TwoBegin(w: World, s: T.State, job: Job, writes: seq<Write>, other: Job, others: seq<Write>)
    requires Reachable(w, s) && s.running == map[] && Plans(w, s.rows, job, writes) && Plans(w, s.rows, other, others)
    ensures Reachable(w, s.(running := map[0 := writes]))
    ensures Reachable(w, s.(running := map[0 := writes, 1 := others]))
  {
    hide PlanFor, Look, T.Reflects, Reachable, Wellmade;
    Begins(w, s, 0, job, writes, [], s.(running := map[0 := writes]));
    Begins(w, s.(running := map[0 := writes]), 1, other, others, [], s.(running := map[0 := writes, 1 := others]));
  }

  lemma Restarts(w: World, s: T.State)
    requires Reachable(w, s)
    ensures Reachable(w, s.(running := map[]))
  {
    Goes(w, s, T.Crash, s.(running := map[]));
  }

  lemma RolesRead()
    ensures ParseRole("admin") == (Admin, true) && ParseRole("user") == (Member, true) && TrimSpace("") == ""
  {
    TrimSpaceTrims("admin");
    TrimSpaceTrims("user");
    assert ToLower("admin") == "admin" && ToLower("user") == "user";
  }

  function Creation(who: string, role: Role, local: bool, enabled: bool): Job {
    AdminCreate(who, "", if role == Admin then "admin" else "user", if local then PASS else "", PASS, Some(enabled))
  }

  /** The record a creation plans for a free address. */
  function Created(who: string, role: Role, local: bool, enabled: bool): User {
    UserAt(who, role, local, enabled).(createdAt := ZERO_TIME, updatedAt := ZERO_TIME)
  }

  lemma CreationPlan(job: Job, role: Role)
    requires job.AdminCreate? && Normalize(job.who) == job.who && '@' in job.who && ParseRole(job.roleName) == (role, true)
    requires job.name == "" && job.enabled.Some? && (job.password == "" || FitsBcrypt(job.password))
    ensures PlanCreate(job, Ok(None)).Ok? && PlanCreate(job, Ok(None)).value == [Put(Fresh(job, role), true)]
  {
    assert job.who != "";
    assert TrimSpace("") == "";
    hide Normalize, ParseRole, TrimSpace;
  }

  function Fresh(job: Job, role: Role): User
    requires job.AdminCreate? && job.enabled.Some?
  {
    var u := BLANK.(email := job.who, role := role, enabled := job.enabled.value);
    if job.password != "" then u.(passwordHash := job.hash, source := "local") else u.(source := "oidc")
  }

  lemma CreationPlanned(w: World, rows: Rows, who: string, role: Role, local: bool, enabled: bool)
    requires who in {A, B} && who !in rows
    ensures var job := Creation(who, role, local, enabled);
      var f := Look(rows, job, SMOOTH);
      && PlanFor(w, job, f) == Ok([Put(Created(who, role, local, enabled), true)])
      && T.Reflects(rows, job, f.found) && T.Confirmed(w, job, f) == []
  {
    Plain(who);
    RolesRead();
    hide Normalize, PlanCreate, HoldersFound, ParseRole, TrimSpace;
    CreationPlan(Creation(who, role, local, enabled), role);
    assert Fresh(Creation(who, role, local, enabled), role) == Created(who, role, local, enabled);
  }

  /** An administrator creates a user. */
  lemma Creates(w: World, s: T.State, who: string, role: Role, local: bool, enabled: bool)
    requires Reachable(w, s) && s.running == map[] && who in {A, B} && who !in s.rows
    ensures Reachable(w, s.(rows := s.rows[who := Row(UserAt(who, role, local, enabled))]))
  {
    CreationPlanned(w, s.rows, who, role, local, enabled);
    Plain(who);
    var u := Created(who, role, local, enabled);
    hide PlanFor, Look, T.Reflects, T.Confirmed, Normalize;
    Writes(w, s, Creation(who, role, local, enabled), u, []);
    assert Upserted(s.rows, u, 1) == s.rows[who := Row(UserAt(who, role, local, enabled))];
    assert s.log + [] == s.log;
  }

  /** Two users, and nothing in flight. */
  function Pair(a: User, b: User): T.State {
    T.State(map[A := Row(a), B := Row(b)], map[], [])
  }

  lemma PairReachable(w: World, role: Role, local: bool, enabled: bool)
    ensures Reachable(w, Pair(UserAt(A, role, local, true), UserAt(B, Admin, false, enabled)))
    ensures Reachable(w, T.State(map[A := Row(UserAt(A, role, local, true))], map[], []))
  {
    EmptyReachable(w);
    hide UserAt;
    var a, b := UserAt(A, role, local, true), UserAt(B, Admin, false, enabled);
    Creates(w, T.EMPTY, A, role, local, true);
    var one := T.State(map[A := Row(a)], map[], []);
    assert T.EMPTY.(rows := T.EMPTY.rows[A := Row(a)]) == one;
    Creates(w, one, B, Admin, false, enabled);
    assert one.(rows := one.rows[B := Row(b)]) == Pair(a, b);
  }

  // ---- One request ----

  /** One enabled admin, and one who is disabled. */
  const ONE_ENABLED: Rows := map[A := Row(UserAt(A, Admin, false, true)), B := Row(UserAt(B, Admin, false, false))]

  lemma OneEnabledIs(w: World)
    ensures Reachable(w, T.State(ONE_ENABLED, map[], []))
    ensures Keyed(ONE_ENABLED) && HasAdmin(ONE_ENABLED)
    ensures OtherAdmins(ONE_ENABLED, A) == {} && |Holders(ONE_ENABLED, Admin)| == 2
    ensures Found(ONE_ENABLED, A) == Ok(Some(UserAt(A, Admin, false, true))) && Normalize(A) == A
  {
    Plain(A);
    Plain(B);
    assert A in ONE_ENABLED && EnabledAdmin(ONE_ENABLED[A].value);
    assert Holders(ONE_ENABLED, Admin) == {A, B};
    PairReachable(w, Admin, false, false);
    hide Reachable;
  }

  /** A sign-on whose groups make the last enabled admin a user locks everybody out. */
  lemma SignOnLocksOut(w: World)
    ensures Reachable(w, T.State(ONE_ENABLED, map[], []))
    ensures HasAdmin(ONE_ENABLED) && !HasAdmin(Served(w, ONE_ENABLED, Provision(A, "s", "n", Some(Member), false, 2), SMOOTH))
  {
    OneEnabledIs(w);
    hide Served, Reachable, Keyed, HasAdmin, Normalize, OtherAdmins, Found, Holders;
    SignOnKeepsAdmin(w, ONE_ENABLED, Provision(A, "s", "n", Some(Member), false, 2), SMOOTH);
  }

  /** So does setting his role from the command line, which counts the disabled admin in its favour. */
  lemma SetRoleLocksOut(w: World)
    ensures Reachable(w, T.State(ONE_ENABLED, map[], []))
    ensures HasAdmin(ONE_ENABLED) && !HasAdmin(Served(w, ONE_ENABLED, CliSetRole(A, Member), SMOOTH))
  {
    OneEnabledIs(w);
    hide Served, Reachable, Keyed, HasAdmin, Normalize, OtherAdmins, Found, Holders;
    SetRoleKeepsAdmin(w, ONE_ENABLED, CliSetRole(A, Member), SMOOTH);
  }

  /** So does deleting him there. */
  lemma CliDeleteLocksOut(w: World)
    ensures Reachable(w, T.State(ONE_ENABLED, map[], []))
    ensures HasAdmin(ONE_ENABLED) && !HasAdmin(Served(w, ONE_ENABLED, CliDelete(A), SMOOTH))
  {
    OneEnabledIs(w);
    hide Served, Reachable, Keyed, HasAdmin, Normalize, OtherAdmins, Found, Holders;
    CliDeleteKeepsAdmin(w, ONE_ENABLED, CliDelete(A), SMOOTH);
  }

  /** And so does creating a user under his address, with no second admin around at all. */
  lemma CliCreateLocksOut(w: World)
    ensures var rows: Rows := map[A := Row(UserAt(A, Admin, false, true))];
      && Reachable(w, T.State(rows, map[], []))
      && HasAdmin(rows) && !HasAdmin(Served(w, rows, CliCreate(A, Member, true, ""), SMOOTH))
  {
    var rows: Rows := map[A := Row(UserAt(A, Admin, false, true))];
    PairReachable(w, Admin, false, true);
    Plain(A);
    assert A in rows && EnabledAdmin(rows[A].value);
    assert OtherAdmins(rows, A) == {};
    hide Served, Reachable, OtherAdmins, Normalize, HoldersFound, OthersFound;
    CliCreateKeepsAdmin(w, rows, CliCreate(A, Member, true, ""), SMOOTH);
  }

  // ---- Requests that overlap: two guards pass ----

  /** Two enabled admins, each of whom is about to delete the other. */
  const BOTH: Rows := map[A := Row(UserAt(A, Admin, false, true)), B := Row(UserAt(B, Admin, false, true))]
  const CALM: T.State := T.State(BOTH, map[], [])
  const SECOND: T.State := CALM.(running := map[0 := [Remove(A, true)], 1 := [Remove(B, true)]])
  const THIRD: T.State := SECOND.(rows := BOTH - {A}, running := map[0 := [], 1 := [Remove(B, true)]])
  const LAST: T.State := SECOND.(rows := BOTH - {A} - {B}, running := map[0 := [], 1 := []])

  lemma BothOthers()
    ensures OtherAdmins(BOTH, A) == {B} && OtherAdmins(BOTH, B) == {A}
  {
  }

  lemma BothAre(w: World, who: string)
    requires who in {A, B}
    ensures Plans(w, BOTH, AdminDelete(who), [Remove(who, true)])
  {
    Plain(A);
    Plain(B);
    BothOthers();
    hide OtherAdmins, HoldersFound, Normalize;
    assert Found(BOTH, who) == Ok(Some(UserAt(who, Admin, false, true)));
    assert who in BOTH && BOTH[who] == Row(UserAt(who, Admin, false, true));
  }

  lemma BothGuardsPass(w: World)
    requires Reachable(w, CALM)
    ensures Reachable(w, SECOND)
  {
    BothAre(w, A);
    BothAre(w, B);
    hide Plans, Reachable;
    TwoBegin(w, CALM, AdminDelete(A), [Remove(A, true)], AdminDelete(B), [Remove(B, true)]);
  }

  lemma BothDelete(w: World)
    requires Reachable(w, SECOND)
    ensures Reachable(w, LAST)
  {
    Plain(A);
    Plain(B);
    hide Normalize, Reachable;
    Deletes(w, SECOND, 0, A, THIRD);
    Deletes(w, THIRD, 1, B, LAST);
  }

  /** Both deletions read before either writes; each finds the other admin, both pass the guard, and nobody is left. */
  lemma TwoDeletionsLockOut(w: World)
    ensures Reachable(w, SECOND) && Reachable(w, LAST)
    ensures HasAdmin(SECOND.rows) && !HasAdmin(LAST.rows)
  {
    PairReachable(w, Admin, false, true);
    hide Reachable;
    BothGuardsPass(w);
    BothDelete(w);
    assert A in BOTH && EnabledAdmin(BOTH[A].value);
  }

  // ---- One guard passes, and an old record comes back ----

  const YOUNG: User := UserAt(A, Member, true, true)
  const ELDER: User := UserAt(B, Admin, false, true)
  const RAISED: User := YOUNG.(role := Admin, updatedAt := 2)
  const RAISE: Patch := Patch(None, Some("admin"), None, None, "", false, false)
  const OWN: seq<Write> := [Put(YOUNG.(passkeys := "k"), true)]

  const D0: T.State := Pair(YOUNG, ELDER)
  const D2: T.State := D0.(running := map[0 := OWN, 1 := [Put(YOUNG.(role := Admin), true)]])
  const D3: T.State := Pair(RAISED, ELDER).(running := map[0 := OWN, 1 := []])
  const D4: T.State := D3.(running := map[0 := OWN, 1 := [], 2 := [Remove(B, true)]])
  const D5: T.State := D4.(rows := map[A := Row(RAISED)], running := map[0 := OWN, 1 := [], 2 := []])
  const D6: T.State := D5.(rows := map[A := Row(YOUNG.(passkeys := "k", updatedAt := 2))], running := map[0 := [], 1 := [], 2 := []])

  lemma YoungFound(job: Job)
    requires job.who == A && (job.PasskeyAdd? || job.AdminUpdate?)
    ensures Look(D0.rows, job, SMOOTH).found == Ok(Some(YOUNG)) && T.Reflects(D0.rows, job, Ok(Some(YOUNG)))
  {
    Plain(A);
    hide TakenFound, OthersFound, HoldersFound, Normalize;
    assert A in D0.rows && D0.rows[A] == Row(YOUNG);
  }

  lemma YoungPlans(w: World)
    ensures Plans(w, D0.rows, PasskeyAdd(A, "k"), OWN)
    ensures Plans(w, D0.rows, AdminUpdate(A, RAISE), [Put(YOUNG.(role := Admin), true)])
  {
    YoungFound(PasskeyAdd(A, "k"));
    YoungFound(AdminUpdate(A, RAISE));
    RolesRead();
    hide ParseRole, TrimSpace, Look, T.Reflects;
  }

  lemma ElderPlan(w: World)
    ensures PlanFor(w, AdminDelete(B), Look(D3.rows, AdminDelete(B), SMOOTH)) == Ok([Remove(B, true)])
    ensures T.Reflects(D3.rows, AdminDelete(B), Look(D3.rows, AdminDelete(B), SMOOTH).found)
  {
    Plain(B);
    assert OtherAdmins(D3.rows, B) == {A};
    hide Normalize, HoldersFound, OtherAdmins;
    assert Found(D3.rows, B) == Ok(Some(ELDER));
    assert B in D3.rows && D3.rows[B] == Row(ELDER);
  }

  lemma YoungBegins(w: World)
    requires Reachable(w, D0)
    ensures Reachable(w, D2)
  {
    YoungPlans(w);
    hide Plans, Reachable;
    TwoBegin(w, D0, PasskeyAdd(A, "k"), OWN, AdminUpdate(A, RAISE), [Put(YOUNG.(role := Admin), true)]);
  }

  lemma YoungRaised(w: World)
    requires Reachable(w, D2)
    ensures Reachable(w, D3)
  {
    Plain(A);
    assert Upserted(D2.rows, YOUNG.(role := Admin), 2) == D3.rows;
    assert [Put(YOUNG.(role := Admin), true)] + [] == [Put(YOUNG.(role := Admin), true)];
    hide Upserted, Reachable, Normalize;
    Puts(w, D2, 1, 2, YOUNG.(role := Admin), true, [], D3);
  }

  lemma ElderAsked(w: World)
    requires Reachable(w, D3)
    ensures Reachable(w, D4)
  {
    ElderPlan(w);
    hide PlanFor, Look, T.Reflects, Reachable;
    Begins(w, D3, 2, AdminDelete(B), [Remove(B, true)], [], D4);
  }

  lemma ElderGone(w: World)
    requires Reachable(w, D4)
    ensures Reachable(w, D5)
  {
    Plain(B);
    hide Normalize, Reachable;
    assert D4.rows - {B} == D5.rows;
    Deletes(w, D4, 2, B, D5);
  }

  lemma OwnWritten(w: World)
    requires Reachable(w, D5)
    ensures Reachable(w, D6)
  {
    Plain(A);
    assert Upserted(D5.rows, YOUNG.(passkeys := "k"), 2) == D6.rows;
    assert OWN + [] == OWN;
    hide Upserted, Normalize, Reachable;
    Puts(w, D5, 0, 2, YOUNG.(passkeys := "k"), true, [], D6);
  }

  /**
   A user adds a passkey; before his record is written he is made an admin, and the other admin, whose deletion the guard
   lets pass, goes. What is then written is the record from before, and nobody is left: with one guarded write only.
   */
  lemma OldRecordLocksOut(w: World)
    ensures Reachable(w, D3) && Reachable(w, D6)
    ensures HasAdmin(D3.rows) && !HasAdmin(D6.rows)
  {
    PairReachable(w, Member, true, true);
    hide Reachable;
    YoungBegins(w);
    YoungRaised(w);
    ElderAsked(w);
    ElderGone(w);
    OwnWritten(w);
    assert B in D3.rows && EnabledAdmin(D3.rows[B].value);
  }

  // ---- One recovery code ----

  /** A world in which a hash suits just the text it is, and one code is always current. */
  const SIMPLE: World := World((hash, text) => hash == text, sealed => Some(sealed), (code, secret, at) => code == "1")

  const NINE: seq<string> := ["q", "r", "s", "t", "u", "v", "w", "x", "y"]
  const TEN: seq<string> := ["h"] + NINE

  /** A local admin, who then sets two-factor sign-in up and confirms it. */
  const SETTLER: User := UserAt(A, Admin, true, true)
  const CAREFUL: User := SETTLER.(totpEnabled := true, totpSecret := "s", recovery := TEN)
  const ENROL: Job := Setup(A, PASS, "s")
  const SHOW: Job := Confirm(A, "1", TEN, 1)

  const G0: T.State := T.State(map[A := Row(SETTLER)], map[], [])
  const G1: T.State := T.State(map[A := Row(SETTLER.(totpSecret := "s"))], map[], [])
  const HOME: T.State := T.State(map[A := Row(CAREFUL)], map[], [T.Confirmation("s", "1", 1)])

  lemma EnrolPlanned()
    ensures var f := Look(G0.rows, ENROL, SMOOTH);
      && PlanFor(SIMPLE, ENROL, f) == Ok([Put(SETTLER.(totpSecret := "s"), true)])
      && T.Reflects(G0.rows, ENROL, f.found) && T.Confirmed(SIMPLE, ENROL, f) == []
  {
    Plain(A);
    hide Normalize, OthersFound, HoldersFound;
    assert Found(G0.rows, A) == Ok(Some(SETTLER)) && A in G0.rows && G0.rows[A] == Row(SETTLER);
  }

  lemma ShowPlanned()
    ensures var f := Look(G1.rows, SHOW, SMOOTH);
      && PlanFor(SIMPLE, SHOW, f) == Ok([Put(CAREFUL, true)])
      && T.Reflects(G1.rows, SHOW, f.found) && T.Confirmed(SIMPLE, SHOW, f) == [T.Confirmation("s", "1", 1)]
  {
    Plain(A);
    TrimSpaceTrims("1");
    hide Normalize, TrimSpace, OthersFound, HoldersFound;
    var u := SETTLER.(totpSecret := "s");
    assert Found(G1.rows, A) == Ok(Some(u)) && A in G1.rows && G1.rows[A] == Row(u);
    assert u.(recovery := TEN, totpEnabled := true) == CAREFUL;
  }

  lemma HomeRows()
    ensures Upserted(G0.rows, SETTLER.(totpSecret := "s"), 1) == G1.rows && Upserted(G1.rows, CAREFUL, 1) == HOME.rows
    ensures Normalize(A) == A
  {
    Plain(A);
  }

  lemma HomeReachable()
    ensures Reachable(SIMPLE, HOME)
  {
    PairReachable(SIMPLE, Admin, true, true);
    hide Reachable;
    Enrolled();
  }

  lemma Enrolled()
    requires Reachable(SIMPLE, G0)
    ensures Reachable(SIMPLE, HOME)
  {
    EnrolPlanned();
    ShowPlanned();
    HomeRows();
    hide PlanFor, Look, T.Reflects, T.Confirmed, Upserted, Normalize, Reachable;
    assert G0.log + [] == G1.log && G1.log + [T.Confirmation("s", "1", 1)] == HOME.log;
    Writes(SIMPLE, G0, ENROL, SETTLER.(totpSecret := "s"), []);
    Writes(SIMPLE, G1, SHOW, CAREFUL, [T.Confirmation("s", "1", 1)]);
  }

  lemma CodeReads()
    ensures TrimSpace("h") == "h" && NormRecovery("h") == "h" && TrimSpace("h") != "1"
  {
    TrimSpaceTrims("h");
    assert ToLower("h") == "h";
    WithoutNone("h", '-');
    WithoutNone("h", ' ');
  }

  lemma CodeIs()
    ensures TrimSpace("h") == "h" && NormRecovery("h") == "h" && TrimSpace("h") != "1"
    ensures Accepts(TEN, "h", SIMPLE.suits) && Consumed(TEN, "h", SIMPLE.suits) == NINE && !Accepts(NINE, "h", SIMPLE.suits)
  {
    CodeReads();
    hide TrimSpace, ToLower, NormRecovery;
    assert TEN[0] == "h" && TEN[1..] == NINE;
    assert Match(TEN, "h", SIMPLE.suits) == 0;
    assert TEN[..0] + TEN[1..] == NINE;
    forall i | 0 <= i < |NINE| ensures !SIMPLE.suits(NINE[i], "h") {
      assert NINE[i][0] != 'h';
    }
  }

  const USED: User := CAREFUL.(recovery := NINE)
  const LOGGED: User := USED.(lastLoginAt := 2)
  const NOTED: seq<Write> := [Put(USED, false), Put(LOGGED, false)]
  const ENTRY: Job := Login(A, PASS, "h", 2)

  lemma EntryLogin()
    ensures PlanLogin(SIMPLE, Some(CAREFUL), PASS, "h", 2) == Ok(NOTED) && I.ByRecovery(SIMPLE, CAREFUL, ENTRY)
    ensures I.ByRecovery(SIMPLE, CAREFUL.(passkeys := "k", updatedAt := 2), ENTRY) && !I.ByRecovery(SIMPLE, LOGGED.(updatedAt := 2), ENTRY)
  {
    CodeIs();
    hide TrimSpace, Accepts, Consumed, NormRecovery;
  }

  lemma HomeHolds()
    ensures Keyed(HOME.rows) && Normalize(A) == A && Found(HOME.rows, A) == Ok(Some(CAREFUL))
    ensures A in HOME.rows && HOME.rows[A] == Row(CAREFUL)
  {
    Plain(A);
  }

  lemma EntryPlanned()
    ensures Plans(SIMPLE, HOME.rows, ENTRY, NOTED) && I.Passes(SIMPLE, HOME.rows, ENTRY)
  {
    EntryLogin();
    HomeHolds();
    hide Normalize, Found, PlanLogin, I.ByRecovery, TakenFound, OthersFound, HoldersFound;
  }

  const E2: T.State := HOME.(running := map[0 := NOTED, 1 := NOTED])

  /** Two sign-ins that read the record before either writes both pass with the same recovery code. */
  lemma OneCodeTwice()
    ensures I.Passes(SIMPLE, HOME.rows, ENTRY) && Plans(SIMPLE, HOME.rows, ENTRY, NOTED)
    ensures Reachable(SIMPLE, HOME) && Reachable(SIMPLE, E2) && E2.rows == HOME.rows
  {
    HomeReachable();
    EntryPlanned();
    hide Plans, I.Passes, Reachable;
    TwoBegin(SIMPLE, HOME, ENTRY, NOTED, ENTRY, NOTED);
  }

  /** One after the other they do not: the second finds the code used. */
  lemma OneCodeOnce()
    ensures I.Passes(SIMPLE, HOME.rows, ENTRY) && !I.Passes(SIMPLE, Served(SIMPLE, HOME.rows, ENTRY, SMOOTH), ENTRY)
  {
    EntryPlanned();
    HomeHolds();
    CodeIs();
    hide Plans, PlanFor, Look, Normalize, Keyed, Served, NormRecovery, TrimSpace, Consumed, Accepts;
    I.CodeGoesIfWritten(SIMPLE, HOME.rows, ENTRY, SMOOTH);
  }

  // ---- A used code comes back ----

  const KEYS: Job := PasskeyAdd(A, "k")
  const STALE: seq<Write> := [Put(CAREFUL.(passkeys := "k"), true)]

  const H2: T.State := HOME.(running := map[0 := STALE, 1 := NOTED])
  const H3: T.State := HOME.(rows := map[A := Row(USED.(updatedAt := 2))], running := map[0 := STALE, 1 := [Put(LOGGED, false)]])
  const H4: T.State := HOME.(rows := map[A := Row(LOGGED.(updatedAt := 2))], running := map[0 := STALE, 1 := []])
  const H5: T.State := HOME.(rows := map[A := Row(CAREFUL.(passkeys := "k", updatedAt := 2))], running := map[0 := [], 1 := []])

  lemma KeysPlanned()
    ensures Plans(SIMPLE, HOME.rows, KEYS, STALE)
  {
    HomeHolds();
    hide Normalize, Found, TakenFound, OthersFound, HoldersFound;
  }

  lemma BothBegun()
    ensures Reachable(SIMPLE, H2)
  {
    HomeReachable();
    KeysPlanned();
    EntryPlanned();
    hide Plans, I.Passes, Reachable;
    TwoBegin(SIMPLE, HOME, KEYS, STALE, ENTRY, NOTED);
  }

  lemma UseSaved()
    requires Reachable(SIMPLE, H2)
    ensures Reachable(SIMPLE, H3)
  {
    Plain(A);
    assert Upserted(H2.rows, USED, 2) == H3.rows;
    assert NOTED == [Put(USED, false)] + [Put(LOGGED, false)];
    hide Upserted, Normalize, Reachable;
    Puts(SIMPLE, H2, 1, 2, USED, false, [Put(LOGGED, false)], H3);
  }

  lemma LoginNoted()
    requires Reachable(SIMPLE, H3)
    ensures Reachable(SIMPLE, H4)
  {
    Plain(A);
    assert Upserted(H3.rows, LOGGED, 2) == H4.rows;
    assert [Put(LOGGED, false)] + [] == [Put(LOGGED, false)];
    hide Upserted, Normalize, Reachable;
    Puts(SIMPLE, H3, 1, 2, LOGGED, false, [], H4);
  }

  lemma OldWritten()
    requires Reachable(SIMPLE, H4)
    ensures Reachable(SIMPLE, H5)
  {
    Plain(A);
    assert Upserted(H4.rows, CAREFUL.(passkeys := "k"), 2) == H5.rows;
    assert STALE == [Put(CAREFUL.(passkeys := "k"), true)] + [];
    hide Upserted, Normalize, Reachable;
    Puts(SIMPLE, H4, 0, 2, CAREFUL.(passkeys := "k"), true, [], H5);
  }

  /**
   A passkey is added; before that is written a sign-in uses a recovery code, writes it, and the code no longer works.
   Then the record from before is written, and it works again: though no two sign-ins overlap.
   */
  lemma UsedCodeComesBack()
    ensures Reachable(SIMPLE, H4) && Reachable(SIMPLE, H5)
    ensures !I.Passes(SIMPLE, H4.rows, ENTRY) && I.Passes(SIMPLE, H5.rows, ENTRY)
  {
    BothBegun();
    hide Reachable;
    UseSaved();
    LoginNoted();
    OldWritten();
    Plain(A);
    EntryLogin();
    hide Normalize, I.ByRecovery;
  }
}
