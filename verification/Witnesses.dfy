/** Runs that show what the guarantees leave room for: each ends in a concrete state that the server can come to. */
module Witnesses {
  import opened Records
  import opened Protocol
  import opened Effects
  import opened Guarantees
  import S = SecretStore
  import V = ViewsStore
  import F = FileStore
  import L = Lateness
  import R = Server

  ghost predicate Reachable(cfg: Config, s: State) {
    exists run, actions :: IsRun(cfg, run, actions) && run[|actions|] == s
  }

  lemma StartReachable(cfg: Config)
    ensures Reachable(cfg, START)
  {
    assert IsRun(cfg, [START], []);
  }

  lemma Goes(cfg: Config, s: State, a: Action, t: State)
    requires Reachable(cfg, s) && Enabled(cfg, s, a) && t == Step(cfg, s, a)
    ensures Reachable(cfg, t)
  {
    hide Enabled, Step;
    var run, actions :| IsRun(cfg, run, actions) && run[|actions|] == s;
    var run', actions' := run + [t], actions + [a];
    forall i: nat | i < |actions'| ensures MovesAt(cfg, run', actions', i) {
      if i < |actions| { assert MovesAt(cfg, run, actions, i); }
    }
    assert IsRun(cfg, run', actions') && run'[|actions'|] == t;
  }

  const OPEN: Config := Config(false, false, 10)
  const GO: Choice := Choice(true, Denied, "i", 1)

  // ---- Two views, a purge, and a view after the expiry ----

  const TWO: NewSecret := NewSecret("c", 1, 2, false)
  const LONE: Caller := Caller(false, false)

  const T1: State := START.(requests := map[0 := Store(TWO)], nextRid := 1)
  const T2: State := T1.(secrets := map["i" := Row(S.Secret("c", 1, 2, 1))], requests := map[0 := PutBudget("i", TWO)],
                         book := map["i" := Book(0, "c", 2, 2, Pending, Unneeded, false, {}, [], 0, false)])
  const T3: State := T2.(views := map["i" := Row(V.Budget(2, "c"))], requests := map[0 := Reply("i")],
                         book := map["i" := Book(0, "c", 2, 2, Recorded, Unneeded, false, {}, [], 0, false)])
  const T4: State := T3.(requests := map[], book := map["i" := Book(0, "c", 2, 2, Recorded, Unneeded, true, {}, [], 0, false)])
  const T5: State := T4.(now := 3)
  const T6: State := T5.(secrets := map[], book := map["i" := Book(0, "c", 2, 2, Recorded, Unneeded, true, {}, [], 0, true)])
  const T7: State := T6.(requests := map[1 := Gate(RevealRoute, "i")], nextRid := 2,
                         book := map["i" := Book(0, "c", 2, 2, Recorded, Unneeded, true, {1}, [], 0, true)])
  const T8: State := T7.(requests := map[1 := Consume("i", LONE)])

  lemma TwoCreated()
    ensures Reachable(OPEN, T4)
  {
    StartReachable(OPEN);
    Goes(OPEN, START, StartCreate(TWO), T1);
    TwoStored();
    TwoCounted();
    Goes(OPEN, T3, Advance(0, GO), T4);
  }

  lemma TwoStored()
    requires Reachable(OPEN, T1)
    ensures Reachable(OPEN, T2)
  {
    assert Step(OPEN, T1, Advance(0, GO)) == T2;
    Goes(OPEN, T1, Advance(0, GO), T2);
  }

  lemma TwoCounted()
    requires Reachable(OPEN, T2)
    ensures Reachable(OPEN, T3)
  {
    assert Step(OPEN, T2, Advance(0, GO)) == T3;
    Goes(OPEN, T2, Advance(0, GO), T3);
  }

  lemma TwoPurged()
    ensures Reachable(OPEN, T5) && Reachable(OPEN, T6)
  {
    TwoCreated();
    Goes(OPEN, T4, Tick(3), T5);
    assert IsExpired(2, 3);
    assert Step(OPEN, T5, SweepSecrets(3, true)) == T6;
    Goes(OPEN, T5, SweepSecrets(3, true), T6);
  }

  lemma FirstReveal(cfg: Config, s: State, t: State)
    requires Known(s, "i") && s.book["i"].starts == {} && s.requests == map[] && s.nextRid == 1
    requires t == s.(requests := map[1 := Gate(RevealRoute, "i")], nextRid := 2, book := s.book["i" := s.book["i"].(starts := {1})])
    ensures Step(cfg, s, Start(RevealRoute, "i")) == t
  {
    assert s.book["i"].starts + {s.nextRid} == {1};
  }

  lemma TwoAsked()
    ensures Reachable(OPEN, T8)
  {
    TwoPurged();
    assert T6.book["i" := T6.book["i"].(starts := {1})] == T7.book;
    FirstReveal(OPEN, T6, T7);
    Goes(OPEN, T6, Start(RevealRoute, "i"), T7);
    assert Step(OPEN, T7, Advance(1, GO)) == T8;
    Goes(OPEN, T7, Advance(1, GO), T8);
  }

  /** The secret is past its expiry and purged, and its budget hands out a view all the same. */
  lemma ViewAfterPurge()
    ensures Reachable(OPEN, T8) && Untouched(T8, "i") && Lapsed(T8, "i") && "i" !in T8.secrets
    ensures Enabled(OPEN, T8, Advance(1, GO)) && Handout(T8, Advance(1, GO), "i") == [Delivery(1, "c", 1, LONE)]
  {
    TwoAsked();
  }

  /** A secret past its expiry with views left does not read like one that never was. */
  lemma ExpiredReadsOtherwise()
    ensures Reachable(OPEN, T5) && Lapsed(T5, "i")
    ensures R.WithViews(R.MetaOf(T5.secrets, "i", T5.now), T5.views, "i") == R.Metadata(false, 0, Some(2)) != L.UNKNOWN
  {
    TwoPurged();
  }

  // ---- One view, checked before the expiry and burned after it ----

  const ONE: NewSecret := NewSecret("c", 1, 1, false)

  const S1: State := START.(requests := map[0 := Store(ONE)], nextRid := 1)
  const S2: State := S1.(secrets := map["i" := Row(S.Secret("c", 1, 2, 1))], requests := map[0 := Reply("i")],
                         book := map["i" := Book(0, "c", 1, 2, Unneeded, Unneeded, false, {}, [], 0, false)])
  const S3: State := S2.(requests := map[], book := map["i" := Book(0, "c", 1, 2, Unneeded, Unneeded, true, {}, [], 0, false)])
  const S4: State := S3.(requests := map[1 := Gate(RevealRoute, "i")], nextRid := 2,
                         book := map["i" := Book(0, "c", 1, 2, Unneeded, Unneeded, true, {1}, [], 0, false)])
  const HERE: Caller := Caller(false, true)
  const S5: State := S4.(requests := map[1 := Consume("i", HERE)])
  const S6: State := S4.(requests := map[1 := Peek("i", HERE)])
  const S7: State := S4.(requests := map[1 := Check("i", HERE, 2)])
  const S8: State := S4.(requests := map[1 := Burn("i", HERE)])
  const S9: State := S8.(now := 3)

  lemma OneCreated()
    ensures Reachable(OPEN, S3)
  {
    StartReachable(OPEN);
    Goes(OPEN, START, StartCreate(ONE), S1);
    assert Step(OPEN, S1, Advance(0, GO)) == S2;
    Goes(OPEN, S1, Advance(0, GO), S2);
    Goes(OPEN, S2, Advance(0, GO), S3);
  }

  lemma OneAsked()
    ensures Reachable(OPEN, S6)
  {
    OneCreated();
    assert S3.book["i" := S3.book["i"].(starts := {1})] == S4.book;
    FirstReveal(OPEN, S3, S4);
    Goes(OPEN, S3, Start(RevealRoute, "i"), S4);
    Goes(OPEN, S4, Advance(1, GO), S5);
    assert Step(OPEN, S5, Advance(1, GO)) == S6;
    Goes(OPEN, S5, Advance(1, GO), S6);
  }

  lemma OneChecked()
    ensures Reachable(OPEN, S9)
  {
    OneAsked();
    assert Step(OPEN, S6, Advance(1, GO)) == S7;
    Goes(OPEN, S6, Advance(1, GO), S7);
    assert Step(OPEN, S7, Advance(1, GO)) == S8;
    Goes(OPEN, S7, Advance(1, GO), S8);
    Goes(OPEN, S8, Tick(3), S9);
  }

  /** A secret without any budget, handed out after its expiry: the check ran in time, the burn did not. */
  lemma BurnAfterExpiry()
    ensures Reachable(OPEN, S9) && Untouched(S9, "i") && Lapsed(S9, "i") && S9.views == map[]
    ensures Enabled(OPEN, S9, Advance(1, GO)) && Handout(S9, Advance(1, GO), "i") == [Delivery(1, "c", 0, HERE)]
  {
    OneChecked();
  }

  // ---- A private secret with two views, whose mark the sweeper takes after the purge ----

  const GATED: Config := Config(true, false, 10)
  const SHY: NewSecret := NewSecret("c", 1, 2, true)

  const P1: State := START.(requests := map[0 := Store(SHY)], nextRid := 1)
  const P2: State := P1.(secrets := map["i" := Row(S.Secret("c", 1, 2, 1))], requests := map[0 := PutBudget("i", SHY)],
                         book := map["i" := Book(0, "c", 2, 2, Pending, Pending, false, {}, [], 0, false)])
  const P3: State := P2.(views := map["i" := Row(V.Budget(2, "c"))], requests := map[0 := Mark("i")],
                         book := map["i" := Book(0, "c", 2, 2, Recorded, Pending, false, {}, [], 0, false)])
  const P4: State := P3.(marks := {"i"}, requests := map[0 := Reply("i")],
                         book := map["i" := Book(0, "c", 2, 2, Recorded, Recorded, false, {}, [], 0, false)])
  const P5: State := P4.(requests := map[], book := map["i" := Book(0, "c", 2, 2, Recorded, Recorded, true, {}, [], 0, false)])
  const P6: State := P5.(now := 3)
  const P7: State := P6.(secrets := map[], book := map["i" := Book(0, "c", 2, 2, Recorded, Recorded, true, {}, [], 0, true)])
  const P8: State := P7.(marksSweep := Scanning(["i"]))
  const P9: State := P7.(marksSweep := Dropping("i", []))
  const P10: State := P7.(marksSweep := Scanning([]), marks := {})
  const P11: State := P10.(requests := map[1 := Gate(RevealRoute, "i")], nextRid := 2,
                           book := map["i" := Book(0, "c", 2, 2, Recorded, Recorded, true, {1}, [], 0, true)])
  const P12: State := P11.(requests := map[1 := Consume("i", LONE)])

  lemma ShyStored()
    ensures Reachable(GATED, P3)
  {
    StartReachable(GATED);
    Goes(GATED, START, StartCreate(SHY), P1);
    assert Step(GATED, P1, Advance(0, GO)) == P2;
    Goes(GATED, P1, Advance(0, GO), P2);
    assert Step(GATED, P2, Advance(0, GO)) == P3;
    Goes(GATED, P2, Advance(0, GO), P3);
  }

  lemma ShyMarked()
    ensures Reachable(GATED, P5)
  {
    ShyStored();
    assert Step(GATED, P3, Advance(0, GO)) == P4;
    Goes(GATED, P3, Advance(0, GO), P4);
    assert Step(GATED, P4, Advance(0, GO)) == P5;
    Goes(GATED, P4, Advance(0, GO), P5);
  }

  lemma ShyPurged()
    ensures Reachable(GATED, P7)
  {
    ShyMarked();
    Goes(GATED, P5, Tick(3), P6);
    assert IsExpired(2, 3);
    assert Step(GATED, P6, SweepSecrets(3, true)) == P7;
    Goes(GATED, P6, SweepSecrets(3, true), P7);
  }

  lemma ShySwept()
    ensures Reachable(GATED, P10)
  {
    ShyPurged();
    Goes(GATED, P7, SweepMarks(["i"], true), P8);
    assert ["i"][1..] == [];
    assert Step(GATED, P8, SweepMarks(["i"], true)) == P9;
    Goes(GATED, P8, SweepMarks(["i"], true), P9);
    assert Step(GATED, P9, SweepMarks(["i"], true)) == P10;
    Goes(GATED, P9, SweepMarks(["i"], true), P10);
  }

  lemma ShyAsked()
    ensures Reachable(GATED, P12)
  {
    ShySwept();
    assert P10.book["i" := P10.book["i"].(starts := {1})] == P11.book;
    FirstReveal(GATED, P10, P11);
    Goes(GATED, P10, Start(RevealRoute, "i"), P11);
    assert Step(GATED, P11, Advance(1, GO)) == P12;
    Goes(GATED, P11, Advance(1, GO), P12);
  }

  /** A secret recorded as private, one of whose views goes to a caller without a session after the purge and one sweep. */
  lemma PrivateViewForAnyone()
    ensures Reachable(GATED, P12) && Untouched(P12, "i") && P12.book["i"].mark.Recorded?
    ensures Enabled(GATED, P12, Advance(1, GO)) && Handout(P12, Advance(1, GO), "i") == [Delivery(1, "c", 1, LONE)] && !LONE.verified
  {
    ShyAsked();
  }

  // ---- A private file whose mark the sweeper takes ----

  const GUARDED: Config := Config(true, false, 1)
  const FILED: NewFile := NewFile([7], 5, true)
  const STORED: map<Id, Row<F.File>> := map["i" := Row(F.File([7], 1, 6, 1))]

  const F1: State := START.(requests := map[0 := FileStore(FILED)], nextRid := 1)
  const F2: State := F1.(files := STORED, fileIds := {"i"}, requests := map[0 := FileMark("i")])
  const F3: State := F2.(marks := {"i"}, requests := map[])
  const F4: State := F3.(marksSweep := Scanning(["i"]))
  const F5: State := F3.(marksSweep := Dropping("i", []))
  const F6: State := F3.(marksSweep := Scanning([]), marks := {})
  const F7: State := F6.(requests := map[1 := Gate(FileRoute, "i")], nextRid := 2)
  const F8: State := F6.(requests := map[1 := FileBurn("i", LONE)], nextRid := 2)

  lemma FileMarked()
    ensures Reachable(GUARDED, F3)
  {
    StartReachable(GUARDED);
    Goes(GUARDED, START, StartFile(FILED), F1);
    assert Step(GUARDED, F1, Advance(0, GO)) == F2;
    Goes(GUARDED, F1, Advance(0, GO), F2);
    assert Step(GUARDED, F2, Advance(0, GO)) == F3;
    Goes(GUARDED, F2, Advance(0, GO), F3);
  }

  lemma FileSwept()
    ensures Reachable(GUARDED, F6)
  {
    FileMarked();
    Goes(GUARDED, F3, SweepMarks(["i"], true), F4);
    assert ["i"][1..] == [];
    assert Step(GUARDED, F4, SweepMarks(["i"], true)) == F5;
    Goes(GUARDED, F4, SweepMarks(["i"], true), F5);
    assert Step(GUARDED, F5, SweepMarks(["i"], true)) == F6;
    Goes(GUARDED, F5, SweepMarks(["i"], true), F6);
  }

  lemma FileAsked()
    ensures Reachable(GUARDED, F8)
  {
    FileSwept();
    Goes(GUARDED, F6, Start(FileRoute, "i"), F7);
    assert Step(GUARDED, F7, Advance(1, GO)) == F8;
    Goes(GUARDED, F7, Advance(1, GO), F8);
  }

  /** Marked private, and handed out to a caller without a session once the visibility sweeper has passed. */
  lemma PrivateFileForAnyone()
    ensures Reachable(GUARDED, F3) && "i" in F3.marks
    ensures Reachable(GUARDED, F8) && HandsOutFile(F8, Advance(1, GO), "i") && !F8.requests[1].caller.verified
  {
    FileMarked();
    FileAsked();
  }
}
