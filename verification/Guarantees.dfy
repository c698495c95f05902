/** What the protocol guarantees over whole runs, in terms of what clients and operators see. */
module Guarantees {
  import opened Records
  import opened Protocol
  import opened Invariant
  import opened Preservation
  import opened Effects
  import S = SecretStore
  import V = ViewsStore
  import F = FileStore

  lemma StartInv(cfg: Config)
    ensures Inv(cfg, START)
  {
  }

  lemma {:induction false} RunInv(cfg: Config, run: seq<State>, actions: seq<Action>, i: nat)
    requires IsRun(cfg, run, actions) && i < |run|
    ensures Inv(cfg, run[i])
    decreases i
  {
    if i == 0 {
      StartInv(cfg);
    } else {
      RunInv(cfg, run, actions, i - 1);
      assert MovesAt(cfg, run, actions, i - 1);
      StepKeeps(cfg, run[i - 1], actions[i - 1]);
    }
  }

  lemma RunSlot(cfg: Config, run: seq<State>, actions: seq<Action>, i: nat, id: Id)
    requires IsRun(cfg, run, actions) && i < |run|
    ensures SlotInv(cfg, SlotOf(run[i], id), run[i].now, run[i].nextRid)
  {
    RunInv(cfg, run, actions, i);
  }

  /** What holds of an id at one moment of a run, seen from an earlier one. */
  ghost predicate Follows(t: Slot, t': Slot) {
    t.book.Some? && t.book.value.published ==>
      && t'.book.Some?
      && var b, b' := t.book.value, t'.book.value;
      && b'.published && b'.ciphertext == b.ciphertext && b'.views == b.views && b'.expiresAt == b.expiresAt
      && b'.budget == b.budget && b'.mark == b.mark
      && t'.early == t.early
      && (b.impaired ==> b'.impaired)
      && (t.secret.None? ==> t'.secret.None?)
      && (t.budget.None? ==> t'.budget.None?)
      && b.log <= b'.log && b.starts <= b'.starts && b.misses <= b'.misses
      && |b'.log| + Potential(t') <= |b.log| + Potential(t)
  }

  lemma FollowsSelf(t: Slot)
    ensures Follows(t, t)
  {
  }

  lemma StepFollows(t: Slot, t': Slot, t'': Slot)
    requires Follows(t, t') && Grows(t', t'')
    ensures Follows(t, t'')
  {
  }

  lemma StepGrows(cfg: Config, run: seq<State>, actions: seq<Action>, i: nat, id: Id)
    requires IsRun(cfg, run, actions) && i < |actions|
    ensures Grows(SlotOf(run[i], id), SlotOf(run[i + 1], id))
  {
    RunInv(cfg, run, actions, i);
    assert MovesAt(cfg, run, actions, i);
    StepKeeps(cfg, run[i], actions[i]);
  }

  lemma {:induction false} RunFollows(cfg: Config, run: seq<State>, actions: seq<Action>, i: nat, j: nat, id: Id)
    requires IsRun(cfg, run, actions) && i <= j < |run|
    ensures Follows(SlotOf(run[i], id), SlotOf(run[j], id))
    decreases j
  {
    hide Follows, Grows, SlotOf;
    if i == j {
      FollowsSelf(SlotOf(run[i], id));
    } else {
      RunFollows(cfg, run, actions, i, j - 1, id);
      StepGrows(cfg, run, actions, j - 1, id);
      StepFollows(SlotOf(run[i], id), SlotOf(run[j - 1], id), SlotOf(run[j], id));
    }
  }

  // ---- How many views ----

  /**
   Whatever interleaves, fails, crashes, expires or is swept, and even if reveals race the create:
   what was handed out and what is left never exceed what was asked for, nor one if the budget was lost.
   */
  lemma NeverTooMany(cfg: Config, run: seq<State>, actions: seq<Action>, i: nat, id: Id)
    requires IsRun(cfg, run, actions) && i < |run| && id in run[i].book
    ensures var b := run[i].book[id];
      && |b.log| + Left(run[i], id) <= b.views
      && (!b.budget.Pending? && !b.budget.Recorded? ==> |b.log| + Left(run[i], id) <= 1)
  {
    RunSlot(cfg, run, actions, i, id);
  }

  /** What is left of an id, and what a budget that is not written yet may still add. */
  function InStock(s: State, id: Id): int
    requires id in s.book
  {
    Left(s, id) + Outstanding(s.book[id])
  }

  /**
   Every success costs one view, and nothing ever gives one back: for every issued id, also while its create has not
   answered and reveals race it. Once it has, the success costs exactly one.
   */
  lemma SuccessCostsOne(cfg: Config, run: seq<State>, actions: seq<Action>, i: nat, id: Id)
    requires IsRun(cfg, run, actions) && i < |actions| && id in run[i].book
    ensures id in run[i + 1].book
    ensures run[i + 1].book[id].log == run[i].book[id].log + Handout(run[i], actions[i], id)
    ensures InStock(run[i + 1], id) <= InStock(run[i], id) - |Handout(run[i], actions[i], id)|
    ensures Known(run[i], id) ==>
      && Known(run[i + 1], id) && InStock(run[i], id) == Left(run[i], id) && InStock(run[i + 1], id) == Left(run[i + 1], id)
      && (Handout(run[i], actions[i], id) != [] ==> Left(run[i + 1], id) == Left(run[i], id) - 1)
  {
    RunSlot(cfg, run, actions, i, id);
    RunSlot(cfg, run, actions, i + 1, id);
    StepGrows(cfg, run, actions, i, id);
    assert MovesAt(cfg, run, actions, i);
    assert id != "";
    hide Step, Enabled, Handout;
    StepLogs(cfg, run[i], actions[i], id);
    hide SlotInv;
  }

  // ---- Refinement: all the transactions of all the reveals are one counter ----

  datatype Event = Serve | Refuse | Late | Spoil | Stutter

  /** The specification: a counter that serves down to zero and refuses only there. */
  predicate CounterStep(left: nat, e: Event, left': nat) {
    match e
    case Serve => left > 0 && left' == left - 1
    case Refuse => left == 0 && left' == 0
    case Late => left' <= left
    case Spoil => left' <= left
    case Stutter => left' == left
  }

  /** How a step shows to clients. Only past the expiry, or when the budget row itself stops decoding, is a view forfeited. */
  function EventOf(s: State, a: Action, s': State, id: Id): Event
    requires id in s.book && id in s'.book
  {
    if Handout(s, a, id) != [] then Serve
    else if a == SpoilBudget(id) then Spoil
    else if Lapsed(s, id) then Late
    else if s'.book[id].misses > s.book[id].misses then Refuse
    else Stutter
  }

  lemma RefinesCounter(cfg: Config, run: seq<State>, actions: seq<Action>, i: nat, id: Id)
    requires IsRun(cfg, run, actions) && i < |actions| && Untouched(run[i], id)
    ensures Known(run[i + 1], id)
    ensures CounterStep(Left(run[i], id), EventOf(run[i], actions[i], run[i + 1], id), Left(run[i + 1], id))
    ensures run[i + 1].book[id].log == run[i].book[id].log + Handout(run[i], actions[i], id)
  {
    RunInv(cfg, run, actions, i);
    StepGrows(cfg, run, actions, i, id);
    assert MovesAt(cfg, run, actions, i);
    assert id != "" by { SlotFact(cfg, run[i], id); }
    hide Inv, Step, Enabled;
    StepLogs(cfg, run[i], actions[i], id);
    if !Lapsed(run[i], id) && actions[i] != SpoilBudget(id) {
      StepCounts(cfg, run[i], actions[i], id);
    }
  }

  /** The counter starts full: when the create answers, all granted views are there. */
  lemma StartsFull(cfg: Config, run: seq<State>, actions: seq<Action>, i: nat, id: Id)
    requires IsRun(cfg, run, actions) && i < |run| && Untouched(run[i], id)
    requires run[i].book[id].log == [] && !run[i].book[id].impaired
    ensures var b := run[i].book[id];
      Left(run[i], id) == if b.budget.Recorded? then b.views else 1
  {
    RunSlot(cfg, run, actions, i, id);
  }

  /** With no expiry and no undecodable row, k answered reveals are exactly min(k, granted) successes. */
  lemma SuccessesAreMin(cfg: Config, run: seq<State>, actions: seq<Action>, i: nat, id: Id)
    requires IsRun(cfg, run, actions) && i < |run| && Untouched(run[i], id) && !run[i].book[id].impaired
    ensures var b := run[i].book[id];
      var granted := if b.budget.Recorded? then b.views else 1;
      |b.log| == if |b.log| + b.misses <= granted then |b.log| + b.misses else granted
  {
    RunSlot(cfg, run, actions, i, id);
  }

  // ---- In which order ----

  /** The responses carry views_remaining N-1, N-2, ..., and a burn is the last of all. */
  lemma CountsDown(cfg: Config, run: seq<State>, actions: seq<Action>, i: nat, id: Id, k: nat)
    requires IsRun(cfg, run, actions) && i < |run| && Untouched(run[i], id) && k < |run[i].book[id].log|
    ensures var b := run[i].book[id];
      if b.log[k].remaining > 0 then b.budget.Recorded? && b.log[k].remaining == b.views - 1 - k
      else b.log[k].remaining == 0 && k == |b.log| - 1
  {
    RunSlot(cfg, run, actions, i, id);
  }

  /** With nothing forfeited the burn comes exactly when all other views have been had. */
  lemma BurnComesLast(cfg: Config, run: seq<State>, actions: seq<Action>, i: nat, id: Id)
    requires IsRun(cfg, run, actions) && i < |run| && Untouched(run[i], id) && !run[i].book[id].impaired
    ensures var b := run[i].book[id];
      Burnt(b.log) <==> |b.log| == if b.budget.Recorded? then b.views else 1
  {
    RunSlot(cfg, run, actions, i, id);
    var b := run[i].book[id];
    if |b.log| == Granted(b) {
      assert b.log[|b.log| - 1].remaining == 0;
    }
  }

  predicate TowardsBurn(r: Request) {
    r.Peek? || r.Check? || r.Burn? || r.Reap?
  }

  /** Once any reveal has fallen through to the burn path, no budget is there, now or ever again. */
  lemma NoBudgetReturns(cfg: Config, run: seq<State>, actions: seq<Action>, i: nat, j: nat, rid: Rid)
    requires IsRun(cfg, run, actions) && i <= j < |run|
    requires rid in run[i].requests && TowardsBurn(run[i].requests[rid])
    requires run[i].requests[rid].id !in run[i].early
    ensures run[i].requests[rid].id !in run[j].views
  {
    RunInv(cfg, run, actions, i);
    RequestFact(cfg, run[i], rid);
    RunFollows(cfg, run, actions, i, j, run[i].requests[rid].id);
  }

  // ---- At what cost ----

  lemma DistinctFit(rids: seq<Rid>, within: set<Rid>)
    requires forall k :: 0 <= k < |rids| ==> rids[k] in within
    requires forall j, k :: 0 <= j < k < |rids| ==> rids[j] != rids[k]
    ensures |rids| <= |within|
  {
    if rids != [] {
      var n := |rids| - 1;
      DistinctFit(rids[..n], within - {rids[n]});
    }
  }

  /** A reveal costs at most one view: those handed out never outnumber the reveals that came. */
  lemma OneViewPerReveal(cfg: Config, run: seq<State>, actions: seq<Action>, i: nat, id: Id)
    requires IsRun(cfg, run, actions) && i < |run| && Untouched(run[i], id)
    ensures var b := run[i].book[id];
      && |b.log| <= |b.starts|
      && (!b.impaired ==> (if b.budget.Recorded? then b.views else 1) - Left(run[i], id) <= |b.starts|)
  {
    RunSlot(cfg, run, actions, i, id);
    var b := run[i].book[id];
    DistinctFit(seq(|b.log|, k requires 0 <= k < |b.log| => b.log[k].rid), b.starts);
  }

  /** The reveal ends without having burned: the process dies, or the transaction of its peek or of its burn fails. */
  predicate Fails(s: State, a: Action, rid: Rid)
    requires rid in s.requests
  {
    a.Crash? || (a.Advance? && a.rid == rid && !a.choice.commits && (s.requests[rid].Peek? || s.requests[rid].Burn?))
  }

  lemma FailureChangesNothing(cfg: Config, s: State, a: Action, rid: Rid, id: Id)
    requires rid in s.requests && TowardsBurn(s.requests[rid]) && s.requests[rid].id == id && Fails(s, a, rid) && Enabled(cfg, s, a)
    requires Known(s, id) ==> !s.book[id].budget.Pending? && !s.book[id].mark.Pending?
    ensures var s' := Step(cfg, s, a);
      rid !in s'.requests && s'.secrets == s.secrets && s'.views == s.views && (Known(s, id) ==> id in s'.book && s'.book[id] == s.book[id])
    ensures s.now == Step(cfg, s, a).now
  {
  }

  /**
   Between the last counted view and the burn a failure costs no view: the request ends without an answer, one view
   is left as before, and in no continuation is more than one handed out.
   */
  lemma CrashLeavesOne(cfg: Config, run: seq<State>, actions: seq<Action>, i: nat, j: nat, rid: Rid)
    requires IsRun(cfg, run, actions) && i < |actions| && i < j < |run|
    requires rid in run[i].requests && TowardsBurn(run[i].requests[rid]) && Fails(run[i], actions[i], rid)
    requires run[i].requests[rid].id !in run[i].early && run[i].requests[rid].id in run[i].secrets
    ensures var id := run[i].requests[rid].id;
      && rid !in run[i + 1].requests && id in run[i].book && id in run[i + 1].book && id in run[j].book
      && run[i + 1].book[id].log == run[i].book[id].log && Left(run[i + 1], id) == 1
      && |run[j].book[id].log| <= |run[i].book[id].log| + 1
  {
    var id := run[i].requests[rid].id;
    RunInv(cfg, run, actions, i);
    RequestFact(cfg, run[i], rid);
    SlotFact(cfg, run[i], id);
    assert MovesAt(cfg, run, actions, i);
    FailureChangesNothing(cfg, run[i], actions[i], rid, id);
    RunFollows(cfg, run, actions, i + 1, j, id);
    hide Inv, Step, Enabled;
  }

  /** A crash ends every request and loses nothing that was committed, nor any view. */
  lemma CrashLosesNothing(cfg: Config, run: seq<State>, actions: seq<Action>, i: nat)
    requires IsRun(cfg, run, actions) && i < |actions| && actions[i].Crash?
    ensures var s, s' := run[i], run[i + 1];
      && s'.requests == map[] && s'.viewsSweep.Idle? && s'.marksSweep.Idle?
      && s'.secrets == s.secrets && s'.views == s.views && s'.marks == s.marks && s'.files == s.files
      && forall id :: Left(s', id) == Left(s, id) && (Known(s, id) ==> id in s'.book && s'.book[id] == s.book[id])
  {
    RunInv(cfg, run, actions, i);
    assert MovesAt(cfg, run, actions, i);
    forall id ensures Left(run[i + 1], id) == Left(run[i], id) && (Known(run[i], id) ==> id in run[i + 1].book && run[i + 1].book[id] == run[i].book[id]) {
      SlotFact(cfg, run[i], id);
    }
  }

  // ---- What is handed out, and what is not lost ----

  /** Every copy of the ciphertext, at rest or handed out, is the string given to create. */
  lemma AlwaysTheSameCiphertext(cfg: Config, run: seq<State>, actions: seq<Action>, i: nat, id: Id)
    requires IsRun(cfg, run, actions) && i < |run| && id in run[i].book
    ensures var s, b := run[i], run[i].book[id];
      && (forall k :: 0 <= k < |b.log| ==> b.log[k].ciphertext == b.ciphertext)
      && (id in s.secrets && s.secrets[id].Row? ==> s.secrets[id].value.ciphertext == b.ciphertext)
      && (id in s.views && s.views[id].Row? ==> s.views[id].value.ciphertext == b.ciphertext)
  {
    RunSlot(cfg, run, actions, i, id);
  }

  /** A secret that is gone was burned, or its lifetime has passed: nobody loses one early. */
  lemma NeverLostEarly(cfg: Config, run: seq<State>, actions: seq<Action>, i: nat, id: Id)
    requires IsRun(cfg, run, actions) && i < |run| && id in run[i].book && id !in run[i].secrets
    ensures var b := run[i].book[id];
      run[i].now > b.expiresAt || exists k :: 0 <= k < |b.log| && b.log[k].remaining == 0
  {
    RunSlot(cfg, run, actions, i, id);
  }

  // ---- Private secrets ----

  /** While a secret recorded as private is there, so is its mark. */
  lemma MarkOutlivesSecret(cfg: Config, run: seq<State>, actions: seq<Action>, i: nat, id: Id)
    requires IsRun(cfg, run, actions) && i < |run| && id in run[i].book
    requires run[i].book[id].mark.Recorded? && id in run[i].secrets
    ensures id in run[i].marks
  {
    RunSlot(cfg, run, actions, i, id);
  }

  /** Whoever burned it had a session, and so had whoever saw it after passing the gate while it was there. */
  lemma PrivateNeedsSession(cfg: Config, run: seq<State>, actions: seq<Action>, i: nat, id: Id, k: nat)
    requires IsRun(cfg, run, actions) && i < |run| && Untouched(run[i], id) && k < |run[i].book[id].log|
    requires cfg.authEnabled && run[i].book[id].mark.Recorded?
    requires var d := run[i].book[id].log[k]; d.remaining == 0 || d.caller.present
    ensures run[i].book[id].log[k].caller.verified
  {
    RunSlot(cfg, run, actions, i, id);
  }

  // ---- Meta ----

  /** What meta adds to its answer is what has not been handed out yet. */
  lemma MetaTellsTheTruth(cfg: Config, run: seq<State>, actions: seq<Action>, i: nat, id: Id)
    requires IsRun(cfg, run, actions) && i < |run| && Untouched(run[i], id)
    ensures var b, told := run[i].book[id], V.BudgetLeft(run[i].views, id);
      && (told.Some? ==> told.value == b.views - |b.log| && told.value >= 1)
      && (!b.impaired && b.budget.Recorded? && told.None? ==> |b.log| >= b.views - 1)
      && (|b.log| == b.views ==> told.None?)
  {
    RunSlot(cfg, run, actions, i, id);
  }

  /** After the burn nothing tells the id from one that never was: neither a secret nor a budget is left. */
  lemma BurntLooksMissing(cfg: Config, run: seq<State>, actions: seq<Action>, i: nat, id: Id)
    requires IsRun(cfg, run, actions) && i < |run| && Untouched(run[i], id) && Burnt(run[i].book[id].log)
    ensures id !in run[i].secrets && V.BudgetLeft(run[i].views, id) == None
  {
    RunSlot(cfg, run, actions, i, id);
  }

  predicate ForMeta(r: Request) {
    r.MetaRead? || r.MetaCheck? || r.MetaReap? || r.MetaViews?
  }

  lemma MetaStepIsHarmless(cfg: Config, s: State, rid: Rid, c: Choice)
    requires rid in s.requests && ForMeta(s.requests[rid])
    requires LocalInv(cfg, rid, s.requests[rid], SlotOf(s, s.requests[rid].id), s.now)
    requires var id := s.requests[rid].id; id in s.book ==> !IsExpired(s.book[id].expiresAt, s.now)
    ensures forall id :: SlotOf(AdvanceStep(cfg, s, rid, c), id) == SlotOf(s, id)
  {
  }

  /** No step of a meta request changes anything that is kept, for an id that is not past its expiry. */
  lemma MetaIsHarmless(cfg: Config, run: seq<State>, actions: seq<Action>, i: nat, rid: Rid)
    requires IsRun(cfg, run, actions) && i < |actions| && actions[i].Advance? && actions[i].rid == rid
    requires rid in run[i].requests && ForMeta(run[i].requests[rid])
    requires var id := run[i].requests[rid].id; id in run[i].book ==> !IsExpired(run[i].book[id].expiresAt, run[i].now)
    ensures forall id :: SlotOf(run[i + 1], id) == SlotOf(run[i], id)
  {
    RunInv(cfg, run, actions, i);
    assert MovesAt(cfg, run, actions, i);
    hide Inv, LocalInv, AdvanceStep, SlotOf;
    RequestFact(cfg, run[i], rid);
    MetaStepIsHarmless(cfg, run[i], rid, actions[i].choice);
  }

  // ---- Sweepers ----

  /** Whatever runs between list, check and delete: no sweeper takes a row of a secret that is there. */
  lemma SweepersSpareTheLiving(cfg: Config, run: seq<State>, actions: seq<Action>, i: nat, id: Id)
    requires IsRun(cfg, run, actions) && i < |actions| && (actions[i].SweepViews? || actions[i].SweepMarks?)
    requires id in run[i].secrets
    ensures SlotOf(run[i + 1], id) == SlotOf(run[i], id)
  {
    RunInv(cfg, run, actions, i);
    assert MovesAt(cfg, run, actions, i);
  }

  /** An id is covered when a listing that is being walked will still come to its budget. */
  ghost predicate Covered(s: State, id: Id) {
    id in s.views ==> !s.viewsSweep.Idle? && (id in s.viewsSweep.todo || (s.viewsSweep.Dropping? && s.viewsSweep.id == id))
  }

  lemma CreatesLeaveSweeper(cfg: Config, s: State, rid: Rid, c: Choice)
    requires rid in s.requests
    requires var r := s.requests[rid]; r.Store? || r.PutBudget? || r.Mark? || r.Reply? || r.FileStore? || r.FileMark? || r.FileBurn?
    ensures AdvanceStep(cfg, s, rid, c).viewsSweep == s.viewsSweep
  {
    hide V.Written, S.Created, F.Burned;
  }

  lemma ConsumeLeavesSweeper(s: State, rid: Rid, id: Id, caller: Caller, c: Choice)
    ensures ConsumeStep(s, rid, id, caller, c).viewsSweep == s.viewsSweep
  {
    hide V.Consumed, Deliver;
  }

  lemma BurnLeavesSweeper(s: State, rid: Rid, id: Id, caller: Caller, c: Choice)
    ensures BurnStep(s, rid, id, caller, c).viewsSweep == s.viewsSweep
  {
    hide S.Burned, Deliver, Miss;
  }

  lemma RequestsLeaveSweeper(cfg: Config, s: State, rid: Rid, c: Choice)
    requires rid in s.requests
    ensures AdvanceStep(cfg, s, rid, c).viewsSweep == s.viewsSweep
  {
    hide ConsumeStep, BurnStep, S.MetaOf, Impair, Miss, IsExpired;
    match s.requests[rid]
    case Consume(id, caller) => ConsumeLeavesSweeper(s, rid, id, caller, c);
    case Burn(id, caller) => BurnLeavesSweeper(s, rid, id, caller, c);
    case _ =>
      var r := s.requests[rid];
      if r.Store? || r.PutBudget? || r.Mark? || r.Reply? || r.FileStore? || r.FileMark? || r.FileBurn? {
        hide AdvanceStep;
        CreatesLeaveSweeper(cfg, s, rid, c);
      }
  }

  lemma OthersLeaveSweeper(cfg: Config, s: State, a: Action)
    requires Enabled(cfg, s, a) && !a.SweepViews? && !a.Crash?
    ensures Step(cfg, s, a).viewsSweep == s.viewsSweep
  {
    hide AdvanceStep;
    if a.Advance? { RequestsLeaveSweeper(cfg, s, a.rid, a.choice); }
  }

  lemma SweepStaysCovering(s: State, id: Id, ids: seq<Id>)
    requires Covered(s, id) && id !in s.secrets && !s.viewsSweep.Idle?
    ensures Covered(SweepViewsStep(s, ids, true), id)
  {
    match s.viewsSweep
    case Dropping(x, todo) =>
    case Scanning(todo) =>
      if todo != [] && id in todo {
        assert todo == [todo[0]] + todo[1..];
      }
  }

  lemma WalkStep(cfg: Config, s: State, a: Action, id: Id)
    requires Enabled(cfg, s, a) && !a.Crash? && (a.SweepViews? ==> a.commits) && id !in s.secrets
    requires if s.viewsSweep.Idle? then a.SweepViews? else Covered(s, id)
    requires id in Step(cfg, s, a).views ==> id in s.views
    ensures Covered(Step(cfg, s, a), id)
  {
    if a.SweepViews? {
      if !s.viewsSweep.Idle? { SweepStaysCovering(s, id, a.ids); }
    } else {
      hide Step, AdvanceStep, Enabled;
      OthersLeaveSweeper(cfg, s, a);
    }
  }

  lemma GoneStays(cfg: Config, run: seq<State>, actions: seq<Action>, i: nat, k: nat, id: Id)
    requires IsRun(cfg, run, actions) && i <= k < |actions| && Known(run[i], id) && id !in run[i].secrets
    ensures id !in run[k].secrets && (id in run[k + 1].views ==> id in run[k].views)
    ensures Enabled(cfg, run[k], actions[k]) && run[k + 1] == Step(cfg, run[k], actions[k])
  {
    assert MovesAt(cfg, run, actions, k);
    hide Step, Enabled;
    RunFollows(cfg, run, actions, i, k, id);
    RunFollows(cfg, run, actions, k, k + 1, id);
  }

  lemma {:induction false} WalkCovers(cfg: Config, run: seq<State>, actions: seq<Action>, i: nat, j: nat, id: Id)
    requires IsRun(cfg, run, actions) && i < j < |run|
    requires Known(run[i], id) && id !in run[i].secrets
    requires run[i].viewsSweep.Idle? && actions[i].SweepViews?
    requires forall k :: i < k < j ==> !run[k].viewsSweep.Idle?
    requires forall k :: i <= k < j ==> !actions[k].Crash? && (actions[k].SweepViews? ==> actions[k].commits)
    ensures Covered(run[j], id)
    decreases j
  {
    hide Moves, Enabled, Step, Covered;
    GoneStays(cfg, run, actions, i, j - 1, id);
    if j - 1 > i {
      WalkCovers(cfg, run, actions, i, j - 1, id);
    }
    WalkStep(cfg, run[j - 1], actions[j - 1], id);
  }

  /**
   Closure: after a committed purge at a time past its expiry, and then one complete walk of the views
   sweeper without errors, secret and budget of a published id are gone, and nothing is handed out any more.
   */
  lemma SweepCloses(cfg: Config, run: seq<State>, actions: seq<Action>, p: nat, i: nat, j: nat, m: nat, id: Id)
    requires IsRun(cfg, run, actions) && p < i < j <= m < |run| && Known(run[p], id)
    requires actions[p].SweepSecrets? && actions[p].commits && IsExpired(run[p].book[id].expiresAt, actions[p].at)
    requires id in run[p].secrets ==> run[p].secrets[id].Row?
    requires run[i].viewsSweep.Idle? && actions[i].SweepViews? && run[j].viewsSweep.Idle?
    requires forall k :: i < k < j ==> !run[k].viewsSweep.Idle?
    requires forall k :: i <= k < j ==> !actions[k].Crash? && (actions[k].SweepViews? ==> actions[k].commits)
    ensures id !in run[m].secrets && id !in run[m].views && id in run[m].book && id in run[j].book
    ensures run[m].book[id].log == run[j].book[id].log
  {
    assert MovesAt(cfg, run, actions, p);
    RunSlot(cfg, run, actions, p, id);
    assert id !in run[p + 1].secrets;
    RunFollows(cfg, run, actions, p, p + 1, id);
    RunFollows(cfg, run, actions, p + 1, i, id);
    RunFollows(cfg, run, actions, i, j, id);
    WalkCovers(cfg, run, actions, i, j, id);
    RunFollows(cfg, run, actions, j, m, id);
  }

  // ---- Files ----

  /** The step of a file reveal that finds its file and hands it out. */
  predicate HandsOutFile(s: State, a: Action, id: Id) {
    && a.Advance? && a.rid in s.requests && s.requests[a.rid].FileBurn? && s.requests[a.rid].id == id && a.choice.commits
    && F.Burned(s.files, id, s.now).1.Some?
  }

  predicate ForFiles(r: Request) {
    r.FileStore? || r.FileMark? || r.FileBurn?
  }

  lemma BurnLeavesFiles(s: State, rid: Rid, id: Id, caller: Caller, c: Choice)
    ensures BurnStep(s, rid, id, caller, c).files == s.files
  {
    hide S.Burned, Deliver, Miss;
  }

  lemma ConsumeLeavesFiles(s: State, rid: Rid, id: Id, caller: Caller, c: Choice)
    ensures ConsumeStep(s, rid, id, caller, c).files == s.files
  {
    hide V.Consumed, Deliver;
  }

  lemma CreatesLeaveFiles(cfg: Config, s: State, rid: Rid, c: Choice)
    requires rid in s.requests
    requires var r := s.requests[rid]; r.Store? || r.PutBudget? || r.Mark? || r.Reply?
    ensures AdvanceStep(cfg, s, rid, c).files == s.files
  {
    hide V.Written, S.Created;
  }

  lemma SecretsLeaveFiles(cfg: Config, s: State, rid: Rid, c: Choice)
    requires rid in s.requests && !ForFiles(s.requests[rid])
    ensures AdvanceStep(cfg, s, rid, c).files == s.files
  {
    hide ConsumeStep, BurnStep, S.MetaOf, Impair, Miss, IsExpired;
    var r := s.requests[rid];
    if r.Consume? {
      ConsumeLeavesFiles(s, rid, r.id, r.caller, c);
    } else if r.Burn? {
      BurnLeavesFiles(s, rid, r.id, r.caller, c);
    } else if r.Store? || r.PutBudget? || r.Mark? || r.Reply? {
      hide AdvanceStep;
      CreatesLeaveFiles(cfg, s, rid, c);
    }
  }

  /** A file that is gone stays gone: only a create adds one, under an id never issued before. */
  lemma FileStaysGone(cfg: Config, s: State, a: Action, id: Id)
    requires Enabled(cfg, s, a) && id in s.fileIds && id !in s.files
    ensures id !in Step(cfg, s, a).files
  {
    if a.Advance? && !ForFiles(s.requests[a.rid]) {
      hide AdvanceStep;
      SecretsLeaveFiles(cfg, s, a.rid, a.choice);
    }
  }

  predicate FileGone(s: State, id: Id) {
    id in s.fileIds && id !in s.files
  }

  lemma GoneFileStep(cfg: Config, run: seq<State>, actions: seq<Action>, i: nat, id: Id)
    requires IsRun(cfg, run, actions) && i < |actions| && FileGone(run[i], id)
    ensures FileGone(run[i + 1], id)
  {
    assert MovesAt(cfg, run, actions, i);
    StepGrows(cfg, run, actions, i, id);
    hide Step, Enabled;
    FileStaysGone(cfg, run[i], actions[i], id);
  }

  lemma {:induction false} GoneFile(cfg: Config, run: seq<State>, actions: seq<Action>, i: nat, j: nat, id: Id)
    requires IsRun(cfg, run, actions) && i <= j < |run| && FileGone(run[i], id)
    ensures FileGone(run[j], id)
    decreases j
  {
    if i < j {
      hide FileGone, MovesAt;
      GoneFile(cfg, run, actions, i, j - 1, id);
      GoneFileStep(cfg, run, actions, j - 1, id);
    }
  }

  /** One step of the gate of a file asks for no session exactly if auth is off, or the gate is open and the mark not there. */
  lemma FileGate(cfg: Config, s: State, rid: Rid, id: Id, c: Choice)
    ensures var s' := GateStep(cfg, s, rid, FileRoute, id, c);
      rid in s'.requests && s'.requests[rid].FileBurn? <==> !cfg.authEnabled || (!cfg.gateAll && c.commits && id !in s.marks)
  {
  }

  /** No file is handed out twice, and none after its expiry: for files the burn itself looks at the clock. */
  lemma FileShownOnce(cfg: Config, run: seq<State>, actions: seq<Action>, i: nat, j: nat, id: Id)
    requires IsRun(cfg, run, actions) && i < |actions| && HandsOutFile(run[i], actions[i], id)
    ensures id in run[i].files && run[i].files[id].Row? && !IsExpired(run[i].files[id].value.expiresAt, run[i].now)
    ensures i < j < |actions| ==> !HandsOutFile(run[j], actions[j], id)
  {
    RunSlot(cfg, run, actions, i, id);
    assert MovesAt(cfg, run, actions, i);
    assert FileGone(run[i + 1], id);
    if i < j < |actions| {
      GoneFile(cfg, run, actions, i + 1, j, id);
    }
  }
}
