/** What a meta request answers at its last step, whatever ran between its steps: existence, size and the views left. */
module Previews {
  import opened Records
  import opened Protocol
  import opened Invariant
  import opened Preservation
  import opened Effects
  import opened Guarantees
  import opened Sessions
  import L = Lateness
  import R = Server

  /** The check of a meta request that finds the lifetime not over, its last instant included. */
  predicate FindsAlive(s: State, a: Action, rid: Rid, id: Id) {
    && a.Advance? && a.rid == rid && rid in s.requests && s.requests[rid].MetaCheck? && s.requests[rid].id == id
    && (s.requests[rid].expiresAt == ZERO_TIME || s.now <= s.requests[rid].expiresAt)
  }

  /** It is about to tell of a secret. */
  predicate ToTell(s: State, rid: Rid, id: Id) {
    rid in s.requests && s.requests[rid].MetaViews? && s.requests[rid].id == id && s.requests[rid].seen.Some?
  }

  lemma WhenceToTell(cfg: Config, s: State, a: Action, rid: Rid, id: Id)
    requires Inv(cfg, s) && Enabled(cfg, s, a) && ToTell(Step(cfg, s, a), rid, id)
    ensures ToTell(s, rid, id) || FindsAlive(s, a, rid, id)
  {
    if a.Advance? && a.rid == rid {
      OwnMoves(cfg, s, rid, a.choice);
      hide AdvanceStep, Inv;
    } else if rid < s.nextRid {
      L.OthersStay(cfg, s, a, rid);
      hide Step, Inv, Enabled;
    } else {
      NewAtGate(cfg, s, a, rid);
      hide Step, Inv, Enabled;
    }
  }

  ghost predicate FoundBefore(run: seq<State>, actions: seq<Action>, j: nat, rid: Rid, id: Id)
    requires j <= |actions| <= |run|
  {
    exists m :: 0 <= m < j && FindsAlive(run[m], actions[m], rid, id)
  }

  lemma {:induction false} ToldFound(cfg: Config, run: seq<State>, actions: seq<Action>, j: nat, rid: Rid, id: Id)
    requires IsRun(cfg, run, actions) && j < |run| && ToTell(run[j], rid, id)
    ensures FoundBefore(run, actions, j, rid, id)
    decreases j
  {
    assert j > 0;
    RunInv(cfg, run, actions, j - 1);
    assert MovesAt(cfg, run, actions, j - 1);
    hide Inv, Step, Enabled, ToTell, FindsAlive;
    WhenceToTell(cfg, run[j - 1], actions[j - 1], rid, id);
    if !FindsAlive(run[j - 1], actions[j - 1], rid, id) {
      ToldFound(cfg, run, actions, j - 1, rid, id);
      var m :| 0 <= m < j - 1 && FindsAlive(run[m], actions[m], rid, id);
    }
  }

  /** Nothing is left for it but to tell. */
  ghost predicate Telling(s: State, rid: Rid, id: Id) {
    rid < s.nextRid && (rid in s.requests ==> ToTell(s, rid, id))
  }

  lemma OwnTelling(cfg: Config, s: State, rid: Rid, c: Choice, id: Id)
    requires rid in s.requests && (ToTell(s, rid, id) || FindsAlive(s, Advance(rid, c), rid, id))
    ensures var s' := AdvanceStep(cfg, s, rid, c); s'.nextRid == s.nextRid && (rid in s'.requests ==> ToTell(s', rid, id))
  {
    var r := s.requests[rid];
    if r.MetaCheck? {
      assert AdvanceStep(cfg, s, rid, c) == MetaCheckStep(s, rid, id, r.expiresAt, r.size);
    } else {
      assert AdvanceStep(cfg, s, rid, c) == Finish(s, rid);
    }
    hide AdvanceStep;
  }

  lemma StaysTelling(cfg: Config, s: State, a: Action, rid: Rid, id: Id)
    requires Inv(cfg, s) && Enabled(cfg, s, a) && (Telling(s, rid, id) || FindsAlive(s, a, rid, id))
    ensures Telling(Step(cfg, s, a), rid, id)
  {
    if rid in s.requests { RequestFact(cfg, s, rid); }
    if a.Advance? && a.rid == rid {
      OwnTelling(cfg, s, rid, a.choice, id);
      hide AdvanceStep, Inv;
    } else {
      StepKeeps(cfg, s, a);
      L.OthersStay(cfg, s, a, rid);
      hide Step, Inv, Enabled;
    }
  }

  lemma {:induction false} FoundTells(cfg: Config, run: seq<State>, actions: seq<Action>, m: nat, j: nat, rid: Rid, id: Id)
    requires IsRun(cfg, run, actions) && m < j < |run| && FindsAlive(run[m], actions[m], rid, id)
    ensures Telling(run[j], rid, id)
    decreases j
  {
    RunInv(cfg, run, actions, j - 1);
    assert MovesAt(cfg, run, actions, j - 1);
    hide Inv, Step, Enabled, Telling, FindsAlive;
    if m < j - 1 { FoundTells(cfg, run, actions, m, j - 1, rid, id); }
    StaysTelling(cfg, run[j - 1], actions[j - 1], rid, id);
  }

  /**
   In every interleaving: what a meta request answers at its last step. It tells of a secret, and then its size, exactly
   if its check found the lifetime not over; and it tells the views not handed out yet, as they are at that step,
   exactly if it can read the budget and a row of it decodes.
   */
  lemma PreviewTells(cfg: Config, run: seq<State>, actions: seq<Action>, j: nat, rid: Rid, id: Id)
    requires IsRun(cfg, run, actions) && j < |actions| && Untouched(run[j], id) && L.AtMetaViews(run[j], actions[j], rid, id)
    ensures var s, b := run[j], run[j].book[id];
      L.Told(s, actions[j]) == R.Metadata(
        FoundBefore(run, actions, j, rid, id),
        if FoundBefore(run, actions, j, rid, id) then |b.ciphertext| else 0,
        if actions[j].choice.commits && id in s.views && s.views[id].Row? then Some(b.views - |b.log|) else None)
  {
    RunInv(cfg, run, actions, j);
    RequestFact(cfg, run[j], rid);
    SlotFact(cfg, run[j], id);
    if ToTell(run[j], rid, id) {
      ToldFound(cfg, run, actions, j, rid, id);
    }
    if FoundBefore(run, actions, j, rid, id) {
      var m :| 0 <= m < j && FindsAlive(run[m], actions[m], rid, id);
      FoundTells(cfg, run, actions, m, j, rid, id);
    }
    hide Inv, FoundBefore, IsRun, Exact, OnePerRequest, Private, Bounded, Faithful, AbsenceExplained;
  }

  /** The lifetime it looks at is that of the id. */
  lemma FoundWhileAlive(cfg: Config, run: seq<State>, actions: seq<Action>, m: nat, rid: Rid, id: Id)
    requires IsRun(cfg, run, actions) && m < |actions| && FindsAlive(run[m], actions[m], rid, id)
    ensures id in run[m].book && run[m].requests[rid].expiresAt == run[m].book[id].expiresAt
    ensures run[m].requests[rid].size == |run[m].book[id].ciphertext|
  {
    RunInv(cfg, run, actions, m);
    RequestFact(cfg, run[m], rid);
  }
}
