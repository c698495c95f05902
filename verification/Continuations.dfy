/** What can still be had: after a failure the run can go on so that the last view is seen after all. */
module Continuations {
  import opened Records
  import opened Protocol
  import opened Invariant
  import opened Preservation
  import opened Effects
  import opened Guarantees
  import S = SecretStore
  import V = ViewsStore

  /** `t` comes out of `s` by some enabled steps. */
  ghost predicate Reaches(cfg: Config, s: State, t: State, n: nat)
    decreases n
  {
    if n == 0 then s == t else exists a :: Enabled(cfg, s, a) && Reaches(cfg, Step(cfg, s, a), t, n - 1)
  }

  lemma Onto(cfg: Config, s: State, a: Action, t: State, n: nat)
    requires Enabled(cfg, s, a) && Reaches(cfg, Step(cfg, s, a), t, n)
    ensures Reaches(cfg, s, t, n + 1)
  {
    hide Enabled, Step;
  }

  // ---- A reveal that nothing disturbs, from each place it can stand ----

  /** The one view that is left is the secret itself, and its lifetime runs. */
  ghost predicate LastView(s: State, id: Id) {
    && id in s.book && id != "" && s.now > 0 && !Lapsed(s, id)
    && id in s.secrets && s.secrets[id].Row? && s.secrets[id].value.expiresAt == s.book[id].expiresAt
    && !Servable(s.views, id)
  }

  /** Seen: one more delivery, and nothing left. */
  ghost predicate Seen(cfg: Config, s: State, id: Id, log: seq<Delivery>)
  {
    exists n: nat, t :: Reaches(cfg, s, t, n) && id in t.book && |t.book[id].log| == |log| + 1 && Left(t, id) == 0
  }

  lemma SeenNext(cfg: Config, s: State, a: Action, id: Id, log: seq<Delivery>)
    requires Enabled(cfg, s, a) && Seen(cfg, Step(cfg, s, a), id, log)
    ensures Seen(cfg, s, id, log)
  {
    hide Step, Reaches;
    var n: nat, t :| Reaches(cfg, Step(cfg, s, a), t, n) && id in t.book && |t.book[id].log| == |log| + 1 && Left(t, id) == 0;
    Onto(cfg, s, a, t, n);
  }

  /** Every transaction commits, and the session is good. */
  function Fine(s: State): Choice {
    Choice(true, Verified, "", s.now)
  }

  lemma FromBurn(cfg: Config, s: State, rid: Rid, id: Id, caller: Caller)
    requires rid in s.requests && s.requests[rid] == Burn(id, caller) && LastView(s, id) && id !in s.views
    ensures Seen(cfg, s, id, s.book[id].log)
  {
    BurnHits(s, rid, caller, Fine(s), id);
    hide BurnStep;
    var t := Step(cfg, s, Advance(rid, Fine(s)));
    assert Left(t, id) == 0;
    assert Reaches(cfg, t, t, 0);
    SeenNext(cfg, s, Advance(rid, Fine(s)), id, s.book[id].log);
  }

  lemma CheckGives(s: State, rid: Rid, id: Id, caller: Caller, e: Time)
    requires !IsExpired(e, s.now)
    ensures CheckStep(s, rid, id, caller, e) == Goto(s, rid, Burn(id, caller))
  {
  }

  lemma FromCheck(cfg: Config, s: State, rid: Rid, id: Id, caller: Caller)
    requires LastView(s, id) && id !in s.views && rid in s.requests && s.requests[rid] == Check(id, caller, s.book[id].expiresAt)
    ensures Seen(cfg, s, id, s.book[id].log)
  {
    CheckGives(s, rid, id, caller, s.book[id].expiresAt);
    FromBurn(cfg, Goto(s, rid, Burn(id, caller)), rid, id, caller);
    hide CheckStep;
    SeenNext(cfg, s, Advance(rid, Fine(s)), id, s.book[id].log);
  }

  lemma PeekGives(s: State, rid: Rid, id: Id, caller: Caller, c: Choice)
    requires c.commits && id in s.secrets && s.secrets[id].Row?
    ensures PeekStep(s, rid, id, caller, c) == Goto(s, rid, Check(id, caller, s.secrets[id].value.expiresAt))
  {
  }

  lemma FromPeek(cfg: Config, s: State, rid: Rid, id: Id, caller: Caller)
    requires LastView(s, id) && id !in s.views && rid in s.requests && s.requests[rid] == Peek(id, caller)
    ensures Seen(cfg, s, id, s.book[id].log)
  {
    PeekGives(s, rid, id, caller, Fine(s));
    FromCheck(cfg, Goto(s, rid, Check(id, caller, s.book[id].expiresAt)), rid, id, caller);
    hide PeekStep;
    SeenNext(cfg, s, Advance(rid, Fine(s)), id, s.book[id].log);
  }

  lemma ConsumeGives(s: State, rid: Rid, id: Id, caller: Caller, c: Choice)
    requires c.commits && id != "" && !Servable(s.views, id)
    ensures ConsumeStep(s, rid, id, caller, c) == Goto(s.(views := s.views - {id}), rid, Peek(id, caller))
  {
  }

  lemma FromConsume(cfg: Config, s: State, rid: Rid, id: Id, caller: Caller)
    requires LastView(s, id) && rid in s.requests && s.requests[rid] == Consume(id, caller)
    ensures Seen(cfg, s, id, s.book[id].log)
  {
    ConsumeGives(s, rid, id, caller, Fine(s));
    FromPeek(cfg, Goto(s.(views := s.views - {id}), rid, Peek(id, caller)), rid, id, caller);
    hide ConsumeStep;
    SeenNext(cfg, s, Advance(rid, Fine(s)), id, s.book[id].log);
  }

  lemma FromSession(cfg: Config, s: State, rid: Rid, id: Id, present: bool)
    requires LastView(s, id) && rid in s.requests && s.requests[rid] == Session(RevealRoute, id, present)
    ensures Seen(cfg, s, id, s.book[id].log)
  {
    FromConsume(cfg, Goto(s, rid, Consume(id, Caller(true, present))), rid, id, Caller(true, present));
    SeenNext(cfg, s, Advance(rid, Fine(s)), id, s.book[id].log);
  }

  lemma FromGate(cfg: Config, s: State, rid: Rid, id: Id)
    requires LastView(s, id) && rid in s.requests && s.requests[rid] == Gate(RevealRoute, id)
    ensures Seen(cfg, s, id, s.book[id].log)
  {
    var present := id in s.secrets;
    if cfg.authEnabled && (cfg.gateAll || id in s.marks) {
      FromSession(cfg, Goto(s, rid, Session(RevealRoute, id, present)), rid, id, present);
    } else {
      FromConsume(cfg, Goto(s, rid, Consume(id, Caller(false, present))), rid, id, Caller(false, present));
    }
    SeenNext(cfg, s, Advance(rid, Fine(s)), id, s.book[id].log);
  }

  lemma FromStart(cfg: Config, s: State, id: Id)
    requires LastView(s, id)
    ensures Seen(cfg, s, id, s.book[id].log)
  {
    FromGate(cfg, Step(cfg, s, Start(RevealRoute, id)), s.nextRid, id);
    SeenNext(cfg, s, Start(RevealRoute, id), id, s.book[id].log);
  }

  lemma {:induction false} TimeRuns(cfg: Config, run: seq<State>, actions: seq<Action>, i: nat)
    requires IsRun(cfg, run, actions) && i < |run|
    ensures run[i].now > 0
    decreases i
  {
    if i > 0 {
      TimeRuns(cfg, run, actions, i - 1);
      RunInv(cfg, run, actions, i - 1);
      assert MovesAt(cfg, run, actions, i - 1);
      StepKeeps(cfg, run[i - 1], actions[i - 1]);
      hide Inv, Step, Enabled, Grows;
    }
  }

  /** And that one view can be had: the run can go on so that exactly it is handed out, and then nothing is left. */
  lemma LastViewStillComes(cfg: Config, run: seq<State>, actions: seq<Action>, i: nat, rid: Rid)
    requires IsRun(cfg, run, actions) && i < |actions|
    requires rid in run[i].requests && TowardsBurn(run[i].requests[rid]) && Fails(run[i], actions[i], rid)
    requires run[i].requests[rid].id !in run[i].early
    requires var id := run[i].requests[rid].id;
      id in run[i].secrets && run[i].secrets[id].Row? && id in run[i].book && !Lapsed(run[i], id)
    ensures var id := run[i].requests[rid].id;
      id in run[i + 1].book && Seen(cfg, run[i + 1], id, run[i + 1].book[id].log)
  {
    var id := run[i].requests[rid].id;
    RunInv(cfg, run, actions, i);
    RequestFact(cfg, run[i], rid);
    SlotFact(cfg, run[i], id);
    assert MovesAt(cfg, run, actions, i);
    FailureChangesNothing(cfg, run[i], actions[i], rid, id);
    TimeRuns(cfg, run, actions, i);
    hide Inv, Step, Enabled;
    FromStart(cfg, run[i + 1], id);
  }
}
