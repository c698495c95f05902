/** A request that nobody else gets in between: its steps, one after the other, to the answer. */
module Uninterrupted {
  import opened Records
  import opened Protocol
  import S = SecretStore
  import V = ViewsStore

  /** The transactions of a request; each of them runs at most once in its life. */
  datatype Stage =
    | AtStore | AtPut | AtMark | AtReply | AtGate | AtSession | AtConsume | AtPeek | AtCheck | AtReap | AtBurn
    | AtDrop | AtMeta | AtMetaCheck | AtMetaReap | AtViews | AtFileStore | AtFileMark | AtFileBurn

  type Environment = Stage -> Choice

  function StageOf(r: Request): Stage {
    match r
    case Store(_) => AtStore
    case PutBudget(_, _) => AtPut
    case Mark(_) => AtMark
    case Reply(_) => AtReply
    case Gate(_, _) => AtGate
    case Session(_, _, _) => AtSession
    case Consume(_, _) => AtConsume
    case Peek(_, _) => AtPeek
    case Check(_, _, _) => AtCheck
    case Reap(_) => AtReap
    case Burn(_, _) => AtBurn
    case DropMark(_) => AtDrop
    case MetaRead(_) => AtMeta
    case MetaCheck(_, _, _) => AtMetaCheck
    case MetaReap(_) => AtMetaReap
    case MetaViews(_, _) => AtViews
    case FileStore(_) => AtFileStore
    case FileMark(_) => AtFileMark
    case FileBurn(_, _) => AtFileBurn
  }

  /** How many steps a request has before it at most. */
  function Ahead(r: Request): nat {
    match r
    case Gate(_, _) => 8
    case Session(_, _, _) => 7
    case Consume(_, _) | FileBurn(_, _) => 6
    case Peek(_, _) | MetaRead(_) | Store(_) => 5
    case Check(_, _, _) | MetaCheck(_, _, _) | PutBudget(_, _) => 4
    case Burn(_, _) | Reap(_) | MetaReap(_) | Mark(_) | FileStore(_) => 3
    case DropMark(_) | MetaViews(_, _) | Reply(_) | FileMark(_) => 2
  }

  /** The state in which request `rid` has answered, when nobody else moves. */
  function Alone(cfg: Config, s: State, rid: Rid, env: Environment): State
    decreases if rid in s.requests then Ahead(s.requests[rid]) else 0
  {
    if rid !in s.requests then s
    else
      var s' := AdvanceStep(cfg, s, rid, env(StageOf(s.requests[rid])));
      if rid in s'.requests && Ahead(s'.requests[rid]) >= Ahead(s.requests[rid]) then s'
      else Alone(cfg, s', rid, env)
  }

  /** One step of the way. */
  lemma Along(cfg: Config, s: State, rid: Rid, env: Environment, s': State)
    requires rid in s.requests && s' == AdvanceStep(cfg, s, rid, env(StageOf(s.requests[rid])))
    requires rid in s'.requests ==> Ahead(s'.requests[rid]) < Ahead(s.requests[rid])
    ensures Alone(cfg, s, rid, env) == Alone(cfg, s', rid, env)
  {
    hide AdvanceStep;
  }

  lemma GatePasses(cfg: Config, s: State, rid: Rid, route: Route, id: Id, env: Environment)
    requires rid in s.requests && s.requests[rid] == Gate(route, id)
    requires cfg.authEnabled ==> !cfg.gateAll && env(AtGate).commits && id !in s.marks
    ensures Alone(cfg, s, rid, env) == Alone(cfg, Goto(s, rid, Entry(route, id, Caller(false, id in s.secrets))), rid, env)
  {
    Along(cfg, s, rid, env, Goto(s, rid, Entry(route, id, Caller(false, id in s.secrets))));
  }

  lemma GateFails(cfg: Config, s: State, rid: Rid, route: Route, id: Id, env: Environment)
    requires rid in s.requests && s.requests[rid] == Gate(route, id)
    requires cfg.authEnabled && !cfg.gateAll && !env(AtGate).commits
    ensures Alone(cfg, s, rid, env) == Alone(cfg, Finish(s, rid), rid, env)
  {
    Along(cfg, s, rid, env, Finish(s, rid));
  }

  lemma GateAsks(cfg: Config, s: State, rid: Rid, route: Route, id: Id, env: Environment)
    requires rid in s.requests && s.requests[rid] == Gate(route, id)
    requires cfg.authEnabled && (cfg.gateAll || (env(AtGate).commits && id in s.marks))
    ensures Alone(cfg, s, rid, env) == Alone(cfg,
      if env(AtSession).session.Verified? then Goto(s, rid, Entry(route, id, Caller(true, id in s.secrets)))
      else Finish(s, rid), rid, env)
  {
    var u := Goto(s, rid, Session(route, id, id in s.secrets));
    Along(cfg, s, rid, env, u);
    SessionAlong(cfg, s, u, rid, route, id, id in s.secrets, env);
  }

  lemma SessionAlong(cfg: Config, s: State, u: State, rid: Rid, route: Route, id: Id, present: bool, env: Environment)
    requires u == Goto(s, rid, Session(route, id, present))
    ensures Alone(cfg, u, rid, env) == Alone(cfg,
      if env(AtSession).session.Verified? then Goto(s, rid, Entry(route, id, Caller(true, present)))
      else Finish(s, rid), rid, env)
  {
    var v := if env(AtSession).session.Verified? then Goto(s, rid, Entry(route, id, Caller(true, present))) else Finish(s, rid);
    assert SessionStep(u, rid, route, id, present, env(AtSession)) == v;
    Along(cfg, u, rid, env, v);
  }

  /** For the stages behind the gate: the step functions, one by one. */
  lemma ConsumeAlong(cfg: Config, s: State, rid: Rid, id: Id, caller: Caller, env: Environment)
    requires rid in s.requests && s.requests[rid] == Consume(id, caller)
    ensures Alone(cfg, s, rid, env) == Alone(cfg, ConsumeStep(s, rid, id, caller, env(AtConsume)), rid, env)
  {
    hide V.Consumed;
    Along(cfg, s, rid, env, ConsumeStep(s, rid, id, caller, env(AtConsume)));
  }

  lemma PeekAlong(cfg: Config, s: State, rid: Rid, id: Id, caller: Caller, env: Environment)
    requires rid in s.requests && s.requests[rid] == Peek(id, caller)
    ensures Alone(cfg, s, rid, env) == Alone(cfg, PeekStep(s, rid, id, caller, env(AtPeek)), rid, env)
  {
    hide S.MetaOf;
    Along(cfg, s, rid, env, PeekStep(s, rid, id, caller, env(AtPeek)));
  }

  lemma CheckAlong(cfg: Config, s: State, rid: Rid, id: Id, caller: Caller, e: Time, env: Environment)
    requires rid in s.requests && s.requests[rid] == Check(id, caller, e)
    ensures Alone(cfg, s, rid, env) == Alone(cfg, CheckStep(s, rid, id, caller, e), rid, env)
  {
    Along(cfg, s, rid, env, CheckStep(s, rid, id, caller, e));
  }

  lemma ReapAlong(cfg: Config, s: State, rid: Rid, id: Id, env: Environment)
    requires rid in s.requests && s.requests[rid] == Reap(id)
    ensures Alone(cfg, s, rid, env) == Alone(cfg, Finish(Miss(Reaped(s, id, env(AtReap)), id), rid), rid, env)
  {
    Along(cfg, s, rid, env, Finish(Miss(Reaped(s, id, env(AtReap)), id), rid));
  }

  lemma BurnAlong(cfg: Config, s: State, rid: Rid, id: Id, caller: Caller, env: Environment)
    requires rid in s.requests && s.requests[rid] == Burn(id, caller)
    ensures Alone(cfg, s, rid, env) == Alone(cfg, BurnStep(s, rid, id, caller, env(AtBurn)), rid, env)
  {
    hide S.Burned, Deliver, Miss;
    Along(cfg, s, rid, env, BurnStep(s, rid, id, caller, env(AtBurn)));
  }

  lemma DropAlong(cfg: Config, s: State, rid: Rid, id: Id, env: Environment)
    requires rid in s.requests && s.requests[rid] == DropMark(id)
    ensures Alone(cfg, s, rid, env) == Alone(cfg, DropMarkStep(s, rid, id, env(AtDrop)), rid, env)
  {
    Along(cfg, s, rid, env, DropMarkStep(s, rid, id, env(AtDrop)));
  }

  lemma MetaAlong(cfg: Config, s: State, rid: Rid, id: Id, env: Environment)
    requires rid in s.requests && s.requests[rid] == MetaRead(id)
    ensures Alone(cfg, s, rid, env) == Alone(cfg, MetaReadStep(s, rid, id, env(AtMeta)), rid, env)
  {
    hide S.MetaOf;
    Along(cfg, s, rid, env, MetaReadStep(s, rid, id, env(AtMeta)));
  }

  lemma MetaCheckAlong(cfg: Config, s: State, rid: Rid, id: Id, e: Time, size: int, env: Environment)
    requires rid in s.requests && s.requests[rid] == MetaCheck(id, e, size)
    ensures Alone(cfg, s, rid, env) == Alone(cfg, MetaCheckStep(s, rid, id, e, size), rid, env)
  {
    Along(cfg, s, rid, env, MetaCheckStep(s, rid, id, e, size));
  }

  lemma MetaReapAlong(cfg: Config, s: State, rid: Rid, id: Id, env: Environment)
    requires rid in s.requests && s.requests[rid] == MetaReap(id)
    ensures Alone(cfg, s, rid, env) == Alone(cfg, Goto(Reaped(s, id, env(AtMetaReap)), rid, MetaViews(id, None)), rid, env)
  {
    Along(cfg, s, rid, env, Goto(Reaped(s, id, env(AtMetaReap)), rid, MetaViews(id, None)));
  }

  lemma ViewsAlong(cfg: Config, s: State, rid: Rid, id: Id, seen: Option<int>, env: Environment)
    requires rid in s.requests && s.requests[rid] == MetaViews(id, seen)
    ensures Alone(cfg, s, rid, env) == Finish(s, rid)
  {
    Along(cfg, s, rid, env, Finish(s, rid));
  }

  lemma StoreAlong(cfg: Config, s: State, rid: Rid, body: NewSecret, env: Environment)
    requires rid in s.requests && s.requests[rid] == Store(body)
    ensures Alone(cfg, s, rid, env) == Alone(cfg, StoreStep(cfg, s, rid, body, env(AtStore)), rid, env)
  {
    hide S.Created;
    Along(cfg, s, rid, env, StoreStep(cfg, s, rid, body, env(AtStore)));
  }

  lemma PutAlong(cfg: Config, s: State, rid: Rid, id: Id, body: NewSecret, env: Environment)
    requires rid in s.requests && s.requests[rid] == PutBudget(id, body) && id in s.book
    ensures Alone(cfg, s, rid, env) == Alone(cfg, PutStep(s, rid, id, body, env(AtPut)), rid, env)
  {
    hide V.Written;
    Along(cfg, s, rid, env, PutStep(s, rid, id, body, env(AtPut)));
  }

  lemma MarkAlong(cfg: Config, s: State, rid: Rid, id: Id, env: Environment)
    requires rid in s.requests && s.requests[rid] == Mark(id) && id in s.book
    ensures Alone(cfg, s, rid, env) == Alone(cfg, MarkStep(s, rid, id, env(AtMark)), rid, env)
  {
    Along(cfg, s, rid, env, MarkStep(s, rid, id, env(AtMark)));
  }

  lemma ReplyAlong(cfg: Config, s: State, rid: Rid, id: Id, env: Environment)
    requires rid in s.requests && s.requests[rid] == Reply(id) && id in s.book
    ensures Alone(cfg, s, rid, env) == ReplyStep(s, rid, id)
    ensures var t := ReplyStep(s, rid, id); t.secrets == s.secrets && t.views == s.views && t.marks == s.marks
  {
    Along(cfg, s, rid, env, ReplyStep(s, rid, id));
  }

  lemma FileStoreAlong(cfg: Config, s: State, rid: Rid, file: NewFile, env: Environment)
    requires rid in s.requests && s.requests[rid] == FileStore(file)
    ensures Alone(cfg, s, rid, env) == Alone(cfg, FileStoreStep(cfg, s, rid, file, env(AtFileStore)), rid, env)
  {
    Along(cfg, s, rid, env, FileStoreStep(cfg, s, rid, file, env(AtFileStore)));
  }

  lemma FileMarkAlong(cfg: Config, s: State, rid: Rid, id: Id, env: Environment)
    requires rid in s.requests && s.requests[rid] == FileMark(id)
    ensures Alone(cfg, s, rid, env) == FileMarkStep(s, rid, id, env(AtFileMark))
  {
    Along(cfg, s, rid, env, FileMarkStep(s, rid, id, env(AtFileMark)));
  }

  lemma FileBurnAlong(cfg: Config, s: State, rid: Rid, id: Id, caller: Caller, env: Environment)
    requires rid in s.requests && s.requests[rid] == FileBurn(id, caller)
    ensures Alone(cfg, s, rid, env) == Alone(cfg, FileBurnStep(s, rid, id, env(AtFileBurn)), rid, env)
  {
    Along(cfg, s, rid, env, FileBurnStep(s, rid, id, env(AtFileBurn)));
  }

  lemma DoneAlone(cfg: Config, s: State, rid: Rid, env: Environment)
    requires rid !in s.requests
    ensures Alone(cfg, s, rid, env) == s
  {
  }
}
