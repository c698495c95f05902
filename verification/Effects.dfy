/**
 Which steps do what to one issued id, exactly: its secret, its budget, what was handed out of it and how
 often it was not found. Everything that is not named here leaves all four alone.
 */
module Effects {
  import opened Records
  import opened Protocol
  import opened Invariant
  import S = SecretStore
  import V = ViewsStore
  import F = FileStore

  datatype Core = Core(secret: Option<Row<S.Secret>>, budget: Option<Row<V.Budget>>, log: seq<Delivery>, misses: nat)

  function CoreOf(s: State, id: Id): Core
    requires id in s.book
  {
    Core(At(s.secrets, id), At(s.views, id), s.book[id].log, s.book[id].misses)
  }

  ghost predicate Same(s: State, s': State, id: Id)
    requires id in s.book
  {
    id in s'.book && CoreOf(s', id) == CoreOf(s, id)
  }

  /** A budget row from which a view can be served: one that decodes and holds more than the last view. */
  predicate Servable(views: V.Rows, id: Id) {
    id in views && views[id].Row? && views[id].value.remaining > 1
  }

  /** What a step hands out of an id: a view from its budget, or the secret itself. */
  function Handout(s: State, a: Action, id: Id): seq<Delivery> {
    if !a.Advance? || a.rid !in s.requests || !a.choice.commits then []
    else match s.requests[a.rid]
      case Consume(x, caller) =>
        if x == id && Servable(s.views, id)
        then [Delivery(a.rid, s.views[id].value.ciphertext, s.views[id].value.remaining - 1, caller)] else []
      case Burn(x, caller) =>
        if x == id && id in s.secrets && s.secrets[id].Row?
        then [Delivery(a.rid, s.secrets[id].value.ciphertext, 0, caller)] else []
      case _ => []
  }

  // ---- Step by step ----

  lemma ConsumeElsewhere(s: State, rid: Rid, x: Id, caller: Caller, c: Choice, id: Id)
    requires id in s.book && (x != id || !c.commits)
    ensures Same(s, ConsumeStep(s, rid, x, caller, c), id)
  {
  }

  lemma ConsumeHere(s: State, rid: Rid, caller: Caller, c: Choice, id: Id)
    requires id in s.book && id != "" && c.commits
    ensures var s' := ConsumeStep(s, rid, id, caller, c);
      id in s'.book && CoreOf(s', id) ==
        if Servable(s.views, id) then
          var b := s.views[id].value;
          CoreOf(s, id).(budget := Some(Row(V.Budget(b.remaining - 1, b.ciphertext))),
                         log := s.book[id].log + [Delivery(rid, b.ciphertext, b.remaining - 1, caller)])
        else CoreOf(s, id).(budget := None)
  {
  }

  lemma BurnElsewhere(s: State, rid: Rid, x: Id, caller: Caller, c: Choice, id: Id)
    requires id in s.book && (x != id || !c.commits || (id in s.secrets && s.secrets[id].Undecodable?))
    ensures Same(s, BurnStep(s, rid, x, caller, c), id)
  {
  }

  lemma BurnMisses(s: State, rid: Rid, caller: Caller, c: Choice, id: Id)
    requires id in s.book && c.commits && id !in s.secrets
    ensures var s' := BurnStep(s, rid, id, caller, c);
      id in s'.book && CoreOf(s', id) == CoreOf(s, id).(misses := s.book[id].misses + 1)
  {
  }

  lemma BurnHits(s: State, rid: Rid, caller: Caller, c: Choice, id: Id)
    requires id in s.book && c.commits && id in s.secrets && s.secrets[id].Row?
    ensures var s' := BurnStep(s, rid, id, caller, c);
      id in s'.book && CoreOf(s', id) ==
        CoreOf(s, id).(secret := None, log := s.book[id].log + [Delivery(rid, s.secrets[id].value.ciphertext, 0, caller)])
  {
  }

  lemma ReapCore(s: State, rid: Rid, x: Id, c: Choice, id: Id)
    requires id in s.book
    ensures var s' := Finish(Miss(Reaped(s, x, c), x), rid);
      id in s'.book && CoreOf(s', id) ==
        if x != id then CoreOf(s, id)
        else CoreOf(s, id).(secret := if c.commits then None else At(s.secrets, id), misses := s.book[id].misses + 1)
  {
  }

  lemma MetaReapCore(s: State, rid: Rid, x: Id, c: Choice, id: Id)
    requires id in s.book
    ensures var s' := Goto(Reaped(s, x, c), rid, MetaViews(x, None));
      id in s'.book && CoreOf(s', id) == if x == id && c.commits then CoreOf(s, id).(secret := None) else CoreOf(s, id)
  {
  }

  lemma StoreSame(cfg: Config, s: State, rid: Rid, body: NewSecret, c: Choice, id: Id)
    requires id in s.book && c.newId != id
    ensures Same(s, StoreStep(cfg, s, rid, body, c), id)
  {
  }

  lemma PutSame(s: State, rid: Rid, x: Id, body: NewSecret, c: Choice, id: Id)
    requires id in s.book && x in s.book && x != id
    ensures Same(s, PutStep(s, rid, x, body, c), id)
  {
  }

  lemma MarkSame(s: State, rid: Rid, x: Id, c: Choice, id: Id)
    requires id in s.book && x in s.book
    ensures Same(s, MarkStep(s, rid, x, c), id) && Same(s, ReplyStep(s, rid, x), id)
  {
  }

  lemma ReadSame(s: State, rid: Rid, x: Id, caller: Caller, e: Time, size: int, c: Choice, id: Id)
    requires id in s.book
    ensures Same(s, PeekStep(s, rid, x, caller, c), id)
    ensures Same(s, MetaReadStep(s, rid, x, c), id)
  {
    hide S.MetaOf;
  }

  lemma CheckSame(s: State, rid: Rid, x: Id, caller: Caller, e: Time, size: int, id: Id)
    requires id in s.book
    ensures Same(s, CheckStep(s, rid, x, caller, e), id)
    ensures Same(s, MetaCheckStep(s, rid, x, e, size), id)
  {
  }

  lemma GateSame(cfg: Config, s: State, rid: Rid, route: Route, x: Id, present: bool, c: Choice, id: Id)
    requires id in s.book
    ensures Same(s, GateStep(cfg, s, rid, route, x, c), id)
    ensures Same(s, SessionStep(s, rid, route, x, present, c), id)
  {
  }

  lemma FilesSame(cfg: Config, s: State, rid: Rid, file: NewFile, x: Id, c: Choice, id: Id)
    requires id in s.book
    ensures Same(s, FileStoreStep(cfg, s, rid, file, c), id)
    ensures Same(s, FileMarkStep(s, rid, x, c), id)
    ensures Same(s, FileBurnStep(s, rid, x, c), id)
    ensures Same(s, DropMarkStep(s, rid, x, c), id)
  {
  }

  /** The requests whose steps can touch an issued id. */
  predicate Busy(r: Request, id: Id) {
    (r.PutBudget? || r.Consume? || r.Burn? || r.Reap? || r.MetaReap?) && r.id == id
  }

  lemma QuietAdvance(cfg: Config, s: State, rid: Rid, c: Choice, id: Id)
    requires rid in s.requests && id in s.book && id != "" && !Busy(s.requests[rid], id)
    requires s.requests[rid].Store? ==> c.newId != id
    ensures Same(s, AdvanceStep(cfg, s, rid, c), id)
  {
    hide ConsumeStep, BurnStep, StoreStep, PutStep, MarkStep, ReplyStep, PeekStep, CheckStep, MetaReadStep, MetaCheckStep,
         GateStep, SessionStep, FileStoreStep, FileMarkStep, FileBurnStep, DropMarkStep, CoreOf;
    match s.requests[rid]
    case Store(body) => StoreSame(cfg, s, rid, body, c, id);
    case PutBudget(x, body) => if x in s.book { PutSame(s, rid, x, body, c, id); }
    case Mark(x) => if x in s.book { MarkSame(s, rid, x, c, id); }
    case Reply(x) => if x in s.book { MarkSame(s, rid, x, c, id); }
    case Gate(route, x) => GateSame(cfg, s, rid, route, x, false, c, id);
    case Session(route, x, present) => GateSame(cfg, s, rid, route, x, present, c, id);
    case Consume(x, caller) => ConsumeElsewhere(s, rid, x, caller, c, id);
    case Peek(x, caller) => ReadSame(s, rid, x, caller, 0, 0, c, id);
    case Check(x, caller, e) => CheckSame(s, rid, x, caller, e, 0, id);
    case Reap(x) => ReapCore(s, rid, x, c, id);
    case Burn(x, caller) => BurnElsewhere(s, rid, x, caller, c, id);
    case DropMark(x) => FilesSame(cfg, s, rid, NewFile([], 0, false), x, c, id);
    case MetaRead(x) => ReadSame(s, rid, x, Caller(false, false), 0, 0, c, id);
    case MetaCheck(x, e, size) => CheckSame(s, rid, x, Caller(false, false), e, size, id);
    case MetaReap(x) => MetaReapCore(s, rid, x, c, id);
    case MetaViews(_, _) => FinishSame(s, rid, id);
    case FileStore(file) => FilesSame(cfg, s, rid, file, "", c, id);
    case FileMark(x) => FilesSame(cfg, s, rid, NewFile([], 0, false), x, c, id);
    case FileBurn(x, _) => FilesSame(cfg, s, rid, NewFile([], 0, false), x, c, id);
  }

  lemma FinishSame(s: State, rid: Rid, id: Id)
    requires id in s.book
    ensures Same(s, Finish(s, rid), id)
  {
  }

  // ---- What was handed out grows by exactly this ----

  lemma BusyLogs(cfg: Config, s: State, rid: Rid, c: Choice, id: Id)
    requires rid in s.requests && id in s.book && id != "" && Busy(s.requests[rid], id) && !s.requests[rid].PutBudget?
    ensures var s' := AdvanceStep(cfg, s, rid, c);
      id in s'.book && s'.book[id].log == s.book[id].log + Handout(s, Advance(rid, c), id)
  {
    hide ConsumeStep, BurnStep, Reaped;
    match s.requests[rid]
    case Consume(x, caller) => if c.commits { ConsumeHere(s, rid, caller, c, id); } else { ConsumeElsewhere(s, rid, x, caller, c, id); }
    case Burn(x, caller) =>
      if !c.commits || (id in s.secrets && s.secrets[id].Undecodable?) { BurnElsewhere(s, rid, x, caller, c, id); }
      else if id in s.secrets { BurnHits(s, rid, caller, c, id); }
      else { BurnMisses(s, rid, caller, c, id); }
    case Reap(x) => ReapCore(s, rid, x, c, id);
    case MetaReap(x) => MetaReapCore(s, rid, x, c, id);
    case _ =>
  }

  lemma PutLogs(s: State, rid: Rid, body: NewSecret, c: Choice, id: Id)
    requires id in s.book
    ensures var s' := PutStep(s, rid, id, body, c); id in s'.book && s'.book[id].log == s.book[id].log
  {
  }

  lemma AdvanceLogs(cfg: Config, s: State, rid: Rid, c: Choice, id: Id)
    requires rid in s.requests && id in s.book && id != "" && (s.requests[rid].Store? ==> c.newId != id)
    ensures var s' := AdvanceStep(cfg, s, rid, c);
      id in s'.book && s'.book[id].log == s.book[id].log + Handout(s, Advance(rid, c), id)
  {
    var r := s.requests[rid];
    if r.PutBudget? && r.id == id {
      PutLogs(s, rid, r.body, c, id);
    } else {
      hide AdvanceStep;
      if Busy(r, id) { BusyLogs(cfg, s, rid, c, id); } else { QuietAdvance(cfg, s, rid, c, id); }
    }
  }

  /** In any step of anybody, what is handed out of an issued id is a view served from its budget or its burned secret. */
  lemma StepLogs(cfg: Config, s: State, a: Action, id: Id)
    requires Enabled(cfg, s, a) && id in s.book && id != ""
    ensures var s' := Step(cfg, s, a);
      id in s'.book && s'.book[id].log == s.book[id].log + Handout(s, a, id)
  {
    if a.Advance? {
      AdvanceLogs(cfg, s, a.rid, a.choice, id);
      hide AdvanceStep;
    } else {
      hide S.Unexpired, F.Unexpired, SweepStep;
    }
  }

  // ---- What is left, exactly, of a secret whose lifetime runs ----

  function Left(s: State, id: Id): nat {
    Potential(SlotOf(s, id))
  }

  /** Its create has answered, and no reveal had come for it before. */
  predicate Untouched(s: State, id: Id) {
    Known(s, id) && id !in s.early
  }

  predicate Lapsed(s: State, id: Id)
    requires id in s.book
  {
    IsExpired(s.book[id].expiresAt, s.now)
  }

  ghost predicate Counts(s: State, s': State, a: Action, id: Id)
    requires id in s.book
  {
    && id in s'.book
    && Left(s', id) == Left(s, id) - |Handout(s, a, id)|
    && (s'.book[id].misses != s.book[id].misses ==> s'.book[id].misses == s.book[id].misses + 1 && Left(s, id) == 0)
  }

  lemma ConsumeCounts(cfg: Config, s: State, rid: Rid, caller: Caller, c: Choice, id: Id)
    requires Inv(cfg, s) && rid in s.requests && s.requests[rid] == Consume(id, caller) && Untouched(s, id)
    ensures Counts(s, ConsumeStep(s, rid, id, caller, c), Advance(rid, c), id)
  {
    SlotFact(cfg, s, id);
    hide Inv, ConsumeStep, InOrder, Exact, OnePerRequest, Private, Faithful, MarkKept;
    if c.commits { ConsumeHere(s, rid, caller, c, id); } else { ConsumeElsewhere(s, rid, id, caller, c, id); }
  }

  lemma BurnCounts(cfg: Config, s: State, rid: Rid, caller: Caller, c: Choice, id: Id)
    requires Inv(cfg, s) && rid in s.requests && s.requests[rid] == Burn(id, caller) && Untouched(s, id)
    ensures Counts(s, BurnStep(s, rid, id, caller, c), Advance(rid, c), id)
  {
    RequestFact(cfg, s, rid);
    assert id !in s.views;
    hide Inv, BurnStep, SlotInv, LocalInv;
    if !c.commits || (id in s.secrets && s.secrets[id].Undecodable?) { BurnElsewhere(s, rid, id, caller, c, id); }
    else if id in s.secrets { BurnHits(s, rid, caller, c, id); }
    else { BurnMisses(s, rid, caller, c, id); }
  }

  lemma BusyCounts(cfg: Config, s: State, rid: Rid, c: Choice, id: Id)
    requires Inv(cfg, s) && rid in s.requests && Busy(s.requests[rid], id)
    requires Untouched(s, id) && !Lapsed(s, id)
    ensures Counts(s, AdvanceStep(cfg, s, rid, c), Advance(rid, c), id)
  {
    RequestFact(cfg, s, rid);
    hide Inv, ConsumeStep, BurnStep, Counts;
    match s.requests[rid]
    case Consume(x, caller) => ConsumeCounts(cfg, s, rid, caller, c, id);
    case Burn(x, caller) => BurnCounts(cfg, s, rid, caller, c, id);
    case _ => assert false;
  }

  /** A purge takes what is past its expiry only. */
  lemma PurgeCounts(cfg: Config, s: State, a: Action, id: Id)
    requires Inv(cfg, s) && Enabled(cfg, s, a) && a.SweepSecrets? && Untouched(s, id) && !Lapsed(s, id)
    ensures Counts(s, Step(cfg, s, a), a, id)
  {
    SlotFact(cfg, s, id);
    hide Inv, InOrder, Exact, OnePerRequest, Private;
    assert At(S.Unexpired(s.secrets, a.at), id) == At(s.secrets, id);
  }

  /** The views sweeper takes the budget of what is gone, and before its expiry what is gone was burned. */
  lemma SweepCounts(cfg: Config, s: State, a: Action, id: Id)
    requires Inv(cfg, s) && Enabled(cfg, s, a) && (a.SweepViews? || a.SweepMarks?) && Untouched(s, id) && !Lapsed(s, id)
    ensures Counts(s, Step(cfg, s, a), a, id)
  {
    assert SweepInv(s, s.viewsSweep);
    hide Inv, SweepInv, SlotInv;
    if a.SweepViews? && s.viewsSweep.Dropping? && s.viewsSweep.id == id {
      OrphanBurned(cfg, s, id);
    }
  }

  lemma OrphanBurned(cfg: Config, s: State, id: Id)
    requires Inv(cfg, s) && Untouched(s, id) && !Lapsed(s, id) && SweepInv(s, s.viewsSweep)
    requires s.viewsSweep.Dropping? && s.viewsSweep.id == id
    ensures id !in s.secrets && id !in s.views
  {
    SlotFact(cfg, s, id);
    hide Inv;
  }

  lemma RestCounts(cfg: Config, s: State, a: Action, id: Id)
    requires Enabled(cfg, s, a) && id in s.book && a != SpoilBudget(id)
    requires !a.Advance? && !a.SweepSecrets? && !a.SweepViews? && !a.SweepMarks?
    ensures Counts(s, Step(cfg, s, a), a, id)
  {
    hide F.Unexpired;
  }

  /**
   While its lifetime runs, every step takes from what is left of an id exactly what it hands out, and answers
   "not found" only if nothing is left; all that can interfere is a budget row that stops decoding.
   */
  lemma StepCounts(cfg: Config, s: State, a: Action, id: Id)
    requires Inv(cfg, s) && Enabled(cfg, s, a) && Untouched(s, id) && !Lapsed(s, id) && a != SpoilBudget(id)
    ensures Counts(s, Step(cfg, s, a), a, id)
  {
    if a.Advance? {
      SlotFact(cfg, s, id);
      if Busy(s.requests[a.rid], id) {
        BusyCounts(cfg, s, a.rid, a.choice, id);
      } else {
        QuietAdvance(cfg, s, a.rid, a.choice, id);
        hide Inv, AdvanceStep;
      }
    } else {
      hide Step, Inv, Enabled, Counts;
      if a.SweepSecrets? { PurgeCounts(cfg, s, a, id); }
      else if a.SweepViews? || a.SweepMarks? { SweepCounts(cfg, s, a, id); }
      else { RestCounts(cfg, s, a, id); }
    }
  }
}
