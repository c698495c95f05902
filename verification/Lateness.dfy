/**
 What can still happen after a secret's expiry, exactly. Nothing in the views store knows the time, and the
 burn itself does not look at the clock either: it relies on a check in a transaction before it.
 */
module Lateness {
  import opened Records
  import opened Protocol
  import opened Invariant
  import opened Preservation
  import opened Effects
  import opened Guarantees
  import S = SecretStore
  import V = ViewsStore
  import R = Server

  // ---- One request among others ----

  /** A request that is not moved stays where it is, or is gone after a crash; none appears under an old number. */
  lemma OthersStay(cfg: Config, s: State, a: Action, rid: Rid)
    requires Enabled(cfg, s, a) && rid < s.nextRid && !(a.Advance? && a.rid == rid)
    ensures Stays(s, Step(cfg, s, a), rid)
  {
    if a.Advance? {
      hide AdvanceStep;
      AdvanceMovesOne(cfg, s, a.rid, a.choice, rid);
    } else {
      hide S.Unexpired, SweepStep;
    }
  }

  ghost predicate Stays(s: State, s': State, r: Rid) {
    r in s'.requests ==> r in s.requests && s'.requests[r] == s.requests[r]
  }

  lemma StoreMovesOne(cfg: Config, s: State, rid: Rid, body: NewSecret, c: Choice, r: Rid)
    requires r != rid
    ensures Stays(s, StoreStep(cfg, s, rid, body, c), r)
  {
    hide S.Created;
  }

  lemma WriteMovesOne(s: State, rid: Rid, id: Id, body: NewSecret, c: Choice, r: Rid)
    requires r != rid && id in s.book
    ensures Stays(s, PutStep(s, rid, id, body, c), r) && Stays(s, MarkStep(s, rid, id, c), r) && Stays(s, ReplyStep(s, rid, id), r)
  {
    hide V.Written;
  }

  lemma GateMovesOne(cfg: Config, s: State, rid: Rid, route: Route, id: Id, present: bool, c: Choice, r: Rid)
    requires r != rid
    ensures Stays(s, GateStep(cfg, s, rid, route, id, c), r) && Stays(s, SessionStep(s, rid, route, id, present, c), r)
  {
  }

  lemma ConsumeMovesOne(s: State, rid: Rid, id: Id, caller: Caller, c: Choice, r: Rid)
    requires r != rid
    ensures Stays(s, ConsumeStep(s, rid, id, caller, c), r)
  {
    hide V.Consumed;
  }

  lemma BurnMovesOne(s: State, rid: Rid, id: Id, caller: Caller, c: Choice, r: Rid)
    requires r != rid
    ensures Stays(s, BurnStep(s, rid, id, caller, c), r)
  {
    hide S.Burned;
  }

  lemma ReadMovesOne(s: State, rid: Rid, id: Id, caller: Caller, c: Choice, r: Rid)
    requires r != rid
    ensures Stays(s, PeekStep(s, rid, id, caller, c), r) && Stays(s, MetaReadStep(s, rid, id, c), r)
  {
    hide S.MetaOf;
  }

  lemma CheckMovesOne(s: State, rid: Rid, id: Id, caller: Caller, e: Time, size: int, r: Rid)
    requires r != rid
    ensures Stays(s, CheckStep(s, rid, id, caller, e), r) && Stays(s, MetaCheckStep(s, rid, id, e, size), r)
  {
  }

  lemma FilesMoveOne(cfg: Config, s: State, rid: Rid, file: NewFile, id: Id, c: Choice, r: Rid)
    requires r != rid
    ensures Stays(s, FileStoreStep(cfg, s, rid, file, c), r) && Stays(s, FileBurnStep(s, rid, id, c), r)
    ensures Stays(s, FileMarkStep(s, rid, id, c), r) && Stays(s, DropMarkStep(s, rid, id, c), r)
  {
  }

  lemma ReapMovesOne(s: State, rid: Rid, id: Id, c: Choice, r: Rid)
    requires r != rid
    ensures Stays(s, Finish(Miss(Reaped(s, id, c), id), rid), r) && Stays(s, Goto(Reaped(s, id, c), rid, MetaViews(id, None)), r)
    ensures Stays(s, Finish(s, rid), r)
  {
  }

  lemma AdvanceMovesOne(cfg: Config, s: State, rid: Rid, c: Choice, r: Rid)
    requires rid in s.requests && r != rid
    ensures Stays(s, AdvanceStep(cfg, s, rid, c), r)
  {
    hide ConsumeStep, BurnStep, StoreStep, PutStep, MarkStep, ReplyStep, PeekStep, CheckStep, MetaReadStep, MetaCheckStep,
         GateStep, SessionStep, FileStoreStep, FileMarkStep, FileBurnStep, DropMarkStep, Stays;
    match s.requests[rid]
    case Store(body) => StoreMovesOne(cfg, s, rid, body, c, r);
    case PutBudget(id, body) => if id in s.book { WriteMovesOne(s, rid, id, body, c, r); } else { NothingMoves(s, r); }
    case Mark(id) => if id in s.book { WriteMovesOne(s, rid, id, NewSecret("", 0, 0, false), c, r); } else { NothingMoves(s, r); }
    case Reply(id) => if id in s.book { WriteMovesOne(s, rid, id, NewSecret("", 0, 0, false), c, r); } else { NothingMoves(s, r); }
    case Gate(route, id) => GateMovesOne(cfg, s, rid, route, id, false, c, r);
    case Session(route, id, present) => GateMovesOne(cfg, s, rid, route, id, present, c, r);
    case Consume(id, caller) => ConsumeMovesOne(s, rid, id, caller, c, r);
    case Peek(id, caller) => ReadMovesOne(s, rid, id, caller, c, r);
    case Check(id, caller, e) => CheckMovesOne(s, rid, id, caller, e, 0, r);
    case Reap(id) => ReapMovesOne(s, rid, id, c, r);
    case Burn(id, caller) => BurnMovesOne(s, rid, id, caller, c, r);
    case DropMark(id) => FilesMoveOne(cfg, s, rid, NewFile([], 0, false), id, c, r);
    case MetaRead(id) => ReadMovesOne(s, rid, id, Caller(false, false), c, r);
    case MetaCheck(id, e, size) => CheckMovesOne(s, rid, id, Caller(false, false), e, size, r);
    case MetaReap(id) => ReapMovesOne(s, rid, id, c, r);
    case MetaViews(_, _) => ReapMovesOne(s, rid, "", c, r);
    case FileStore(file) => FilesMoveOne(cfg, s, rid, file, "", c, r);
    case FileMark(id) => FilesMoveOne(cfg, s, rid, NewFile([], 0, false), id, c, r);
    case FileBurn(id, _) => FilesMoveOne(cfg, s, rid, NewFile([], 0, false), id, c, r);
  }

  lemma NothingMoves(s: State, r: Rid)
    ensures Stays(s, s, r)
  {
  }

  // ---- A reveal whose consume came after the expiry ----

  /** Where such a reveal can stand once it has found no view in the budget. */
  predicate LateStand(r: Request, id: Id, expiresAt: Time, gone: bool) {
    match r
    case Peek(x, _) => x == id
    case Check(x, _, e) => x == id && e == expiresAt
    case Reap(x) => x == id
    case Burn(x, _) => x == id && gone
    case _ => false
  }

  ghost predicate Late(s: State, rid: Rid, id: Id) {
    && Known(s, id) && Lapsed(s, id) && rid < s.nextRid
    && (rid in s.requests ==> LateStand(s.requests[rid], id, s.book[id].expiresAt, id !in s.secrets))
  }

  lemma LatePeek(s: State, rid: Rid, id: Id, caller: Caller, c: Choice)
    requires id in s.book && (id in s.secrets && s.secrets[id].Row? ==> s.secrets[id].value.expiresAt == s.book[id].expiresAt)
    ensures var s' := PeekStep(s, rid, id, caller, c);
      s'.secrets == s.secrets && (rid in s'.requests ==> LateStand(s'.requests[rid], id, s.book[id].expiresAt, id !in s.secrets))
  {
  }

  lemma LateCheck(s: State, rid: Rid, id: Id, caller: Caller)
    requires id in s.book && Lapsed(s, id)
    ensures var s' := CheckStep(s, rid, id, caller, s.book[id].expiresAt); rid in s'.requests && s'.requests[rid] == Reap(id)
  {
  }

  lemma LateBurn(s: State, rid: Rid, id: Id, caller: Caller, c: Choice)
    requires id !in s.secrets
    ensures rid !in BurnStep(s, rid, id, caller, c).requests
  {
  }

  /** Its own steps lead it to a refusal, and hand nothing out. */
  lemma LateOwn(cfg: Config, s: State, rid: Rid, c: Choice, id: Id)
    requires Inv(cfg, s) && Late(s, rid, id) && rid in s.requests
    ensures Handout(s, Advance(rid, c), id) == []
    ensures var s' := AdvanceStep(cfg, s, rid, c);
      rid in s'.requests ==> LateStand(s'.requests[rid], id, s.book[id].expiresAt, id !in s.secrets)
  {
    SlotFact(cfg, s, id);
    hide Inv, Lapsed, MetaReadStep, MetaCheckStep, ConsumeStep, BurnStep, StoreStep, PutStep, MarkStep, ReplyStep, PeekStep, CheckStep, GateStep, SessionStep, FileStoreStep,
         FileMarkStep, FileBurnStep, DropMarkStep;
    match s.requests[rid]
    case Peek(x, caller) => LatePeek(s, rid, id, caller, c);
    case Check(x, caller, e) => LateCheck(s, rid, id, caller);
    case Burn(x, caller) => LateBurn(s, rid, id, caller, c);
    case _ =>
  }

  ghost predicate NoneFor(log: seq<Delivery>, rid: Rid) {
    forall k :: 0 <= k < |log| ==> log[k].rid != rid
  }

  /** What time and absence do to an issued id in one step: nothing that could be undone. */
  lemma Onward(cfg: Config, s: State, a: Action, id: Id)
    requires Inv(cfg, s) && Enabled(cfg, s, a) && id in s.book
    ensures var s' := Step(cfg, s, a);
      && id in s'.book && (Known(s, id) ==> Known(s', id)) && s'.book[id].expiresAt == s.book[id].expiresAt && s.now <= s'.now && s.nextRid <= s'.nextRid
      && (id !in s.secrets ==> id !in s'.secrets) && (Lapsed(s, id) ==> Lapsed(s', id))
  {
    StepKeeps(cfg, s, a);
    assert Grows(SlotOf(s, id), SlotOf(Step(cfg, s, a), id));
    hide Step, Inv, Enabled;
  }

  lemma LatePlaceOwn(cfg: Config, s: State, rid: Rid, c: Choice, id: Id)
    requires Inv(cfg, s) && Enabled(cfg, s, Advance(rid, c)) && Late(s, rid, id)
    ensures Late(Step(cfg, s, Advance(rid, c)), rid, id)
  {
    Onward(cfg, s, Advance(rid, c), id);
    LateOwn(cfg, s, rid, c, id);
    hide AdvanceStep, Inv, Enabled, Lapsed;
  }

  lemma LatePlace(cfg: Config, s: State, a: Action, rid: Rid, id: Id)
    requires Inv(cfg, s) && Enabled(cfg, s, a) && Late(s, rid, id)
    ensures Late(Step(cfg, s, a), rid, id)
  {
    if a.Advance? && a.rid == rid {
      LatePlaceOwn(cfg, s, rid, a.choice, id);
    } else {
      Onward(cfg, s, a, id);
      OthersStay(cfg, s, a, rid);
      hide Step, Inv, Enabled, Lapsed;
    }
  }

  lemma LateLog(cfg: Config, s: State, a: Action, rid: Rid, id: Id)
    requires Inv(cfg, s) && Enabled(cfg, s, a) && Late(s, rid, id) && NoneFor(s.book[id].log, rid)
    ensures id in Step(cfg, s, a).book && NoneFor(Step(cfg, s, a).book[id].log, rid)
  {
    assert id != "" by { SlotFact(cfg, s, id); }
    StepLogs(cfg, s, a, id);
    if a.Advance? && a.rid == rid && rid in s.requests {
      LateOwn(cfg, s, rid, a.choice, id);
    }
    hide Step, Inv, Enabled;
  }

  lemma {:induction false} LateRun(cfg: Config, run: seq<State>, actions: seq<Action>, i: nat, j: nat, rid: Rid, id: Id)
    requires IsRun(cfg, run, actions) && i <= j < |run| && Late(run[i], rid, id) && NoneFor(run[i].book[id].log, rid)
    ensures Late(run[j], rid, id) && NoneFor(run[j].book[id].log, rid)
    decreases j
  {
    if i < j {
      hide Late, NoneFor, Step, Enabled, Inv;
      LateRun(cfg, run, actions, i, j - 1, rid, id);
      RunInv(cfg, run, actions, j - 1);
      assert MovesAt(cfg, run, actions, j - 1);
      LatePlace(cfg, run[j - 1], actions[j - 1], rid, id);
      LateLog(cfg, run[j - 1], actions[j - 1], rid, id);
    }
  }

  predicate AtConsume(s: State, a: Action, id: Id) {
    a.Advance? && a.rid in s.requests && s.requests[a.rid].Consume? && s.requests[a.rid].id == id
  }

  predicate AtBurn(s: State, a: Action, id: Id) {
    a.Advance? && a.rid in s.requests && s.requests[a.rid].Burn? && s.requests[a.rid].id == id
  }

  lemma ConsumeFails(s: State, rid: Rid, id: Id, caller: Caller, c: Choice)
    requires !(c.commits && Servable(s.views, id)) && id != ""
    ensures var s' := ConsumeStep(s, rid, id, caller, c); rid in s'.requests ==> s'.requests[rid] == Peek(id, caller)
  {
  }

  /** The consume itself: what it hands out, and otherwise where it leads. */
  lemma LateConsume(cfg: Config, s: State, a: Action, id: Id)
    requires Inv(cfg, s) && Enabled(cfg, s, a) && AtConsume(s, a, id) && Untouched(s, id) && Lapsed(s, id)
    ensures NoneFor(s.book[id].log, a.rid)
    ensures a.choice.commits && Servable(s.views, id) ==> |Handout(s, a, id)| == 1 && Handout(s, a, id)[0].rid == a.rid
    ensures !(a.choice.commits && Servable(s.views, id)) ==> Handout(s, a, id) == [] && Late(Step(cfg, s, a), a.rid, id)
  {
    SlotFact(cfg, s, id);
    RequestFact(cfg, s, a.rid);
    var caller := s.requests[a.rid].caller;
    assert s.requests[a.rid] == Consume(id, caller);
    Onward(cfg, s, a, id);
    hide Inv, SlotInv, ConsumeStep, Lapsed;
    if !(a.choice.commits && Servable(s.views, id)) { ConsumeFails(s, a.rid, id, caller, a.choice); }
  }

  /**
   A reveal that comes to its consume past the expiry is answered with a view, then or at any later time, exactly if
   at that step a budget row decodes that holds more than the last view: whether the secret is still there or
   was purged, and whatever else runs.
   */
  lemma LateReveal(cfg: Config, run: seq<State>, actions: seq<Action>, i: nat, j: nat, id: Id)
    requires IsRun(cfg, run, actions) && i < j < |run| && Untouched(run[i], id) && Lapsed(run[i], id)
    requires AtConsume(run[i], actions[i], id)
    ensures id in run[j].book
    ensures !NoneFor(run[j].book[id].log, actions[i].rid) <==> actions[i].choice.commits && Servable(run[i].views, id)
  {
    var s, a := run[i], actions[i];
    RunInv(cfg, run, actions, i);
    assert MovesAt(cfg, run, actions, i);
    assert id != "" by { SlotFact(cfg, s, id); }
    LateConsume(cfg, s, a, id);
    StepLogs(cfg, s, a, id);
    RunFollows(cfg, run, actions, i, i + 1, id);
    RunFollows(cfg, run, actions, i + 1, j, id);
    hide Inv, Step, Enabled, Late;
    if a.choice.commits && Servable(s.views, id) {
      var k := |s.book[id].log|;
      assert run[j].book[id].log[k] == run[i + 1].book[id].log[k] == Handout(s, a, id)[0];
    } else {
      assert run[i + 1].book[id].log == s.book[id].log;
      LateRun(cfg, run, actions, i + 1, j, a.rid, id);
    }
  }

  // ---- A burn past the expiry ----

  /** Its check ran, and found the lifetime still running. */
  predicate PassesCheck(s: State, a: Action, rid: Rid, id: Id) {
    && a.Advance? && a.rid == rid && rid in s.requests && s.requests[rid].Check? && s.requests[rid].id == id
    && !IsExpired(s.requests[rid].expiresAt, s.now)
  }

  predicate BurnsNext(s: State, rid: Rid) {
    rid in s.requests && s.requests[rid].Burn?
  }

  lemma WritersDoNotBurn(cfg: Config, s: State, rid: Rid, id: Id, body: NewSecret, c: Choice)
    ensures !BurnsNext(StoreStep(cfg, s, rid, body, c), rid)
    ensures id in s.book ==> !BurnsNext(PutStep(s, rid, id, body, c), rid) && !BurnsNext(MarkStep(s, rid, id, c), rid)
    ensures id in s.book ==> !BurnsNext(ReplyStep(s, rid, id), rid)
  {
    hide S.Created, V.Written;
  }

  lemma GatesDoNotBurn(cfg: Config, s: State, rid: Rid, route: Route, id: Id, present: bool, c: Choice)
    ensures !BurnsNext(GateStep(cfg, s, rid, route, id, c), rid)
    ensures !BurnsNext(SessionStep(s, rid, route, id, present, c), rid)
  {
  }

  lemma ConsumesDoNotBurn(s: State, rid: Rid, id: Id, caller: Caller, c: Choice)
    ensures !BurnsNext(ConsumeStep(s, rid, id, caller, c), rid)
  {
    hide V.Consumed, Deliver;
  }

  lemma BurnsDoNotBurn(s: State, rid: Rid, id: Id, caller: Caller, c: Choice)
    ensures !BurnsNext(BurnStep(s, rid, id, caller, c), rid)
  {
    hide S.Burned, Deliver, Miss;
  }

  lemma MetasDoNotBurn(s: State, rid: Rid, id: Id, e: Time, size: int, c: Choice)
    ensures !BurnsNext(MetaReadStep(s, rid, id, c), rid) && !BurnsNext(MetaCheckStep(s, rid, id, e, size), rid)
  {
    hide S.MetaOf, Impair;
  }

  lemma FilesDoNotBurn(cfg: Config, s: State, rid: Rid, file: NewFile, id: Id, c: Choice)
    ensures !BurnsNext(FileStoreStep(cfg, s, rid, file, c), rid) && !BurnsNext(FileMarkStep(s, rid, id, c), rid)
    ensures !BurnsNext(FileBurnStep(s, rid, id, c), rid) && !BurnsNext(DropMarkStep(s, rid, id, c), rid)
  {
  }

  lemma PeekLeadsOn(s: State, rid: Rid, id: Id, caller: Caller, c: Choice)
    ensures var s' := PeekStep(s, rid, id, caller, c);
      BurnsNext(s', rid) ==> s'.requests[rid].id == id && id !in s.secrets && s'.secrets == s.secrets
  {
  }

  lemma CheckLeadsOn(s: State, rid: Rid, id: Id, caller: Caller, e: Time)
    ensures var s' := CheckStep(s, rid, id, caller, e);
      BurnsNext(s', rid) ==> s'.requests[rid].id == id && !IsExpired(e, s.now)
  {
  }

  /** Nobody comes to the burn but through a peek that found nothing, or through a check that passed. */
  lemma WhenceBurn(cfg: Config, s: State, rid: Rid, c: Choice)
    requires rid in s.requests && BurnsNext(AdvanceStep(cfg, s, rid, c), rid)
    ensures var s', r := AdvanceStep(cfg, s, rid, c), s.requests[rid];
      || (r.Peek? && s'.requests[rid].id == r.id && r.id !in s'.secrets)
      || (PassesCheck(s, Advance(rid, c), rid, s'.requests[rid].id))
  {
    hide ConsumeStep, BurnStep, StoreStep, PutStep, MarkStep, ReplyStep, PeekStep, CheckStep, MetaReadStep, MetaCheckStep,
         GateStep, SessionStep, FileStoreStep, FileMarkStep, FileBurnStep, DropMarkStep;
    match s.requests[rid]
    case Store(body) => WritersDoNotBurn(cfg, s, rid, "", body, c);
    case PutBudget(id, body) => WritersDoNotBurn(cfg, s, rid, id, body, c);
    case Mark(id) => WritersDoNotBurn(cfg, s, rid, id, NewSecret("", 0, 0, false), c);
    case Reply(id) => WritersDoNotBurn(cfg, s, rid, id, NewSecret("", 0, 0, false), c);
    case Gate(route, id) => GatesDoNotBurn(cfg, s, rid, route, id, false, c);
    case Session(route, id, present) => GatesDoNotBurn(cfg, s, rid, route, id, present, c);
    case Consume(id, caller) => ConsumesDoNotBurn(s, rid, id, caller, c);
    case Peek(id, caller) => PeekLeadsOn(s, rid, id, caller, c);
    case Check(id, caller, e) => CheckLeadsOn(s, rid, id, caller, e);
    case Burn(id, caller) => BurnsDoNotBurn(s, rid, id, caller, c);
    case DropMark(id) => FilesDoNotBurn(cfg, s, rid, NewFile([], 0, false), id, c);
    case MetaRead(id) => MetasDoNotBurn(s, rid, id, 0, 0, c);
    case MetaCheck(id, e, size) => MetasDoNotBurn(s, rid, id, e, size, c);
    case FileStore(file) => FilesDoNotBurn(cfg, s, rid, file, "", c);
    case FileMark(id) => FilesDoNotBurn(cfg, s, rid, NewFile([], 0, false), id, c);
    case FileBurn(id, _) => FilesDoNotBurn(cfg, s, rid, NewFile([], 0, false), id, c);
    case _ =>
  }

  /** One step back from the burn of a secret that is there. */
  lemma OneBack(cfg: Config, s: State, a: Action, rid: Rid, id: Id)
    requires Inv(cfg, s) && Enabled(cfg, s, a)
    requires var s' := Step(cfg, s, a); BurnsNext(s', rid) && s'.requests[rid].id == id && id in s'.secrets
    ensures (BurnsNext(s, rid) && s.requests[rid].id == id) || PassesCheck(s, a, rid, id)
  {
    if a.Advance? && a.rid == rid {
      WhenceBurn(cfg, s, rid, a.choice);
      hide AdvanceStep;
    } else if rid < s.nextRid {
      OthersStay(cfg, s, a, rid);
      hide Step;
    } else {
      NoNewBurn(cfg, s, a, rid);
    }
  }

  lemma NoNewBurn(cfg: Config, s: State, a: Action, rid: Rid)
    requires Inv(cfg, s) && Enabled(cfg, s, a) && rid >= s.nextRid
    ensures !BurnsNext(Step(cfg, s, a), rid)
  {
    assert rid !in s.requests by { if rid in s.requests { RequestFact(cfg, s, rid); } }
    hide Inv;
    if a.Advance? {
      AdvanceMovesOne(cfg, s, a.rid, a.choice, rid);
      hide AdvanceStep;
    } else {
      hide S.Unexpired, SweepStep;
    }
  }

  /** A reveal of an untouched id that is on its way to the burn: the create had answered before it came. */
  lemma BurnerKnows(cfg: Config, s: State, s': State, rid: Rid, id: Id)
    requires Inv(cfg, s) && BurnsNext(s, rid) && s.requests[rid].id == id && id !in s'.early
    requires Grows(SlotOf(s, id), SlotOf(s', id)) && id in s'.secrets
    ensures id in s.secrets && id !in s.early
  {
    RequestFact(cfg, s, rid);
  }

  lemma {:induction false} CheckedInTime(cfg: Config, run: seq<State>, actions: seq<Action>, i: nat, rid: Rid, id: Id)
    requires IsRun(cfg, run, actions) && i < |run| && id !in run[i].early && id in run[i].secrets
    requires BurnsNext(run[i], rid) && run[i].requests[rid].id == id
    ensures exists m :: 0 <= m < i && PassesCheck(run[m], actions[m], rid, id)
    decreases i
  {
    assert i > 0;
    RunInv(cfg, run, actions, i - 1);
    assert MovesAt(cfg, run, actions, i - 1);
    OneBack(cfg, run[i - 1], actions[i - 1], rid, id);
    StepGrows(cfg, run, actions, i - 1, id);
    hide Inv, Step, Enabled, Grows;
    if PassesCheck(run[i - 1], actions[i - 1], rid, id) {
    } else {
      BurnerKnows(cfg, run[i - 1], run[i], rid, id);
      CheckedInTime(cfg, run, actions, i - 1, rid, id);
    }
  }

  /** At the time of that check the lifetime of the id was not over. */
  lemma CheckTold(cfg: Config, run: seq<State>, actions: seq<Action>, m: nat, i: nat, rid: Rid, id: Id)
    requires IsRun(cfg, run, actions) && m < i < |run| && id !in run[i].early && id in run[i].book
    requires PassesCheck(run[m], actions[m], rid, id)
    ensures !IsExpired(run[i].book[id].expiresAt, run[m].now)
  {
    RunInv(cfg, run, actions, m);
    RequestFact(cfg, run[m], rid);
    StillUntouched(cfg, run, actions, m, i, id);
    RunFollows(cfg, run, actions, m, i, id);
  }

  lemma {:induction false} StillUntouched(cfg: Config, run: seq<State>, actions: seq<Action>, m: nat, i: nat, id: Id)
    requires IsRun(cfg, run, actions) && m <= i < |run| && id !in run[i].early
    ensures id !in run[m].early
    decreases i
  {
    if m < i {
      StepGrows(cfg, run, actions, i - 1, id);
      StillUntouched(cfg, run, actions, m, i - 1, id);
    }
  }

  /** A view served from the budget, or a burn whose check ran while the lifetime was not over. */
  ghost predicate LateWays(run: seq<State>, actions: seq<Action>, i: nat, id: Id)
    requires i < |actions| < |run| && id in run[i].book && actions[i].Advance?
  {
    var s, a := run[i], actions[i];
    && a.choice.commits
    && (|| (AtConsume(s, a, id) && Servable(s.views, id))
        || (AtBurn(s, a, id) && id in s.secrets && s.secrets[id].Row?
            && exists m :: 0 <= m < i && PassesCheck(run[m], actions[m], a.rid, id) && !IsExpired(s.book[id].expiresAt, run[m].now)))
  }

  /** Exactly the two ways in which anything is handed out past the expiry. */
  lemma LateHandout(cfg: Config, run: seq<State>, actions: seq<Action>, i: nat, id: Id)
    requires IsRun(cfg, run, actions) && i < |actions| && Untouched(run[i], id) && Lapsed(run[i], id)
    ensures id in run[i + 1].book
    ensures run[i + 1].book[id].log != run[i].book[id].log <==> actions[i].Advance? && LateWays(run, actions, i, id)
  {
    var s, a := run[i], actions[i];
    RunInv(cfg, run, actions, i);
    assert MovesAt(cfg, run, actions, i);
    assert id != "" by { SlotFact(cfg, s, id); }
    StepLogs(cfg, s, a, id);
    hide Inv, Step, Enabled;
    if AtBurn(s, a, id) && id in s.secrets {
      CheckedInTime(cfg, run, actions, i, a.rid, id);
      var m :| 0 <= m < i && PassesCheck(run[m], actions[m], a.rid, id);
      CheckTold(cfg, run, actions, m, i, a.rid, id);
    }
  }

  // ---- Meta past the expiry ----

  /** Where a meta request can stand that has read past the expiry: it will say that there is no secret. */
  predicate MetaStand(r: Request, id: Id, expiresAt: Time) {
    match r
    case MetaCheck(x, e, _) => x == id && e == expiresAt
    case MetaReap(x) => x == id
    case MetaViews(x, seen) => x == id && seen.None?
    case _ => false
  }

  ghost predicate MetaLate(s: State, rid: Rid, id: Id) {
    && id in s.book && Lapsed(s, id) && rid < s.nextRid
    && (rid in s.requests ==> MetaStand(s.requests[rid], id, s.book[id].expiresAt))
  }

  lemma MetaReads(s: State, rid: Rid, id: Id, c: Choice)
    requires id in s.book && (id in s.secrets && s.secrets[id].Row? ==> s.secrets[id].value.expiresAt == s.book[id].expiresAt)
    ensures var s' := MetaReadStep(s, rid, id, c); rid in s'.requests ==> MetaStand(s'.requests[rid], id, s.book[id].expiresAt)
  {
  }

  lemma MetaChecks(s: State, rid: Rid, id: Id, size: int)
    requires id in s.book && Lapsed(s, id)
    ensures var s' := MetaCheckStep(s, rid, id, s.book[id].expiresAt, size); rid in s'.requests && s'.requests[rid] == MetaReap(id)
  {
  }

  lemma ExpiryKept(cfg: Config, s: State, id: Id)
    requires Inv(cfg, s) && id in s.book && id in s.secrets && s.secrets[id].Row?
    ensures s.secrets[id].value.expiresAt == s.book[id].expiresAt
  {
    SlotFact(cfg, s, id);
    hide Inv;
  }

  lemma MetaEnds(s: State, rid: Rid, id: Id, c: Choice)
    ensures var s' := Goto(Reaped(s, id, c), rid, MetaViews(id, None)); rid in s'.requests && s'.requests[rid] == MetaViews(id, None)
    ensures rid !in Finish(s, rid).requests
  {
  }

  lemma MetaOwn(cfg: Config, s: State, rid: Rid, c: Choice, id: Id)
    requires Inv(cfg, s) && id in s.book && Lapsed(s, id) && rid in s.requests
    requires s.requests[rid] == MetaRead(id) || MetaStand(s.requests[rid], id, s.book[id].expiresAt)
    ensures var s' := AdvanceStep(cfg, s, rid, c); rid in s'.requests ==> MetaStand(s'.requests[rid], id, s.book[id].expiresAt)
  {
    hide Inv, Lapsed, MetaReadStep, MetaCheckStep, Reaped, Finish, Goto;
    MetaEnds(s, rid, id, c);
    var r, s' := s.requests[rid], AdvanceStep(cfg, s, rid, c);
    if r.MetaRead? {
      assert s' == MetaReadStep(s, rid, id, c);
      hide AdvanceStep;
      if id in s.secrets && s.secrets[id].Row? { ExpiryKept(cfg, s, id); }
      MetaReads(s, rid, id, c);
    } else if r.MetaCheck? {
      assert s' == MetaCheckStep(s, rid, id, s.book[id].expiresAt, r.size);
      hide AdvanceStep;
      MetaChecks(s, rid, id, r.size);
    }
  }

  lemma MetaPlace(cfg: Config, s: State, a: Action, rid: Rid, id: Id)
    requires Inv(cfg, s) && Enabled(cfg, s, a) && id in s.book && Lapsed(s, id) && rid < s.nextRid
    requires if a.Advance? && a.rid == rid then s.requests[rid] == MetaRead(id) || MetaLate(s, rid, id) else MetaLate(s, rid, id)
    ensures MetaLate(Step(cfg, s, a), rid, id)
  {
    Onward(cfg, s, a, id);
    if a.Advance? && a.rid == rid {
      MetaOwn(cfg, s, rid, a.choice, id);
      hide AdvanceStep, Inv, Enabled, Lapsed;
    } else {
      OthersStay(cfg, s, a, rid);
      hide Step, Inv, Enabled, Lapsed;
    }
  }

  lemma OneMeta(cfg: Config, run: seq<State>, actions: seq<Action>, i: nat, rid: Rid, id: Id)
    requires IsRun(cfg, run, actions) && i < |actions| && MetaLate(run[i], rid, id)
    ensures MetaLate(run[i + 1], rid, id)
  {
    RunInv(cfg, run, actions, i);
    assert MovesAt(cfg, run, actions, i);
    hide Step, Enabled, Inv, Lapsed, MetaStand;
    MetaPlace(cfg, run[i], actions[i], rid, id);
  }

  lemma {:induction false} MetaRun(cfg: Config, run: seq<State>, actions: seq<Action>, i: nat, j: nat, rid: Rid, id: Id)
    requires IsRun(cfg, run, actions) && i <= j < |run| && MetaLate(run[i], rid, id)
    ensures MetaLate(run[j], rid, id)
    decreases j
  {
    if i < j {
      hide MetaLate, MovesAt;
      MetaRun(cfg, run, actions, i, j - 1, rid, id);
      OneMeta(cfg, run, actions, j - 1, rid, id);
    }
  }

  predicate AtMetaRead(s: State, a: Action, id: Id) {
    a.Advance? && a.rid in s.requests && s.requests[a.rid] == MetaRead(id)
  }

  predicate AtMetaViews(s: State, a: Action, rid: Rid, id: Id) {
    a.Advance? && a.rid == rid && rid in s.requests && s.requests[rid].MetaViews? && s.requests[rid].id == id
  }

  /** What a meta request answers at its last step, which reads the budget. */
  function Told(s: State, a: Action): R.Response
    requires a.Advance? && a.rid in s.requests && s.requests[a.rid].MetaViews?
  {
    var r := s.requests[a.rid];
    if a.choice.commits then R.WithViews(R.Seen(r.seen), s.views, r.id) else R.Seen(r.seen)
  }

  /** The answer for an id that was never issued. */
  const UNKNOWN: R.Response := R.Metadata(false, 0, None)

  lemma NeverIssued(cfg: Config, run: seq<State>, actions: seq<Action>, i: nat, id: Id)
    requires IsRun(cfg, run, actions) && i < |run| && id !in run[i].book
    ensures R.WithViews(R.MetaOf(run[i].secrets, id, run[i].now), run[i].views, id) == UNKNOWN
  {
    RunSlot(cfg, run, actions, i, id);
  }

  /** On the rows, for an id that is past its expiry or gone: it reads like one never issued exactly if no budget row decodes. */
  lemma ExpiredMeta(secrets: S.Rows, views: V.Rows, id: Id, now: Time)
    requires id in secrets ==> secrets[id].Row? && IsExpired(secrets[id].value.expiresAt, now)
    ensures R.WithViews(R.MetaOf(secrets, id, now), views, id) == UNKNOWN <==> V.BudgetLeft(views, id).None?
  {
  }

  /**
   In every interleaving: a meta request that reads past the expiry answers as for an id never issued exactly if, when
   it comes to the budget, the read of it fails or no row of it decodes.
   */
  lemma MetaPastExpiry(cfg: Config, run: seq<State>, actions: seq<Action>, i: nat, j: nat, id: Id)
    requires IsRun(cfg, run, actions) && i < j < |actions| && id in run[i].book && Lapsed(run[i], id)
    requires AtMetaRead(run[i], actions[i], id) && AtMetaViews(run[j], actions[j], actions[i].rid, id)
    ensures Told(run[j], actions[j]) == UNKNOWN <==> !actions[j].choice.commits || V.BudgetLeft(run[j].views, id).None?
  {
    RunInv(cfg, run, actions, i);
    RequestFact(cfg, run[i], actions[i].rid);
    assert MovesAt(cfg, run, actions, i);
    hide Inv, Step, Enabled, Lapsed;
    MetaPlace(cfg, run[i], actions[i], actions[i].rid, id);
    MetaRun(cfg, run, actions, i + 1, j, actions[i].rid, id);
  }
}
