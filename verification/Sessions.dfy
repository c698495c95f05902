/**
 Who is served without a session, exactly. What a request knows of its caller it learned at the gate, which looks at the
 mark of its id at that one moment; so the runs in which somebody without a session is served are told by the steps that
 set and take marks and by the moment at which the gate ran.
 */
module Sessions {
  import opened Records
  import opened Protocol
  import opened Invariant
  import opened Preservation
  import opened Effects
  import opened Guarantees
  import L = Lateness
  import S = SecretStore
  import V = ViewsStore
  import F = FileStore

  // ---- From the gate on ----

  /** The requests that have passed the gate and remember whom they serve. */
  predicate Carries(r: Request) {
    r.Consume? || r.Peek? || r.Check? || r.Burn? || r.FileBurn?
  }

  /** The route it came by. */
  function RouteOf(r: Request): Route {
    if r.FileBurn? then FileRoute else RevealRoute
  }

  /** No session is asked for: auth is off, or the gate is open and the mark is not there. */
  predicate Open(cfg: Config, s: State, id: Id, c: Choice) {
    !cfg.authEnabled || (!cfg.gateAll && c.commits && id !in s.marks)
  }

  /** The step of the gate that lets this request through without asking for a session. */
  predicate OpensGate(cfg: Config, s: State, a: Action, rid: Rid, route: Route, id: Id) {
    && a.Advance? && a.rid == rid && rid in s.requests && s.requests[rid] == Gate(route, id)
    && Open(cfg, s, id, a.choice)
  }

  /** Neither at the gate nor past it, nor about to mark a file or to tell of a secret. */
  predicate Aside(r: Request) {
    !Carries(r) && !r.Gate? && !r.Session? && !r.FileMark? && (r.MetaViews? ==> r.seen.None?)
  }

  /** Where one step of its own leads a request, as to whom it serves, which file it will mark and what it will tell. */
  ghost predicate Leads(cfg: Config, s: State, c: Choice, r: Request, r': Request) {
    && !r'.Gate?
    && (r'.Session? ==> r.Gate? && r'.id == r.id && !Open(cfg, s, r.id, c))
    && (r'.FileMark? ==> r.FileStore? && r'.id == c.newId)
    && (r'.MetaViews? && r'.seen.Some? ==> r.MetaCheck? && r'.id == r.id && (r.expiresAt == ZERO_TIME || s.now <= r.expiresAt))
    && (Carries(r') ==>
          || (r.Gate? && r.route == RouteOf(r') && r'.id == r.id && !r'.caller.verified && Open(cfg, s, r.id, c))
          || (r.Session? && r.route == RouteOf(r') && r'.id == r.id && r'.caller.verified)
          || (Carries(r) && RouteOf(r') == RouteOf(r) && r'.id == r.id && r'.caller == r.caller))
  }

  /** The step does so, and leaves the marks alone. */
  ghost predicate LeadsOn(cfg: Config, s: State, c: Choice, r: Request, s': State, rid: Rid) {
    s'.marks == s.marks && (rid in s'.requests ==> Leads(cfg, s, c, r, s'.requests[rid]))
  }

  /** It leads there, and leaves the marks alone. */
  ghost predicate LeadsAside(s: State, s': State, rid: Rid) {
    s'.marks == s.marks && (rid in s'.requests ==> Aside(s'.requests[rid]))
  }

  lemma WritersLead(cfg: Config, s: State, rid: Rid, id: Id, body: NewSecret, c: Choice)
    ensures LeadsAside(s, StoreStep(cfg, s, rid, body, c), rid)
    ensures id in s.book ==> LeadsAside(s, PutStep(s, rid, id, body, c), rid)
    ensures id in s.book ==> LeadsAside(s, ReplyStep(s, rid, id), rid)
  {
    hide S.Created, V.Written;
  }

  lemma MarkLeads(cfg: Config, s: State, rid: Rid, r: Request, id: Id, c: Choice)
    requires id in s.book
    ensures var s' := MarkStep(s, rid, id, c);
      rid in s'.requests && Leads(cfg, s, c, r, s'.requests[rid]) && s'.marks == if c.commits then s.marks + {id} else s.marks
  {
  }

  lemma GateLeads(cfg: Config, s: State, rid: Rid, route: Route, id: Id, c: Choice)
    ensures LeadsOn(cfg, s, c, Gate(route, id), GateStep(cfg, s, rid, route, id, c), rid)
  {
  }

  lemma SessionLeads(cfg: Config, s: State, rid: Rid, route: Route, id: Id, present: bool, c: Choice)
    ensures LeadsOn(cfg, s, c, Session(route, id, present), SessionStep(s, rid, route, id, present, c), rid)
  {
  }

  lemma ConsumeLeads(cfg: Config, s: State, rid: Rid, id: Id, caller: Caller, c: Choice)
    ensures LeadsOn(cfg, s, c, Consume(id, caller), ConsumeStep(s, rid, id, caller, c), rid)
  {
    hide V.Consumed;
  }

  lemma PeekLeads(cfg: Config, s: State, rid: Rid, id: Id, caller: Caller, c: Choice)
    ensures LeadsOn(cfg, s, c, Peek(id, caller), PeekStep(s, rid, id, caller, c), rid)
  {
    hide S.MetaOf;
  }

  lemma CheckLeads(cfg: Config, s: State, rid: Rid, id: Id, caller: Caller, e: Time, c: Choice)
    ensures LeadsOn(cfg, s, c, Check(id, caller, e), CheckStep(s, rid, id, caller, e), rid)
  {
  }

  lemma BurnLeads(cfg: Config, s: State, rid: Rid, id: Id, caller: Caller, c: Choice)
    ensures LeadsOn(cfg, s, c, Burn(id, caller), BurnStep(s, rid, id, caller, c), rid)
    ensures LeadsOn(cfg, s, c, FileBurn(id, caller), FileBurnStep(s, rid, id, c), rid)
  {
    hide S.Burned, F.Burned;
  }

  lemma MetaReadLeads(s: State, rid: Rid, id: Id, c: Choice)
    ensures LeadsAside(s, MetaReadStep(s, rid, id, c), rid)
  {
    hide S.MetaOf;
  }

  lemma MetaCheckLeads(cfg: Config, s: State, rid: Rid, id: Id, e: Time, size: int, c: Choice)
    ensures LeadsOn(cfg, s, c, MetaCheck(id, e, size), MetaCheckStep(s, rid, id, e, size), rid)
  {
  }

  lemma ReapsLead(s: State, rid: Rid, id: Id, c: Choice)
    ensures LeadsAside(s, Finish(Miss(Reaped(s, id, c), id), rid), rid)
    ensures LeadsAside(s, Goto(Reaped(s, id, c), rid, MetaViews(id, None)), rid)
    ensures LeadsAside(s, Finish(s, rid), rid)
  {
  }

  lemma FileLeads(cfg: Config, s: State, rid: Rid, file: NewFile, c: Choice)
    ensures LeadsOn(cfg, s, c, FileStore(file), FileStoreStep(cfg, s, rid, file, c), rid)
  {
  }

  lemma MarksLead(s: State, rid: Rid, id: Id, c: Choice)
    ensures var s' := FileMarkStep(s, rid, id, c); rid !in s'.requests && s'.marks == if c.commits then s.marks + {id} else s.marks
    ensures var s' := DropMarkStep(s, rid, id, c); rid !in s'.requests && s'.marks == if c.commits then s.marks - {id} else s.marks
  {
  }

  /** The steps of requests that touch a mark. */
  predicate Marking(r: Request) {
    r.Mark? || r.FileMark? || r.DropMark?
  }

  lemma OwnLeads(cfg: Config, s: State, rid: Rid, c: Choice)
    requires rid in s.requests && !Marking(s.requests[rid]) && (Lives(s.requests[rid]) ==> s.requests[rid].id in s.book)
    ensures LeadsOn(cfg, s, c, s.requests[rid], AdvanceStep(cfg, s, rid, c), rid)
  {
    hide ConsumeStep, BurnStep, StoreStep, PutStep, MarkStep, ReplyStep, PeekStep, CheckStep, MetaReadStep, MetaCheckStep,
         GateStep, SessionStep, FileStoreStep, FileMarkStep, FileBurnStep, DropMarkStep, Reaped;
    var r := s.requests[rid];
    match r
    case Store(body) => WritersLead(cfg, s, rid, "", body, c);
    case PutBudget(id, body) => WritersLead(cfg, s, rid, id, body, c);
    case Reply(id) => WritersLead(cfg, s, rid, id, NewSecret("", 0, 0, false), c);
    case Gate(route, id) => GateLeads(cfg, s, rid, route, id, c);
    case Session(route, id, present) => SessionLeads(cfg, s, rid, route, id, present, c);
    case Consume(id, caller) => ConsumeLeads(cfg, s, rid, id, caller, c);
    case Peek(id, caller) => PeekLeads(cfg, s, rid, id, caller, c);
    case Check(id, caller, e) => CheckLeads(cfg, s, rid, id, caller, e, c);
    case Burn(id, caller) => BurnLeads(cfg, s, rid, id, caller, c);
    case FileBurn(id, caller) => BurnLeads(cfg, s, rid, id, caller, c);
    case MetaRead(id) => MetaReadLeads(s, rid, id, c);
    case MetaCheck(id, e, size) => MetaCheckLeads(cfg, s, rid, id, e, size, c);
    case FileStore(file) => FileLeads(cfg, s, rid, file, c);
    case Reap(id) => ReapsLead(s, rid, id, c);
    case MetaReap(id) => ReapsLead(s, rid, id, c);
    case MetaViews(_, _) => ReapsLead(s, rid, "", c);
    case _ =>
  }

  /** The steps of a create that need its book. */
  predicate Lives(r: Request) {
    r.PutBudget? || r.Mark? || r.Reply?
  }

  lemma OwnMoves(cfg: Config, s: State, rid: Rid, c: Choice)
    requires Inv(cfg, s) && rid in s.requests
    ensures var s' := AdvanceStep(cfg, s, rid, c); rid in s'.requests ==> Leads(cfg, s, c, s.requests[rid], s'.requests[rid])
  {
    RequestFact(cfg, s, rid);
    var r := s.requests[rid];
    assert Lives(r) ==> r.id in s.book;
    hide Inv, LocalInv, MarkStep, FileMarkStep, DropMarkStep, Leads;
    if !Marking(r) { OwnLeads(cfg, s, rid, c); hide AdvanceStep; }
    else if r.Mark? { MarkLeads(cfg, s, rid, r, r.id, c); }
    else { MarksLead(s, rid, r.id, c); }
  }

  /** A request that arrives is a create, or stands at the gate. */
  lemma NewAtGate(cfg: Config, s: State, a: Action, rid: Rid)
    requires Inv(cfg, s) && Enabled(cfg, s, a) && rid >= s.nextRid
    ensures var s' := Step(cfg, s, a); rid in s'.requests ==> Arriving(s'.requests[rid])
  {
    assert rid !in s.requests by { if rid in s.requests { RequestFact(cfg, s, rid); } }
    hide Inv;
    if a.Advance? {
      L.AdvanceMovesOne(cfg, s, a.rid, a.choice, rid);
      hide AdvanceStep;
    } else {
      hide AdvanceStep, SweepSecretsStep, SweepViewsStep, SweepMarksStep, CrashStep;
      if a.SweepSecrets? || a.SweepViews? || a.SweepMarks? || a.Crash? { SweepsKeepRequests(s, a); }
    }
  }

  predicate Arriving(r: Request) {
    r.Store? || r.FileStore? || r.Gate?
  }

  lemma SweepsKeepRequests(s: State, a: Action)
    ensures a.SweepSecrets? ==> SweepSecretsStep(s, a.at, a.commits).requests == s.requests
    ensures a.SweepViews? ==> SweepViewsStep(s, a.ids, a.commits).requests == s.requests
    ensures a.SweepMarks? ==> SweepMarksStep(s, a.ids, a.commits).requests == s.requests
    ensures CrashStep(s).requests == map[]
  {
    hide S.Unexpired, SweepStep;
  }

  /** It is past the gate of the id, and knows of no session. */
  predicate Unasked(s: State, rid: Rid, route: Route, id: Id) {
    rid in s.requests && Carries(s.requests[rid]) && RouteOf(s.requests[rid]) == route && s.requests[rid].id == id && !s.requests[rid].caller.verified
  }

  lemma WhenceUnasked(cfg: Config, s: State, a: Action, rid: Rid, route: Route, id: Id)
    requires Inv(cfg, s) && Enabled(cfg, s, a) && Unasked(Step(cfg, s, a), rid, route, id)
    ensures Unasked(s, rid, route, id) || OpensGate(cfg, s, a, rid, route, id)
  {
    if a.Advance? && a.rid == rid {
      OwnMoves(cfg, s, rid, a.choice);
      hide AdvanceStep, Inv;
    } else if rid < s.nextRid {
      L.OthersStay(cfg, s, a, rid);
      hide Step, Inv, Enabled;
    } else {
      NewAtGate(cfg, s, a, rid);
      hide Step, Inv, Enabled;
    }
  }

  /** Past the gate, without having been asked. */
  ghost predicate LetThrough(s: State, rid: Rid) {
    rid < s.nextRid && (rid in s.requests ==>
      var r := s.requests[rid]; !r.Gate? && !r.Session? && (Carries(r) ==> !r.caller.verified))
  }

  lemma StaysThrough(cfg: Config, s: State, a: Action, rid: Rid, route: Route, id: Id)
    requires Inv(cfg, s) && Enabled(cfg, s, a) && (LetThrough(s, rid) || OpensGate(cfg, s, a, rid, route, id))
    ensures LetThrough(Step(cfg, s, a), rid)
  {
    StepKeeps(cfg, s, a);
    if rid in s.requests { RequestFact(cfg, s, rid); }
    hide Keeps;
    if a.Advance? && a.rid == rid && rid in s.requests {
      OwnMoves(cfg, s, rid, a.choice);
      hide AdvanceStep, Inv;
    } else {
      L.OthersStay(cfg, s, a, rid);
      hide Step, Inv, Enabled;
    }
  }

  ghost predicate OpenedBefore(cfg: Config, run: seq<State>, actions: seq<Action>, i: nat, rid: Rid, route: Route, id: Id)
    requires i <= |actions| <= |run|
  {
    exists m :: 0 <= m < i && OpensGate(cfg, run[m], actions[m], rid, route, id)
  }

  lemma {:induction false} UnaskedOpened(cfg: Config, run: seq<State>, actions: seq<Action>, i: nat, rid: Rid, route: Route, id: Id)
    requires IsRun(cfg, run, actions) && i < |run| && Unasked(run[i], rid, route, id)
    ensures OpenedBefore(cfg, run, actions, i, rid, route, id)
    decreases i
  {
    assert i > 0;
    RunInv(cfg, run, actions, i - 1);
    assert MovesAt(cfg, run, actions, i - 1);
    hide Inv, Step, Enabled, Unasked, OpensGate;
    WhenceUnasked(cfg, run[i - 1], actions[i - 1], rid, route, id);
    if !OpensGate(cfg, run[i - 1], actions[i - 1], rid, route, id) {
      UnaskedOpened(cfg, run, actions, i - 1, rid, route, id);
      var m :| 0 <= m < i - 1 && OpensGate(cfg, run[m], actions[m], rid, route, id);
    }
  }

  lemma {:induction false} OpenedThrough(cfg: Config, run: seq<State>, actions: seq<Action>, m: nat, i: nat, rid: Rid, route: Route, id: Id)
    requires IsRun(cfg, run, actions) && m < i < |run| && OpensGate(cfg, run[m], actions[m], rid, route, id)
    ensures LetThrough(run[i], rid)
    decreases i
  {
    RunInv(cfg, run, actions, i - 1);
    assert MovesAt(cfg, run, actions, i - 1);
    hide Inv, Step, Enabled, LetThrough, OpensGate;
    if m < i - 1 { OpenedThrough(cfg, run, actions, m, i - 1, rid, route, id); }
    StaysThrough(cfg, run[i - 1], actions[i - 1], rid, route, id);
  }

  /**
   In every interleaving: a request past the gate serves somebody without a session exactly if its gate had run, at some
   moment before, while auth was off, or the gate open and the mark of the id not there.
   */
  lemma WhoIsUnasked(cfg: Config, run: seq<State>, actions: seq<Action>, i: nat, rid: Rid)
    requires IsRun(cfg, run, actions) && i < |run| && rid in run[i].requests && Carries(run[i].requests[rid])
    ensures !run[i].requests[rid].caller.verified <==> OpenedBefore(cfg, run, actions, i, rid, RouteOf(run[i].requests[rid]), run[i].requests[rid].id)
  {
    var route, id := RouteOf(run[i].requests[rid]), run[i].requests[rid].id;
    if !run[i].requests[rid].caller.verified {
      UnaskedOpened(cfg, run, actions, i, rid, route, id);
    }
    if OpenedBefore(cfg, run, actions, i, rid, route, id) {
      var m :| 0 <= m < i && OpensGate(cfg, run[m], actions[m], rid, route, id);
      OpenedThrough(cfg, run, actions, m, i, rid, route, id);
    }
    hide OpenedBefore;
  }

  // ---- The marks ----

  /** The step records the mark. */
  predicate SetsMark(s: State, a: Action, id: Id) {
    a.Advance? && a.rid in s.requests && a.choice.commits && (s.requests[a.rid] == Mark(id) || s.requests[a.rid] == FileMark(id))
  }

  /** The step takes it after a burn. */
  predicate DropsMark(s: State, a: Action, id: Id) {
    a.Advance? && a.rid in s.requests && a.choice.commits && s.requests[a.rid] == DropMark(id)
  }

  /** The visibility sweeper takes it, having found no secret under the id. */
  predicate SweepsMark(s: State, a: Action, id: Id) {
    a.SweepMarks? && a.commits && s.marksSweep.Dropping? && s.marksSweep.id == id
  }

  lemma AdvanceMarks(cfg: Config, s: State, rid: Rid, c: Choice)
    requires Inv(cfg, s) && rid in s.requests
    ensures AdvanceStep(cfg, s, rid, c).marks ==
      if !c.commits || !Marking(s.requests[rid]) then s.marks
      else if s.requests[rid].DropMark? then s.marks - {s.requests[rid].id} else s.marks + {s.requests[rid].id}
  {
    RequestFact(cfg, s, rid);
    var r := s.requests[rid];
    assert Lives(r) ==> r.id in s.book;
    hide Inv, LocalInv, MarkStep, FileMarkStep, DropMarkStep, Leads;
    if !Marking(r) { OwnLeads(cfg, s, rid, c); hide AdvanceStep; }
    else if r.Mark? { MarkLeads(cfg, s, rid, r, r.id, c); }
    else { MarksLead(s, rid, r.id, c); }
  }

  /** Nothing else touches a mark. */
  lemma StepMarks(cfg: Config, s: State, a: Action, id: Id)
    requires Inv(cfg, s) && Enabled(cfg, s, a)
    ensures id in Step(cfg, s, a).marks <==> SetsMark(s, a, id) || (id in s.marks && !DropsMark(s, a, id) && !SweepsMark(s, a, id))
  {
    if a.Advance? {
      AdvanceMarks(cfg, s, a.rid, a.choice);
      hide AdvanceStep, Inv, Enabled;
    } else {
      hide Inv, S.Unexpired, F.Unexpired;
    }
  }

  predicate TakesMark(s: State, a: Action, id: Id) {
    DropsMark(s, a, id) || SweepsMark(s, a, id)
  }

  /** A mark that nobody sets anew is there exactly as long as nobody takes it. */
  lemma {:induction false} MarkThrough(cfg: Config, run: seq<State>, actions: seq<Action>, i: nat, j: nat, id: Id)
    requires IsRun(cfg, run, actions) && i <= j < |run|
    requires forall m :: i <= m < j ==> !SetsMark(run[m], actions[m], id)
    ensures id in run[j].marks <==> id in run[i].marks && forall m :: i <= m < j ==> !TakesMark(run[m], actions[m], id)
    decreases j
  {
    if i < j {
      MarkThrough(cfg, run, actions, i, j - 1, id);
      RunInv(cfg, run, actions, j - 1);
      assert MovesAt(cfg, run, actions, j - 1);
      hide Inv, Step, Enabled, SetsMark, DropsMark, SweepsMark;
      StepMarks(cfg, run[j - 1], actions[j - 1], id);
    }
  }

  // ---- Private files ----

  predicate Marker(s: State, rid: Rid, id: Id) {
    rid in s.requests && s.requests[rid] == FileMark(id)
  }

  /** At most one request is about to mark a file, and until it does the mark is not there. */
  ghost predicate OneMarker(s: State, id: Id) {
    forall r :: Marker(s, r, id) ==> id !in s.marks && forall q :: Marker(s, q, id) ==> q == r
  }

  predicate Unissued(s: State, id: Id) {
    id !in s.book && id !in s.fileIds
  }

  /** The marker of a file is the request that stored it. */
  lemma WhenceMarker(cfg: Config, s: State, a: Action, rid: Rid, id: Id)
    requires Inv(cfg, s) && Enabled(cfg, s, a) && Marker(Step(cfg, s, a), rid, id)
    ensures (Marker(s, rid, id) && !(a.Advance? && a.rid == rid)) || (a.Advance? && a.rid == rid && Unissued(s, id) && !SetsMark(s, a, id))
  {
    if a.Advance? && a.rid == rid {
      OwnMoves(cfg, s, rid, a.choice);
      hide AdvanceStep, Inv;
    } else if rid < s.nextRid {
      L.OthersStay(cfg, s, a, rid);
      hide Step, Inv, Enabled;
    } else {
      NewAtGate(cfg, s, a, rid);
      hide Step, Inv, Enabled;
    }
  }

  lemma MarkerFacts(cfg: Config, s: State, rid: Rid, id: Id)
    requires Inv(cfg, s)
    ensures Marker(s, rid, id) ==> id in s.fileIds && id !in s.book
    ensures Unissued(s, id) ==> id !in s.marks
  {
    if rid in s.requests { RequestFact(cfg, s, rid); }
    SlotFact(cfg, s, id);
    hide Inv, Bounded, Faithful, MarkKept, AbsenceExplained, InOrder, Exact, OnePerRequest, Private;
  }

  /** Who marks an id that is a file is its marker. */
  lemma SetsAsMarker(cfg: Config, s: State, a: Action, id: Id)
    requires Inv(cfg, s) && SetsMark(s, a, id) && id in s.fileIds
    ensures Marker(s, a.rid, id)
  {
    RequestFact(cfg, s, a.rid);
    SlotFact(cfg, s, id);
    hide Inv, Bounded, Faithful, MarkKept, AbsenceExplained, InOrder, Exact, OnePerRequest, Private;
  }

  lemma StepOneMarker(cfg: Config, s: State, a: Action, id: Id)
    requires Inv(cfg, s) && Enabled(cfg, s, a) && OneMarker(s, id)
    ensures OneMarker(Step(cfg, s, a), id)
  {
    var s' := Step(cfg, s, a);
    StepMarks(cfg, s, a, id);
    hide Step, Inv, Enabled, DropsMark, SweepsMark, Marker, Unissued;
    forall r | Marker(s', r, id) ensures id !in s'.marks && forall q :: Marker(s', q, id) ==> q == r {
      WhenceMarker(cfg, s, a, r, id);
      MarkerFacts(cfg, s, r, id);
      forall q | Marker(s', q, id) ensures q == r {
        WhenceMarker(cfg, s, a, q, id);
        MarkerFacts(cfg, s, q, id);
      }
      assert Marker(s, r, id) ==> id in s.fileIds;
      if SetsMark(s, a, id) && id in s.fileIds { SetsAsMarker(cfg, s, a, id); }
    }
  }

  lemma {:induction false} RunOneMarker(cfg: Config, run: seq<State>, actions: seq<Action>, i: nat, id: Id)
    requires IsRun(cfg, run, actions) && i < |run|
    ensures OneMarker(run[i], id)
    decreases i
  {
    if i > 0 {
      RunOneMarker(cfg, run, actions, i - 1, id);
      RunInv(cfg, run, actions, i - 1);
      assert MovesAt(cfg, run, actions, i - 1);
      hide Inv, Step, Enabled, OneMarker;
      StepOneMarker(cfg, run[i - 1], actions[i - 1], id);
    }
  }

  /** The transaction that records the mark of a file. */
  predicate MarksFile(s: State, a: Action, id: Id) {
    a.Advance? && a.choice.commits && Marker(s, a.rid, id)
  }

  ghost predicate NoMarker(s: State, id: Id) {
    id in s.fileIds && id !in s.book && forall r :: !Marker(s, r, id)
  }

  lemma StepNoMarker(cfg: Config, s: State, a: Action, id: Id)
    requires Inv(cfg, s) && Enabled(cfg, s, a) && OneMarker(s, id) && (NoMarker(s, id) || MarksFile(s, a, id))
    ensures NoMarker(Step(cfg, s, a), id)
  {
    var s' := Step(cfg, s, a);
    if MarksFile(s, a, id) { MarkerFacts(cfg, s, a.rid, id); }
    StepKeeps(cfg, s, a);
    assert Grows(SlotOf(s, id), SlotOf(s', id)) && SlotInv(cfg, SlotOf(s', id), s'.now, s'.nextRid);
    hide Step, Inv, Enabled, Keeps;
    forall r ensures !Marker(s', r, id) {
      if Marker(s', r, id) { WhenceMarker(cfg, s, a, r, id); }
    }
  }

  lemma {:induction false} NoMarkerAfter(cfg: Config, run: seq<State>, actions: seq<Action>, k: nat, j: nat, id: Id)
    requires IsRun(cfg, run, actions) && k < j < |run| && MarksFile(run[k], actions[k], id)
    ensures NoMarker(run[j], id)
    decreases j
  {
    RunOneMarker(cfg, run, actions, j - 1, id);
    RunInv(cfg, run, actions, j - 1);
    assert MovesAt(cfg, run, actions, j - 1);
    hide Inv, Step, Enabled, OneMarker, NoMarker, MarksFile;
    if k < j - 1 { NoMarkerAfter(cfg, run, actions, k, j - 1, id); }
    StepNoMarker(cfg, run[j - 1], actions[j - 1], id);
  }

  /** Before its marker has run, a file has no mark. */
  ghost predicate Unmarked(s: State, id: Id, rid: Rid) {
    Marker(s, rid, id) || Unissued(s, id)
  }

  lemma OneUnmarked(cfg: Config, s: State, a: Action, rid: Rid, id: Id)
    requires Inv(cfg, s) && Enabled(cfg, s, a) && Unmarked(Step(cfg, s, a), id, rid)
    ensures Unmarked(s, id, rid)
  {
    StepKeeps(cfg, s, a);
    assert Grows(SlotOf(s, id), SlotOf(Step(cfg, s, a), id));
    hide Step, Inv, Enabled, Keeps;
    if Marker(Step(cfg, s, a), rid, id) { WhenceMarker(cfg, s, a, rid, id); }
  }

  lemma {:induction false} UnmarkedBefore(cfg: Config, run: seq<State>, actions: seq<Action>, m: nat, k: nat, rid: Rid, id: Id)
    requires IsRun(cfg, run, actions) && m <= k < |run| && Unmarked(run[k], id, rid)
    ensures Unmarked(run[m], id, rid)
    decreases k
  {
    if m < k {
      RunInv(cfg, run, actions, k - 1);
      assert MovesAt(cfg, run, actions, k - 1);
      hide Inv, Step, Enabled, Unmarked;
      OneUnmarked(cfg, run[k - 1], actions[k - 1], rid, id);
      UnmarkedBefore(cfg, run, actions, m, k - 1, rid, id);
    }
  }

  /** While a file is stored nobody but the sweeper takes its mark: what burned it comes after. */
  lemma OnlySwept(cfg: Config, s: State, a: Action, id: Id)
    requires Inv(cfg, s) && id in s.files && id in s.fileIds
    ensures !DropsMark(s, a, id)
  {
    if DropsMark(s, a, id) { RequestFact(cfg, s, a.rid); }
    hide Inv;
  }

  lemma StoredThrough(cfg: Config, run: seq<State>, actions: seq<Action>, j: nat, m: nat, id: Id)
    requires IsRun(cfg, run, actions) && j <= m < |run| && id in run[j].fileIds && id in run[m].files
    ensures id in run[j].files
  {
    if id !in run[j].files { GoneFile(cfg, run, actions, j, m, id); }
  }

  ghost predicate SweptBetween(run: seq<State>, actions: seq<Action>, k: nat, m: nat, id: Id)
    requires m <= |actions| <= |run|
  {
    exists j :: k < j < m && SweepsMark(run[j], actions[j], id)
  }

  /** In every interleaving: the mark of a file that is still stored is missing exactly if the sweeper took it since. */
  lemma FileMarkMissing(cfg: Config, run: seq<State>, actions: seq<Action>, k: nat, m: nat, id: Id)
    requires IsRun(cfg, run, actions) && k < m < |run| && MarksFile(run[k], actions[k], id) && id in run[m].files
    ensures id !in run[m].marks <==> SweptBetween(run, actions, k, m, id)
  {
    RunInv(cfg, run, actions, k);
    assert MovesAt(cfg, run, actions, k);
    StepMarks(cfg, run[k], actions[k], id);
    hide Inv, Step, Enabled;
    forall j | k < j < m ensures !SetsMark(run[j], actions[j], id) && !DropsMark(run[j], actions[j], id) {
      NoMarkerAfter(cfg, run, actions, k, j, id);
      RunInv(cfg, run, actions, j);
      StoredThrough(cfg, run, actions, j, m, id);
      OnlySwept(cfg, run[j], actions[j], id);
      if SetsMark(run[j], actions[j], id) { SetsAsMarker(cfg, run[j], actions[j], id); }
    }
    MarkThrough(cfg, run, actions, k + 1, m, id);
  }

  lemma NoMarkYet(cfg: Config, run: seq<State>, actions: seq<Action>, m: nat, k: nat, id: Id)
    requires IsRun(cfg, run, actions) && m <= k < |actions| && MarksFile(run[k], actions[k], id)
    ensures id !in run[m].marks
  {
    UnmarkedBefore(cfg, run, actions, m, k, actions[k].rid, id);
    RunOneMarker(cfg, run, actions, m, id);
    RunInv(cfg, run, actions, m);
    MarkerFacts(cfg, run[m], actions[k].rid, id);
    hide Inv;
  }

  /** The gate of a request looks at the mark of its id; the transaction commits. */
  predicate AtGate(s: State, a: Action, rid: Rid, route: Route, id: Id) {
    a.Advance? && a.rid == rid && rid in s.requests && s.requests[rid] == Gate(route, id) && a.choice.commits
  }

  /** It did so too early for the mark, or after the sweeper had taken it. */
  ghost predicate MissedMark(run: seq<State>, actions: seq<Action>, k: nat, m: nat, rid: Rid, id: Id)
    requires m < |actions| <= |run|
  {
    AtGate(run[m], actions[m], rid, FileRoute, id) && (m <= k || SweptBetween(run, actions, k, m, id))
  }

  lemma FileGateOpen(cfg: Config, run: seq<State>, actions: seq<Action>, k: nat, m: nat, i: nat, rid: Rid, id: Id)
    requires IsRun(cfg, run, actions) && k < |actions| && MarksFile(run[k], actions[k], id)
    requires m < i < |actions| && id in run[i].files && cfg.authEnabled
    ensures OpensGate(cfg, run[m], actions[m], rid, FileRoute, id) <==> !cfg.gateAll && MissedMark(run, actions, k, m, rid, id)
  {
    if m <= k {
      NoMarkYet(cfg, run, actions, m, k, id);
    } else {
      NoMarkerAfter(cfg, run, actions, k, m, id);
      StoredThrough(cfg, run, actions, m, i, id);
      FileMarkMissing(cfg, run, actions, k, m, id);
    }
    hide SweptBetween, IsRun, MarksFile;
  }

  /**
   In every interleaving: a file whose mark was recorded is handed out to somebody without a session exactly if not all
   reveals are gated and the gate of his request ran before the mark was recorded, or after the visibility sweeper had
   taken it.
   */
  lemma MarkedFileUnasked(cfg: Config, run: seq<State>, actions: seq<Action>, k: nat, i: nat, id: Id)
    requires IsRun(cfg, run, actions) && k < |actions| && MarksFile(run[k], actions[k], id)
    requires i < |actions| && HandsOutFile(run[i], actions[i], id) && cfg.authEnabled
    ensures !run[i].requests[actions[i].rid].caller.verified <==>
      !cfg.gateAll && exists m :: 0 <= m < i && MissedMark(run, actions, k, m, actions[i].rid, id)
  {
    var rid := actions[i].rid;
    WhoIsUnasked(cfg, run, actions, i, rid);
    assert id in run[i].files;
    hide MissedMark, OpensGate, IsRun, MarksFile, HandsOutFile;
    forall m | 0 <= m < i
      ensures OpensGate(cfg, run[m], actions[m], rid, FileRoute, id) <==> !cfg.gateAll && MissedMark(run, actions, k, m, rid, id)
    {
      FileGateOpen(cfg, run, actions, k, m, i, rid, id);
    }
  }

  // ---- Private secrets ----

  predicate Recorded(s: State, id: Id) {
    id in s.book && s.book[id].mark.Recorded?
  }

  /** The transaction that records the mark of a secret. */
  predicate MarksSecret(s: State, a: Action, id: Id) {
    a.Advance? && a.rid in s.requests && s.requests[a.rid] == Mark(id) && a.choice.commits
  }

  /** The mark of a secret is set once. */
  lemma NoSecondMark(cfg: Config, s: State, a: Action, id: Id)
    requires Inv(cfg, s) && Recorded(s, id)
    ensures !SetsMark(s, a, id)
  {
    SlotFact(cfg, s, id);
    if SetsMark(s, a, id) { RequestFact(cfg, s, a.rid); }
    hide Inv, Bounded, Faithful, AbsenceExplained, InOrder, Exact, OnePerRequest, Private;
  }

  lemma NowRecorded(cfg: Config, s: State, a: Action, id: Id)
    requires Inv(cfg, s) && Enabled(cfg, s, a) && MarksSecret(s, a, id)
    ensures !Known(s, id) && Recorded(Step(cfg, s, a), id) && id in Step(cfg, s, a).marks
  {
    RequestFact(cfg, s, a.rid);
    hide Inv;
  }

  lemma {:induction false} StaysRecorded(cfg: Config, run: seq<State>, actions: seq<Action>, k: nat, j: nat, id: Id)
    requires IsRun(cfg, run, actions) && k < j < |run| && MarksSecret(run[k], actions[k], id)
    ensures !Known(run[k], id) && id in run[k + 1].marks && Recorded(run[j], id)
    decreases j
  {
    if k < j - 1 {
      StaysRecorded(cfg, run, actions, k, j - 1, id);
      StepGrows(cfg, run, actions, j - 1, id);
    } else {
      RunInv(cfg, run, actions, k);
      assert MovesAt(cfg, run, actions, k);
      hide Inv, Step, Enabled, MarksSecret;
      NowRecorded(cfg, run[k], actions[k], id);
    }
  }

  ghost predicate TakenBetween(run: seq<State>, actions: seq<Action>, k: nat, m: nat, id: Id)
    requires m <= |actions| <= |run|
  {
    exists j :: k < j < m && TakesMark(run[j], actions[j], id)
  }

  /** In every interleaving: the mark of a secret is missing exactly if it was taken since, after a burn or by the sweeper. */
  lemma SecretMarkMissing(cfg: Config, run: seq<State>, actions: seq<Action>, k: nat, m: nat, id: Id)
    requires IsRun(cfg, run, actions) && k < m < |run| && MarksSecret(run[k], actions[k], id)
    ensures id !in run[m].marks <==> TakenBetween(run, actions, k, m, id)
  {
    hide SetsMark, TakesMark, Recorded, MarksSecret, MovesAt, Known;
    StaysRecorded(cfg, run, actions, k, k + 1, id);
    forall j | k < j < m ensures !SetsMark(run[j], actions[j], id) {
      RunInv(cfg, run, actions, j);
      StaysRecorded(cfg, run, actions, k, j, id);
      NoSecondMark(cfg, run[j], actions[j], id);
    }
    MarkThrough(cfg, run, actions, k + 1, m, id);
  }

  /** Whoever reveals an id that no reveal touched too early came to the gate after the create had answered. */
  lemma GateKnows(cfg: Config, run: seq<State>, actions: seq<Action>, m: nat, i: nat, rid: Rid, id: Id)
    requires IsRun(cfg, run, actions) && m < i < |run| && Untouched(run[i], id)
    requires rid in run[m].requests && run[m].requests[rid] == Gate(RevealRoute, id)
    ensures Known(run[m], id)
    ensures run[m].book[id].mark.Recorded? && id in run[m].secrets ==> id in run[m].marks
  {
    RunInv(cfg, run, actions, m);
    RequestFact(cfg, run[m], rid);
    L.StillUntouched(cfg, run, actions, m, i, id);
    SlotFact(cfg, run[m], id);
    hide Inv, Bounded, Faithful, AbsenceExplained, InOrder, Exact, OnePerRequest, Private;
  }

  lemma KnownOn(cfg: Config, run: seq<State>, actions: seq<Action>, m: nat, k: nat, id: Id)
    requires IsRun(cfg, run, actions) && m <= k < |run| && Known(run[m], id)
    ensures Known(run[k], id)
  {
    RunFollows(cfg, run, actions, m, k, id);
  }

  /** Its gate found the mark taken since it was recorded. */
  ghost predicate LostMark(run: seq<State>, actions: seq<Action>, k: nat, m: nat, rid: Rid, id: Id)
    requires m < |actions| <= |run|
  {
    AtGate(run[m], actions[m], rid, RevealRoute, id) && TakenBetween(run, actions, k, m, id)
  }

  lemma SecretGateOpen(cfg: Config, run: seq<State>, actions: seq<Action>, k: nat, m: nat, i: nat, rid: Rid, id: Id)
    requires IsRun(cfg, run, actions) && k < |actions| && MarksSecret(run[k], actions[k], id)
    requires m < i < |actions| && Untouched(run[i], id) && cfg.authEnabled
    ensures OpensGate(cfg, run[m], actions[m], rid, RevealRoute, id) <==> !cfg.gateAll && LostMark(run, actions, k, m, rid, id)
    ensures OpensGate(cfg, run[m], actions[m], rid, RevealRoute, id) ==> id !in run[m].secrets
  {
    if AtGate(run[m], actions[m], rid, RevealRoute, id) {
      GateKnows(cfg, run, actions, m, i, rid, id);
      StaysRecorded(cfg, run, actions, k, k + 1, id);
      if m <= k {
        KnownOn(cfg, run, actions, m, k, id);
        assert false;
      } else {
        StaysRecorded(cfg, run, actions, k, m, id);
        SecretMarkMissing(cfg, run, actions, k, m, id);
      }
    }
    hide IsRun, TakenBetween, Known, MarksSecret;
  }

  /**
   In every interleaving: a view or the burn of a secret whose mark was recorded goes to somebody without a session exactly
   if not all reveals are gated and the gate of his reveal found the mark taken; by then the secret itself was gone.
   */
  lemma PrivateViewUnasked(cfg: Config, run: seq<State>, actions: seq<Action>, k: nat, i: nat, id: Id)
    requires IsRun(cfg, run, actions) && k < |actions| && MarksSecret(run[k], actions[k], id) && cfg.authEnabled
    requires i < |actions| && Untouched(run[i], id) && Handout(run[i], actions[i], id) != []
    ensures !Handout(run[i], actions[i], id)[0].caller.verified <==>
      !cfg.gateAll && exists m :: 0 <= m < i && LostMark(run, actions, k, m, actions[i].rid, id)
    ensures forall m :: 0 <= m < i && !cfg.gateAll && LostMark(run, actions, k, m, actions[i].rid, id) ==> id !in run[m].secrets
  {
    var rid := actions[i].rid;
    var r := run[i].requests[rid];
    assert Carries(r) && RouteOf(r) == RevealRoute && r.id == id && Handout(run[i], actions[i], id)[0].caller == r.caller;
    WhoIsUnasked(cfg, run, actions, i, rid);
    hide LostMark, OpensGate, IsRun, Handout, Untouched, MarksSecret;
    forall m | 0 <= m < i
      ensures OpensGate(cfg, run[m], actions[m], rid, RevealRoute, id) <==> !cfg.gateAll && LostMark(run, actions, k, m, rid, id)
      ensures OpensGate(cfg, run[m], actions[m], rid, RevealRoute, id) ==> id !in run[m].secrets
    {
      SecretGateOpen(cfg, run, actions, k, m, i, rid, id);
    }
  }
}
