/**
 The life of a secret as a step system. Every bolt transaction is one atomic step; requests and
 sweepers keep only locals between two of their transactions, and anything may run in between.
 Next to the buckets the state carries a book of what has happened to each issued id; no step
 reads it, it only serves to say what the steps guarantee.
 */
module Protocol {
  import opened Records
  import S = SecretStore
  import V = ViewsStore
  import F = FileStore

  type Rid = nat

  datatype Config = Config(authEnabled: bool, gateAll: bool, maxViews: int)

  /** The decoded body of `POST /secrets`, once the edge and the handler have let it pass. */
  datatype NewSecret = NewSecret(ciphertext: string, ttl: int, views: int, isPrivate: bool)

  datatype NewFile = NewFile(ciphertext: seq<Byte>, ttl: int, isPrivate: bool)

  datatype Route = RevealRoute | MetaRoute | FileRoute

  /** What the gate learned; `present` records whether the secret lay in its bucket at that moment. */
  datatype Caller = Caller(verified: bool, present: bool)

  /** Where an in-flight request stands: the transaction it will run next, with its locals. */
  datatype Request =
    | Store(body: NewSecret)
    | PutBudget(id: Id, body: NewSecret)
    | Mark(id: Id)
    | Reply(id: Id)
    | Gate(route: Route, id: Id)
    | Session(route: Route, id: Id, present: bool)
    | Consume(id: Id, caller: Caller)
    | Peek(id: Id, caller: Caller)
    | Check(id: Id, caller: Caller, expiresAt: Time)
    | Reap(id: Id)
    | Burn(id: Id, caller: Caller)
    | DropMark(id: Id)
    | MetaRead(id: Id)
    | MetaCheck(id: Id, expiresAt: Time, size: int)
    | MetaReap(id: Id)
    | MetaViews(id: Id, seen: Option<int>)
    | FileStore(file: NewFile)
    | FileMark(id: Id)
    | FileBurn(id: Id, caller: Caller)

  /** A sweeper between its ticks, walking a listing, or about to delete an id it saw orphaned. */
  datatype Sweep = Idle | Scanning(todo: seq<Id>) | Dropping(id: Id, todo: seq<Id>)

  datatype Status = Unneeded | Pending | Recorded | Lost

  /** One ciphertext handed out, by request `rid`; `remaining` is zero for the burn. */
  datatype Delivery = Delivery(rid: Rid, ciphertext: string, remaining: int, caller: Caller)

  datatype Book = Book(
    creator: Rid, ciphertext: string, views: int, expiresAt: Time,
    budget: Status, mark: Status, published: bool,
    starts: set<Rid>, log: seq<Delivery>, misses: nat, impaired: bool)

  datatype State = State(
    now: Time,
    secrets: S.Rows, views: V.Rows, marks: set<Id>, files: F.Rows,
    requests: map<Rid, Request>, viewsSweep: Sweep, marksSweep: Sweep, nextRid: Rid,
    book: map<Id, Book>, fileIds: set<Id>, early: set<Id>)

  datatype SessionCheck = Verified | Denied | Failed

  /** What the environment decides for one step of a request. */
  datatype Choice = Choice(commits: bool, session: SessionCheck, newId: Id, at: Time)

  datatype Action =
    | StartCreate(body: NewSecret)
    | StartFile(file: NewFile)
    | Start(route: Route, id: Id)
    | Advance(rid: Rid, choice: Choice)
    | SweepSecrets(at: Time, commits: bool)
    | SweepFiles(at: Time, commits: bool)
    | SweepViews(ids: seq<Id>, commits: bool)
    | SweepMarks(ids: seq<Id>, commits: bool)
    | Tick(to: Time)
    | Crash
    | SpoilBudget(id: Id)
    | SpoilSecret(id: Id)

  const START: State := State(1, map[], map[], {}, map[], map[], Idle, Idle, 0, map[], {}, {})

  /** The ceiling on views; below two there is no multi-view. */
  function MaxViews(cfg: Config): int {
    if cfg.maxViews > 1 then cfg.maxViews else 1
  }

  // ---- Bookkeeping ----

  function Goto(s: State, rid: Rid, r: Request): State {
    s.(requests := s.requests[rid := r])
  }

  function Finish(s: State, rid: Rid): State {
    s.(requests := s.requests - {rid})
  }

  function Spawn(s: State, r: Request): State {
    s.(requests := s.requests[s.nextRid := r], nextRid := s.nextRid + 1)
  }

  function Note(s: State, id: Id, b: Book): State {
    s.(book := s.book[id := b])
  }

  function Deliver(s: State, id: Id, d: Delivery): (r: State)
    ensures r == s.(book := r.book)
  {
    if id in s.book then Note(s, id, s.book[id].(log := s.book[id].log + [d])) else s
  }

  function Miss(s: State, id: Id): (r: State)
    ensures r == s.(book := r.book)
  {
    if id in s.book then Note(s, id, s.book[id].(misses := s.book[id].misses + 1)) else s
  }

  function Impair(s: State, id: Id): (r: State)
    ensures r == s.(book := r.book)
  {
    if id in s.book then Note(s, id, s.book[id].(impaired := true)) else s
  }

  // ---- POST /secrets ----

  function StoreStep(cfg: Config, s: State, rid: Rid, body: NewSecret, c: Choice): State {
    var secret := S.Secret(body.ciphertext, c.at, c.at + body.ttl, |body.ciphertext|);
    var r := S.Created(s.secrets, c.newId, secret);
    if !c.commits || r.Err? then Finish(s, rid)
    else
      var mark := if body.isPrivate && cfg.authEnabled then Pending else Unneeded;
      var budget := if body.views > 1 then Pending else Unneeded;
      var b := Book(rid, body.ciphertext, if body.views > 1 then body.views else 1, c.at + body.ttl,
                    budget, mark, false, {}, [], 0, false);
      Goto(Note(s.(secrets := r.value), c.newId, b), rid,
           if budget.Pending? then PutBudget(c.newId, body) else AfterPut(c.newId, mark))
  }

  function AfterPut(id: Id, mark: Status): Request {
    if mark.Pending? then Mark(id) else Reply(id)
  }

  function PutStep(s: State, rid: Rid, id: Id, body: NewSecret, c: Choice): State
    requires id in s.book
  {
    var b := s.book[id];
    var s' := if c.commits
              then Note(s.(views := V.Written(s.views, id, body.views, body.ciphertext)), id, b.(budget := Recorded))
              else Note(s, id, b.(budget := Lost));
    Goto(s', rid, AfterPut(id, b.mark))
  }

  function MarkStep(s: State, rid: Rid, id: Id, c: Choice): State
    requires id in s.book
  {
    var b := s.book[id];
    var s' := if c.commits
              then Note(s.(marks := s.marks + {id}), id, b.(mark := Recorded))
              else Note(s, id, b.(mark := Lost));
    Goto(s', rid, Reply(id))
  }

  function ReplyStep(s: State, rid: Rid, id: Id): State
    requires id in s.book
  {
    Finish(Note(s, id, s.book[id].(published := true)), rid)
  }

  // ---- The gate in front of meta and reveal ----

  function Entry(route: Route, id: Id, caller: Caller): Request {
    match route
    case RevealRoute => Consume(id, caller)
    case MetaRoute => MetaRead(id)
    case FileRoute => FileBurn(id, caller)
  }

  function GateStep(cfg: Config, s: State, rid: Rid, route: Route, id: Id, c: Choice): State {
    var present := id in s.secrets;
    if !cfg.authEnabled then Goto(s, rid, Entry(route, id, Caller(false, present)))
    else if cfg.gateAll then Goto(s, rid, Session(route, id, present))
    else if !c.commits then Finish(s, rid)
    else if id in s.marks then Goto(s, rid, Session(route, id, present))
    else Goto(s, rid, Entry(route, id, Caller(false, present)))
  }

  function SessionStep(s: State, rid: Rid, route: Route, id: Id, present: bool, c: Choice): State {
    if c.session.Verified? then Goto(s, rid, Entry(route, id, Caller(true, present))) else Finish(s, rid)
  }

  // ---- POST /secrets/:id/reveal ----

  function ConsumeStep(s: State, rid: Rid, id: Id, caller: Caller, c: Choice): State {
    if !c.commits then Finish(s, rid)
    else
      var (views', serving) := V.Consumed(s.views, id);
      var s' := s.(views := views');
      if serving.found && serving.remaining > 0
      then Finish(Deliver(s', id, Delivery(rid, serving.ciphertext, serving.remaining, caller)), rid)
      else Goto(s', rid, Peek(id, caller))
  }

  function PeekStep(s: State, rid: Rid, id: Id, caller: Caller, c: Choice): State {
    var r := S.MetaOf(s.secrets, id);
    if !c.commits || r.Err? then Finish(s, rid)
    else if r.value.Some? then Goto(s, rid, Check(id, caller, r.value.value.expiresAt))
    else Goto(s, rid, Burn(id, caller))
  }

  function CheckStep(s: State, rid: Rid, id: Id, caller: Caller, expiresAt: Time): State {
    if IsExpired(expiresAt, s.now) then Goto(Impair(s, id), rid, Reap(id)) else Goto(s, rid, Burn(id, caller))
  }

  function Reaped(s: State, id: Id, c: Choice): State {
    if c.commits then s.(secrets := s.secrets - {id}) else s
  }

  function BurnStep(s: State, rid: Rid, id: Id, caller: Caller, c: Choice): State {
    if !c.commits then Finish(s, rid)
    else
      var (secrets', r) := S.Burned(s.secrets, id);
      if r.Err? then Finish(s, rid)
      else if r.value.None? then Finish(Miss(s, id), rid)
      else Goto(Deliver(s.(secrets := secrets'), id, Delivery(rid, r.value.value.ciphertext, 0, caller)),
                rid, DropMark(id))
  }

  function DropMarkStep(s: State, rid: Rid, id: Id, c: Choice): State {
    Finish(if c.commits then s.(marks := s.marks - {id}) else s, rid)
  }

  // ---- GET /secrets/:id/meta ----

  function MetaReadStep(s: State, rid: Rid, id: Id, c: Choice): State {
    var r := S.MetaOf(s.secrets, id);
    if !c.commits || r.Err? then Finish(s, rid)
    else Goto(s, rid, match r.value case None => MetaViews(id, None) case Some(x) => MetaCheck(id, x.expiresAt, x.size))
  }

  function MetaCheckStep(s: State, rid: Rid, id: Id, expiresAt: Time, size: int): State {
    if IsExpired(expiresAt, s.now) then Goto(Impair(s, id), rid, MetaReap(id)) else Goto(s, rid, MetaViews(id, Some(size)))
  }

  // ---- The file routes, as far as they touch the shared bucket of marks ----

  function FileStoreStep(cfg: Config, s: State, rid: Rid, body: NewFile, c: Choice): State {
    if !c.commits then Finish(s, rid)
    else
      var file := F.File(body.ciphertext, c.at, c.at + body.ttl, |body.ciphertext|);
      var s' := s.(files := s.files[c.newId := Row(file)], fileIds := s.fileIds + {c.newId});
      if body.isPrivate && cfg.authEnabled then Goto(s', rid, FileMark(c.newId)) else Finish(s', rid)
  }

  function FileMarkStep(s: State, rid: Rid, id: Id, c: Choice): State {
    Finish(if c.commits then s.(marks := s.marks + {id}) else s, rid)
  }

  function FileBurnStep(s: State, rid: Rid, id: Id, c: Choice): State {
    if !c.commits then Finish(s, rid)
    else
      var (files', f) := F.Burned(s.files, id, s.now);
      var s' := s.(files := files');
      if f.Some? then Goto(s', rid, DropMark(id)) else Finish(s', rid)
  }

  // ---- Sweepers ----

  function SweepSecretsStep(s: State, at: Time, commits: bool): State {
    if !commits then s
    else
      var kept := S.Unexpired(s.secrets, at);
      s.(secrets := kept,
         book := map id | id in s.book ::
           if id in s.secrets && id !in kept then s.book[id].(impaired := true) else s.book[id])
  }

  /** One step of a sweeper that deletes from `keys` what is missing among the secrets. */
  function SweepStep(sweep: Sweep, secrets: S.Rows, ids: seq<Id>, commits: bool): (Sweep, Option<Id>) {
    match sweep
    case Idle => (if commits then Scanning(ids) else Idle, None)
    case Dropping(id, todo) => (Scanning(todo), if commits then Some(id) else None)
    case Scanning(todo) =>
      if todo == [] then (Idle, None)
      else if commits && S.MetaOf(secrets, todo[0]) == Ok(None) then (Dropping(todo[0], todo[1..]), None)
      else (Scanning(todo[1..]), None)
  }

  function SweepViewsStep(s: State, ids: seq<Id>, commits: bool): State {
    var (sweep, drop) := SweepStep(s.viewsSweep, s.secrets, ids, commits);
    s.(viewsSweep := sweep, views := if drop.Some? then s.views - {drop.value} else s.views)
  }

  function SweepMarksStep(s: State, ids: seq<Id>, commits: bool): State {
    var (sweep, drop) := SweepStep(s.marksSweep, s.secrets, ids, commits);
    s.(marksSweep := sweep, marks := if drop.Some? then s.marks - {drop.value} else s.marks)
  }

  // ---- Faults ----

  function Settled(x: Status): Status {
    if x.Pending? then Lost else x
  }

  /** All that is in flight is gone; what was committed stays. */
  function CrashStep(s: State): State {
    s.(requests := map[], viewsSweep := Idle, marksSweep := Idle,
       book := map id | id in s.book ::
         s.book[id].(budget := Settled(s.book[id].budget), mark := Settled(s.book[id].mark)))
  }

  // ---- The step relation ----

  predicate Fresh(s: State, id: Id) {
    id != "" && id !in s.book && id !in s.fileIds
  }

  predicate Known(s: State, id: Id) {
    id in s.book && s.book[id].published
  }

  function StartStep(s: State, route: Route, id: Id): State {
    var s' := Spawn(s, Gate(route, id));
    if !route.RevealRoute? then s'
    else if Known(s, id) then Note(s', id, s.book[id].(starts := s.book[id].starts + {s.nextRid}))
    else s'.(early := s.early + {id})
  }

  function AdvanceStep(cfg: Config, s: State, rid: Rid, c: Choice): State
    requires rid in s.requests
  {
    match s.requests[rid]
    case Store(body) => StoreStep(cfg, s, rid, body, c)
    case PutBudget(id, body) => if id in s.book then PutStep(s, rid, id, body, c) else s
    case Mark(id) => if id in s.book then MarkStep(s, rid, id, c) else s
    case Reply(id) => if id in s.book then ReplyStep(s, rid, id) else s
    case Gate(route, id) => GateStep(cfg, s, rid, route, id, c)
    case Session(route, id, present) => SessionStep(s, rid, route, id, present, c)
    case Consume(id, caller) => ConsumeStep(s, rid, id, caller, c)
    case Peek(id, caller) => PeekStep(s, rid, id, caller, c)
    case Check(id, caller, expiresAt) => CheckStep(s, rid, id, caller, expiresAt)
    case Reap(id) => Finish(Miss(Reaped(s, id, c), id), rid)
    case Burn(id, caller) => BurnStep(s, rid, id, caller, c)
    case DropMark(id) => DropMarkStep(s, rid, id, c)
    case MetaRead(id) => MetaReadStep(s, rid, id, c)
    case MetaCheck(id, expiresAt, size) => MetaCheckStep(s, rid, id, expiresAt, size)
    case MetaReap(id) => Goto(Reaped(s, id, c), rid, MetaViews(id, None))
    case MetaViews(_, _) => Finish(s, rid)
    case FileStore(body) => FileStoreStep(cfg, s, rid, body, c)
    case FileMark(id) => FileMarkStep(s, rid, id, c)
    case FileBurn(id, _) => FileBurnStep(s, rid, id, c)
  }

  ghost predicate Enabled(cfg: Config, s: State, a: Action) {
    match a
    case StartCreate(body) => 0 <= body.views <= MaxViews(cfg) && body.ttl > 0
    case Advance(rid, c) =>
      && rid in s.requests
      && 0 < c.at <= s.now
      && (s.requests[rid].Store? || s.requests[rid].FileStore? ==> Fresh(s, c.newId))
    case SweepSecrets(at, _) => at <= s.now
    case SweepFiles(at, _) => at <= s.now
    case SweepViews(ids, _) => Lists(ids, s.views.Keys)
    case SweepMarks(ids, _) => Lists(ids, s.marks)
    case Tick(to) => to >= s.now
    case SpoilBudget(id) => id in s.views
    case SpoilSecret(id) => id in s.secrets
    case _ => true
  }

  function Step(cfg: Config, s: State, a: Action): State
    requires a.Advance? ==> a.rid in s.requests
  {
    match a
    case StartCreate(body) => Spawn(s, Store(body))
    case StartFile(file) => Spawn(s, FileStore(file))
    case Start(route, id) => StartStep(s, route, id)
    case Advance(rid, c) => AdvanceStep(cfg, s, rid, c)
    case SweepSecrets(at, commits) => SweepSecretsStep(s, at, commits)
    case SweepFiles(at, commits) => if commits then s.(files := F.Unexpired(s.files, at)) else s
    case SweepViews(ids, commits) => SweepViewsStep(s, ids, commits)
    case SweepMarks(ids, commits) => SweepMarksStep(s, ids, commits)
    case Tick(to) => s.(now := to)
    case Crash => CrashStep(s)
    case SpoilBudget(id) => Impair(s.(views := s.views[id := Undecodable]), id)
    case SpoilSecret(id) => Impair(s.(secrets := s.secrets[id := Undecodable]), id)
  }

  /** A run: any interleaving at all, from the empty server on. */
  ghost predicate IsRun(cfg: Config, states: seq<State>, actions: seq<Action>) {
    && |states| == |actions| + 1
    && states[0] == START
    && forall i :: 0 <= i < |actions| ==> MovesAt(cfg, states, actions, i)
  }

  ghost predicate MovesAt(cfg: Config, states: seq<State>, actions: seq<Action>, i: nat)
    requires |states| == |actions| + 1 && i < |actions|
  {
    Moves(cfg, states[i], actions[i], states[i + 1])
  }

  ghost predicate Moves(cfg: Config, s: State, a: Action, s': State) {
    Enabled(cfg, s, a) && s' == Step(cfg, s, a)
  }
}
