/**
 The handlers and middlewares of the secret routes, in the order the routes mount them, as code over
 the three stores. Each method is proved to do to the buckets what the protocol's steps do when no
 other request gets in between; what holds of every interleaving of those steps is shown elsewhere.
 */
module Server {
  import opened Records
  import opened Protocol
  import opened Text
  import opened Uninterrupted
  import S = SecretStore
  import V = ViewsStore
  import M = VisibilityStore

  datatype Response =
    | Created(id: Id)
    | Metadata(found: bool, size: int, left: Option<int>)
    | Shown(ciphertext: string, remaining: int)
    | NotFound
    | Unauthorized
    | BadRequest
    | TooLarge
    | Internal

  /** The body of a create, its lifetime still as text. */
  datatype Draft = Draft(ciphertext: string, ttl: string, views: int, isPrivate: bool)

  datatype Limits = Limits(maxSize: int, defaultTtl: int, maxTtl: int)

  /** The lifetime asked for, or the configured one; `parse` stands for `time.ParseDuration`. */
  function ResolveTtl(raw: string, limits: Limits, parse: string -> Option<int>): (r: Result<int>)
    requires 0 < limits.defaultTtl <= limits.maxTtl
    ensures r.Ok? ==> 0 < r.value <= limits.maxTtl
    ensures TrimSpace(raw) == "" ==> r == Ok(limits.defaultTtl)
    ensures TrimSpace(raw) != "" ==>
      if r.Ok? then parse(TrimSpace(raw)) == Some(r.value)
      else parse(TrimSpace(raw)).None? || parse(TrimSpace(raw)).value <= 0 || parse(TrimSpace(raw)).value > limits.maxTtl
  {
    var text := TrimSpace(raw);
    if text == "" then Ok(limits.defaultTtl)
    else match parse(text)
      case None => Err("ttl invalid")
      case Some(d) => if d <= 0 then Err("ttl invalid") else if d > limits.maxTtl then Err("ttl exceeds the maximum") else Ok(d)
  }

  /** A text that is no lifetime, or none within the bounds. */
  predicate Unusable(text: string, max: int, parse: string -> Option<int>) {
    text != "" && (parse(text).None? || parse(text).value <= 0 || parse(text).value > max)
  }

  /** The lifetime is the one that was asked for, or the configured one where none was. */
  predicate LivesFor(life: int, text: string, fallback: int, parse: string -> Option<int>) {
    if text == "" then life == fallback else parse(text) == Some(life)
  }

  /** A session is asked for. */
  predicate Asks(cfg: Config, marks: set<Id>, id: Id, env: Environment) {
    cfg.authEnabled && (cfg.gateAll || (env(AtGate).commits && id in marks))
  }

  /** The gate: whether the caller may pass, without touching any bucket. */
  method RevealGate(cfg: Config, marks: M.Store, route: Route, id: Id, env: Environment, ghost s: State, ghost rid: Rid)
    returns (refusal: Option<Response>, ghost t: State, ghost caller: Caller)
    requires marks.isOpen && s.marks == marks.ids && id != ""
    requires rid in s.requests && s.requests[rid] == Gate(route, id)
    ensures Alone(cfg, s, rid, env) == Alone(cfg, t, rid, env)
    ensures refusal.Some? ==> t == Finish(s, rid)
    ensures refusal.Some? ==> refusal.value in {Unauthorized, Internal}
    ensures refusal == Some(Unauthorized) <==> Asks(cfg, marks.ids, id, env) && env(AtSession).session == Denied
    ensures refusal == Some(Internal) <==>
      || (cfg.authEnabled && !cfg.gateAll && !env(AtGate).commits)
      || (Asks(cfg, marks.ids, id, env) && env(AtSession).session == Failed)
    ensures refusal.None? ==> t == Goto(s, rid, Entry(route, id, caller))
    ensures refusal.None? && cfg.authEnabled && (cfg.gateAll || id in marks.ids) ==> caller.verified
    ensures env(AtGate).commits && env(AtSession).session.Verified? ==> refusal.None?
  {
    hide AdvanceStep, Alone, Entry;
    caller := Caller(false, id in s.secrets);
    t := Goto(s, rid, Entry(route, id, caller));
    if !cfg.authEnabled {
      GatePasses(cfg, s, rid, route, id, env);
      return None, t, caller;
    }
    var needAuth := cfg.gateAll;
    if !needAuth {
      var private := marks.IsPrivate(id, env(AtGate).commits);
      if private.Err? {
        GateFails(cfg, s, rid, route, id, env);
        return Some(Internal), Finish(s, rid), caller;
      }
      needAuth := private.value;
    }
    if !needAuth {
      GatePasses(cfg, s, rid, route, id, env);
      return None, t, caller;
    }
    GateAsks(cfg, s, rid, route, id, env);
    if env(AtSession).session == Failed {
      return Some(Internal), Finish(s, rid), caller;
    }
    if env(AtSession).session == Denied {
      return Some(Unauthorized), Finish(s, rid), caller;
    }
    caller := Caller(true, id in s.secrets);
    return None, Goto(s, rid, Entry(route, id, caller)), caller;
  }

  class Api {
    const cfg: Config
    const limits: Limits
    const secrets: S.Store
    const views: V.Store
    const marks: M.Store

    ghost predicate Valid() reads views {
      && views.Valid() && secrets.isOpen && views.isOpen && marks.isOpen
      && 0 < limits.defaultTtl <= limits.maxTtl
    }

    ghost predicate Holds(s: State) reads secrets, views, marks {
      s.secrets == secrets.rows && s.views == views.rows && s.marks == marks.ids
    }

    constructor (cfg: Config, limits: Limits)
      requires 0 < limits.defaultTtl <= limits.maxTtl
      ensures Valid() && this.cfg == cfg && this.limits == limits && Holds(START)
      ensures fresh(secrets) && fresh(views) && fresh(marks)
    {
      this.cfg := cfg;
      this.limits := limits;
      secrets := new S.Store(true);
      views := new V.Store(true);
      marks := new M.Store(true);
    }

    /** Serves a view that is not the last from the budget, or passes on. */
    method MultiViewReveal(id: Id, env: Environment, ghost s: State, ghost rid: Rid, ghost caller: Caller)
      returns (answer: Option<Response>, ghost t: State)
      requires Valid() && Holds(s) && id != ""
      requires rid in s.requests && s.requests[rid] == Consume(id, caller)
      modifies views
      ensures Valid() && Holds(t)
      ensures Alone(cfg, s, rid, env) == Alone(cfg, t, rid, env)
      ensures t.secrets == s.secrets && t.now == s.now
      ensures answer.None? ==> rid in t.requests && t.requests[rid] == Peek(id, caller) && t.book == s.book
      ensures answer.Some? ==> rid !in t.requests && Answers(answer.value, s, t, rid, id, caller)
      ensures answer.Some? ==> answer.value.Shown? || answer.value.Internal?
      ensures env(AtConsume).commits ==> answer == FromBudget(s.views, id)
    {
      hide AdvanceStep, Alone;
      ConsumeAlong(cfg, s, rid, id, caller, env);
      t := ConsumeStep(s, rid, id, caller, env(AtConsume));
      var r := views.Consume(id, env(AtConsume).commits);
      if r.Err? { return Some(Internal), t; }
      if r.value.found && r.value.remaining > 0 {
        return Some(Shown(r.value.ciphertext, r.value.remaining)), t;
      }
      return None, t;
    }

    /** Read and delete in one transaction: of any number of reveals exactly one gets here first. */
    method Burn(id: Id, env: Environment, ghost s: State, ghost rid: Rid, ghost caller: Caller)
      returns (answer: Response, ghost t: State)
      requires Valid() && Holds(s)
      requires rid in s.requests && s.requests[rid] == Protocol.Burn(id, caller)
      modifies secrets
      ensures Valid() && Holds(t)
      ensures Alone(cfg, s, rid, env) == Alone(cfg, t, rid, env)
      ensures t.views == s.views && Answers(answer, s, t, rid, id, caller)
      ensures answer.Shown? || answer.NotFound? || answer.Internal?
      ensures if answer.Shown? then rid in t.requests && t.requests[rid] == DropMark(id) else rid !in t.requests
      ensures env(AtBurn).commits ==> answer == match S.MetaOf(s.secrets, id)
        case Err(_) => Internal
        case Ok(None) => NotFound
        case Ok(Some(secret)) => Shown(secret.ciphertext, 0)
    {
      hide AdvanceStep, Alone;
      BurnAlong(cfg, s, rid, id, caller, env);
      t := BurnStep(s, rid, id, caller, env(AtBurn));
      var burned := secrets.GetAndBurn(id, env(AtBurn).commits);
      if burned.Err? { return Internal, t; }
      if burned.value.None? { return NotFound, t; }
      return Shown(burned.value.value.ciphertext, 0), t;
    }

    /** Peeks, and drops what has expired without spending a live secret's burn. */
    method DropExpired(id: Id, now: Time, env: Environment, ghost s: State, ghost rid: Rid, ghost caller: Caller)
      returns (answer: Option<Response>, ghost t: State)
      requires Valid() && Holds(s) && now == s.now
      requires rid in s.requests && s.requests[rid] == Peek(id, caller)
      modifies secrets
      ensures Valid() && Holds(t)
      ensures Alone(cfg, s, rid, env) == Alone(cfg, t, rid, env)
      ensures t.views == s.views
      ensures answer.None? ==>
        rid in t.requests && t.requests[rid] == Protocol.Burn(id, caller) && t.secrets == s.secrets && t.book == s.book
      ensures answer.Some? ==> answer.value.NotFound? || answer.value.Internal?
      ensures answer.Some? ==> !answer.value.Shown? && rid !in t.requests && Answers(answer.value, s, t, rid, id, caller)
      ensures env(AtPeek).commits && answer.Some? ==> answer.value == FromSecret(s.secrets, id, now)
      ensures answer.None? ==> id in s.secrets ==> s.secrets[id].Row? && !IsExpired(s.secrets[id].value.expiresAt, now)
    {
      hide AdvanceStep, Alone;
      PeekAlong(cfg, s, rid, id, caller, env);
      t := PeekStep(s, rid, id, caller, env(AtPeek));
      var peeked := secrets.GetMeta(id, env(AtPeek).commits);
      if peeked.Err? { return Some(Internal), t; }
      if peeked.value.None? { return None, t; }
      CheckAlong(cfg, t, rid, id, caller, peeked.value.value.expiresAt, env);
      t := CheckStep(t, rid, id, caller, peeked.value.value.expiresAt);
      if !IsExpired(peeked.value.value.expiresAt, now) { return None, t; }
      ReapAlong(cfg, t, rid, id, env);
      t := Finish(Miss(Reaped(t, id, env(AtReap)), id), rid);
      var _ := secrets.Delete(id, env(AtReap).commits);
      return Some(NotFound), t;
    }

    /** The single burn path. */
    method RevealHandler(id: Id, now: Time, env: Environment, ghost s: State, ghost rid: Rid, ghost caller: Caller)
      returns (answer: Response, ghost t: State)
      requires Valid() && Holds(s) && now == s.now
      requires rid in s.requests && s.requests[rid] == Peek(id, caller)
      modifies secrets
      ensures Valid() && Holds(t)
      ensures Alone(cfg, s, rid, env) == Alone(cfg, t, rid, env)
      ensures t.views == s.views && Answers(answer, s, t, rid, id, caller)
      ensures answer.Shown? || answer.NotFound? || answer.Internal?
      ensures if answer.Shown? then rid in t.requests && t.requests[rid] == DropMark(id) else rid !in t.requests
      ensures env(AtPeek).commits && env(AtBurn).commits ==> answer == FromSecret(s.secrets, id, now)
    {
      hide Alone, AdvanceStep;
      var dropped, u := DropExpired(id, now, env, s, rid, caller);
      if dropped.Some? { return dropped.value, u; }
      answer, t := Burn(id, env, u, rid, caller);
    }

    /** Runs the handler, and drops the mark of a secret that it burned. */
    method DropVisibilityOnBurn(id: Id, now: Time, env: Environment, ghost s: State, ghost rid: Rid, ghost caller: Caller)
      returns (answer: Response, ghost t: State)
      requires Valid() && Holds(s) && now == s.now
      requires rid in s.requests && s.requests[rid] == Peek(id, caller)
      modifies secrets, marks
      ensures Valid() && Holds(t)
      ensures Alone(cfg, s, rid, env) == t
      ensures t.views == s.views && Answers(answer, s, t, rid, id, caller)
      ensures answer.Shown? || answer.NotFound? || answer.Internal?
      ensures env(AtPeek).commits && env(AtBurn).commits ==> answer == FromSecret(s.secrets, id, now)
    {
      hide Alone, AdvanceStep, FromSecret;
      answer, t := RevealHandler(id, now, env, s, rid, caller);
      if answer.Shown? {
        DropAlong(cfg, t, rid, id, env);
        t := DropMarkStep(t, rid, id, env(AtDrop));
        var _ := marks.Delete(id, env(AtDrop).commits);
      }
      DoneAlone(cfg, t, rid, env);
    }

    /**
     POST /secrets/:id/reveal. On the buckets it is the request of the protocol, run to its end; and when
     the caller may pass and nothing fails, two rows decide what he gets.
     */
    method Reveal(id: Id, now: Time, env: Environment, ghost start: State, ghost rid: Rid)
      returns (answer: Response, ghost caller: Caller)
      requires Valid() && Holds(start) && now == start.now && id != ""
      modifies secrets, views, marks
      ensures Valid() && Holds(Alone(cfg, Goto(start, rid, Gate(RevealRoute, id)), rid, env))
      ensures Answers(answer, start, Alone(cfg, Goto(start, rid, Gate(RevealRoute, id)), rid, env), rid, id, caller)
      ensures answer.Shown? && cfg.authEnabled && (cfg.gateAll || id in start.marks) ==> caller.verified
      ensures answer.Unauthorized? <==> Asks(cfg, start.marks, id, env) && env(AtSession).session == Denied
      ensures Undisturbed(env) ==> Reveals(answer, start.secrets, start.views, id, now)
    {
      RevealsIs(start.secrets, start.views, id, now);
      hide Alone, AdvanceStep, FromSecret, FromBudget, Reveals, Asks;
      ghost var s := Goto(start, rid, Gate(RevealRoute, id));
      var refusal, u, known := RevealGate(cfg, marks, RevealRoute, id, env, s, rid);
      caller := known;
      if refusal.Some? {
        DoneAlone(cfg, u, rid, env);
        return refusal.value, caller;
      }
      ghost var t;
      answer, t := RevealPastGate(id, now, env, u, rid, caller);
    }

    /** The budget first, the secret for the last view. */
    method RevealPastGate(id: Id, now: Time, env: Environment, ghost s: State, ghost rid: Rid, ghost caller: Caller)
      returns (answer: Response, ghost t: State)
      requires Valid() && Holds(s) && now == s.now && id != ""
      requires rid in s.requests && s.requests[rid] == Consume(id, caller)
      modifies secrets, views, marks
      ensures Valid() && Holds(t) && Alone(cfg, s, rid, env) == t && Answers(answer, s, t, rid, id, caller)
      ensures answer.Shown? || answer.NotFound? || answer.Internal?
      ensures env(AtConsume).commits && env(AtPeek).commits && env(AtBurn).commits ==>
        answer == if FromBudget(s.views, id).Some? then FromBudget(s.views, id).value else FromSecret(s.secrets, id, now)
    {
      hide Alone, AdvanceStep, FromSecret, FromBudget;
      var served, v := MultiViewReveal(id, env, s, rid, caller);
      if served.Some? {
        DoneAlone(cfg, v, rid, env);
        return served.value, v;
      }
      answer, t := DropVisibilityOnBurn(id, now, env, v, rid, caller);
    }

    /** Meta itself: whether there is a live secret. An expired one is dropped on the way. */
    method MetaHandler(id: Id, now: Time, env: Environment, ghost s: State, ghost rid: Rid)
      returns (answer: Response, ghost t: State, ghost seen: Option<int>)
      requires Valid() && Holds(s) && now == s.now
      requires rid in s.requests && s.requests[rid] == MetaRead(id)
      modifies secrets
      ensures Valid() && Holds(t)
      ensures Alone(cfg, s, rid, env) == Alone(cfg, t, rid, env)
      ensures t.views == s.views
      ensures answer.Metadata? ==> rid in t.requests && t.requests[rid] == MetaViews(id, seen) && answer == Seen(seen)
      ensures !answer.Metadata? ==> answer == Internal && rid !in t.requests
      ensures env(AtMeta).commits ==> answer == MetaOf(s.secrets, id, now)
    {
      hide AdvanceStep, Alone;
      MetaAlong(cfg, s, rid, id, env);
      t := MetaReadStep(s, rid, id, env(AtMeta));
      var found := secrets.GetMeta(id, env(AtMeta).commits);
      if found.Err? { return Internal, t, None; }
      if found.value.None? { return Metadata(false, 0, None), t, None; }
      MetaCheckAlong(cfg, t, rid, id, found.value.value.expiresAt, found.value.value.size, env);
      t := MetaCheckStep(t, rid, id, found.value.value.expiresAt, found.value.value.size);
      if IsExpired(found.value.value.expiresAt, now) {
        MetaReapAlong(cfg, t, rid, id, env);
        t := Goto(Reaped(t, id, env(AtMetaReap)), rid, MetaViews(id, None));
        var _ := secrets.Delete(id, env(AtMetaReap).commits);
        return Metadata(false, 0, None), t, None;
      }
      return Metadata(true, found.value.value.size, None), t, Some(found.value.value.size);
    }

    /** GET /secrets/:id/meta: what the handler says, with the views left added where a budget tells them. */
    method Meta(id: Id, now: Time, env: Environment, ghost start: State, ghost rid: Rid) returns (answer: Response)
      requires Valid() && Holds(start) && now == start.now && id != ""
      modifies secrets
      ensures Valid() && Holds(Alone(cfg, Goto(start, rid, Gate(MetaRoute, id)), rid, env))
      ensures answer.Unauthorized? <==> Asks(cfg, start.marks, id, env) && env(AtSession).session == Denied
      ensures Undisturbed(env) ==> Tells(answer, start.secrets, start.views, id, now)
    {
      TellsIs(start.secrets, start.views, id, now);
      hide Alone, AdvanceStep, MetaOf, Tells;
      ghost var s := Goto(start, rid, Gate(MetaRoute, id));
      var refusal, u, _ := RevealGate(cfg, marks, MetaRoute, id, env, s, rid);
      if refusal.Some? {
        DoneAlone(cfg, u, rid, env);
        return refusal.value;
      }
      ghost var t, seen;
      answer, t, seen := MetaHandler(id, now, env, u, rid);
      if !answer.Metadata? {
        DoneAlone(cfg, t, rid, env);
        return;
      }
      ViewsAlong(cfg, t, rid, id, seen, env);
      var left := views.Remaining(id, env(AtViews).commits);
      if left.Err? || left.value.None? { return; }
      return answer.(left := left.value);
    }

    /**
     POST /secrets, behind the session check: what is out of range is refused before anything is stored; then the
     secret, its budget and its mark are written, in this order, before the answer leaves.
     */
    method Create(draft: Draft, parse: string -> Option<int>, env: Environment, ghost start: State, ghost rid: Rid)
      returns (answer: Response)
      requires Valid() && Holds(start)
      modifies secrets, views, marks
      ensures Valid()
      ensures answer.BadRequest? || answer.TooLarge? <==> !Acceptable(draft, cfg, limits, parse)
      ensures answer.TooLarge? <==>
        && draft.views >= 0 && (draft.views <= 1 || draft.views <= cfg.maxViews)
        && TrimSpace(draft.ciphertext) != "" && |draft.ciphertext| > limits.maxSize * 2 + 1024
      ensures answer.BadRequest? <==>
        || draft.views < 0 || (draft.views > 1 && draft.views > cfg.maxViews) || TrimSpace(draft.ciphertext) == ""
        || (|draft.ciphertext| <= limits.maxSize * 2 + 1024 && Unusable(TrimSpace(draft.ttl), limits.maxTtl, parse))
      ensures answer.Created? ==>
        && answer.id in secrets.rows && secrets.rows[answer.id].Row?
        && var x := secrets.rows[answer.id].value;
           && x.ciphertext == draft.ciphertext && x.size == |draft.ciphertext| && x.createdAt == env(AtStore).at
           && LivesFor(x.expiresAt - x.createdAt, TrimSpace(draft.ttl), limits.defaultTtl, parse)
      ensures !Acceptable(draft, cfg, limits, parse) ==> Holds(start)
      ensures Acceptable(draft, cfg, limits, parse) ==>
        var body := Accepted(draft, limits, parse);
        && Enabled(cfg, start, StartCreate(body))
        && Holds(Alone(cfg, Goto(start, rid, Store(body)), rid, env))
        && Written(cfg, answer, body, env, start, Alone(cfg, Goto(start, rid, Store(body)), rid, env))
    {
      hide TrimSpace, Alone, AdvanceStep;
      if draft.views < 0 || draft.views > MaxViews(cfg) { return BadRequest; }
      if TrimSpace(draft.ciphertext) == "" { return BadRequest; }
      if |draft.ciphertext| > limits.maxSize * 2 + 1024 { return TooLarge; }
      var ttl := ResolveTtl(draft.ttl, limits, parse);
      if ttl.Err? { return BadRequest; }
      ghost var body := Accepted(draft, limits, parse);
      ghost var t;
      answer, t := Write(draft.ciphertext, ttl.value, draft.views, draft.isPrivate, env, start, rid);
    }

    method Write(ciphertext: string, ttl: int, wanted: int, isPrivate: bool, env: Environment, ghost start: State, ghost rid: Rid)
      returns (answer: Response, ghost t: State)
      requires Valid() && Holds(start)
      modifies secrets, views, marks
      ensures Valid() && Holds(t) && (answer.Created? || answer == Internal)
      ensures t == Alone(cfg, Goto(start, rid, Store(NewSecret(ciphertext, ttl, wanted, isPrivate))), rid, env)
      ensures Written(cfg, answer, NewSecret(ciphertext, ttl, wanted, isPrivate), env, start, t)
    {
      hide AdvanceStep, Alone, StoreStep, PutStep, MarkStep, ReplyStep, AfterPut, S.Created, V.Written;
      var body := NewSecret(ciphertext, ttl, wanted, isPrivate);
      var id := env(AtStore).newId;
      answer, t := CreateHandler(body, env, Goto(start, rid, Store(body)), rid);
      if answer.Internal? {
        DoneAlone(cfg, t, rid, env);
        return;
      }
      t := RecordTerms(id, body, env, t, rid);
    }

    /** What surrounds the handler: the budget first, the mark after it, and then the answer leaves. */
    method RecordTerms(id: Id, body: NewSecret, env: Environment, ghost s: State, ghost rid: Rid)
      returns (ghost t: State)
      requires Valid() && Holds(s) && rid in s.requests && id in s.book && id != ""
      requires s.book[id].mark == if body.isPrivate && cfg.authEnabled then Pending else Unneeded
      requires s.requests[rid] == if body.views > 1 then PutBudget(id, body) else AfterPut(id, s.book[id].mark)
      modifies views, marks
      ensures Valid() && Holds(t) && t == Alone(cfg, s, rid, env) && t.secrets == s.secrets
      ensures t.views == if body.views > 1 && env(AtPut).commits
                         then s.views[id := Row(V.Budget(body.views, body.ciphertext))] else s.views
      ensures t.marks == if body.isPrivate && cfg.authEnabled && env(AtMark).commits then s.marks + {id} else s.marks
    {
      hide AdvanceStep, Alone, ReplyStep, AfterPut;
      t := CaptureViews(id, body, env, s, rid);
      t := CaptureVisibility(id, body, env, t, rid);
      ReplyAlong(cfg, t, rid, id, env);
      t := ReplyStep(t, rid, id);
    }

    method CreateHandler(body: NewSecret, env: Environment, ghost s: State, ghost rid: Rid)
      returns (answer: Response, ghost t: State)
      requires Valid() && Holds(s)
      requires rid in s.requests && s.requests[rid] == Store(body)
      modifies secrets
      ensures Holds(t) && Alone(cfg, s, rid, env) == Alone(cfg, t, rid, env)
      ensures t.views == s.views && t.marks == s.marks
      ensures var id, at := env(AtStore).newId, env(AtStore).at;
        if !env(AtStore).commits || id == "" || id in s.secrets
        then answer == Internal && t.secrets == s.secrets && rid !in t.requests
        else
          && answer == Created(id) && id in t.book && id != "" && rid in t.requests
          && t.secrets == s.secrets[id := Row(S.Secret(body.ciphertext, at, at + body.ttl, |body.ciphertext|))]
          && t.book[id].mark == (if body.isPrivate && cfg.authEnabled then Pending else Unneeded)
          && t.requests[rid] == if body.views > 1 then PutBudget(id, body) else AfterPut(id, t.book[id].mark)
    {
      hide AdvanceStep, Alone;
      StoreAlong(cfg, s, rid, body, env);
      t := StoreStep(cfg, s, rid, body, env(AtStore));
      var id, at := env(AtStore).newId, env(AtStore).at;
      var created := secrets.Create(id, S.Secret(body.ciphertext, at, at + body.ttl, |body.ciphertext|), env(AtStore).commits);
      if created.Err? { return Internal, t; }
      return Created(id), t;
    }

    /** Losing the budget degrades to one view, never to extra ones. */
    method CaptureViews(id: Id, body: NewSecret, env: Environment, ghost s: State, ghost rid: Rid)
      returns (ghost t: State)
      requires Valid() && Holds(s) && rid in s.requests && id in s.book && id != ""
      requires s.requests[rid] == if body.views > 1 then PutBudget(id, body) else AfterPut(id, s.book[id].mark)
      modifies views
      ensures Valid() && Holds(t) && Alone(cfg, s, rid, env) == Alone(cfg, t, rid, env)
      ensures t.secrets == s.secrets && t.marks == s.marks
      ensures t.views == if body.views > 1 && env(AtPut).commits
                         then s.views[id := Row(V.Budget(body.views, body.ciphertext))] else s.views
      ensures rid in t.requests && id in t.book && t.book[id].mark == s.book[id].mark
      ensures t.requests[rid] == AfterPut(id, t.book[id].mark)
    {
      hide AdvanceStep, Alone;
      t := s;
      if body.views > 1 {
        PutAlong(cfg, s, rid, id, body, env);
        t := PutStep(s, rid, id, body, env(AtPut));
        var _ := views.Put(id, body.views, body.ciphertext, env(AtPut).commits);
      }
    }

    /** Losing the mark leaves the secret public. */
    method CaptureVisibility(id: Id, body: NewSecret, env: Environment, ghost s: State, ghost rid: Rid)
      returns (ghost t: State)
      requires Valid() && Holds(s) && rid in s.requests && id in s.book && id != ""
      requires s.book[id].mark == if body.isPrivate && cfg.authEnabled then Pending else Unneeded
      requires s.requests[rid] == AfterPut(id, s.book[id].mark)
      modifies marks
      ensures Valid() && Holds(t) && Alone(cfg, s, rid, env) == Alone(cfg, t, rid, env)
      ensures t.secrets == s.secrets && t.views == s.views
      ensures t.marks == if body.isPrivate && cfg.authEnabled && env(AtMark).commits then s.marks + {id} else s.marks
      ensures rid in t.requests && t.requests[rid] == Reply(id) && id in t.book
    {
      hide AdvanceStep, Alone;
      t := s;
      if cfg.authEnabled && body.isPrivate {
        MarkAlong(cfg, s, rid, id, env);
        t := MarkStep(s, rid, id, env(AtMark));
        var _ := marks.SetPrivate(id, env(AtMark).commits);
      }
    }
  }

  /** What a create has left in the buckets, by which of its three transactions committed. */
  ghost predicate Written(cfg: Config, answer: Response, body: NewSecret, env: Environment, s: State, t: State) {
    var id, at := env(AtStore).newId, env(AtStore).at;
    if !env(AtStore).commits || id == "" || id in s.secrets
    then answer == Internal && t.secrets == s.secrets && t.views == s.views && t.marks == s.marks
    else
      && answer == Created(id)
      && t.secrets == s.secrets[id := Row(S.Secret(body.ciphertext, at, at + body.ttl, |body.ciphertext|))]
      && t.views == (if body.views > 1 && env(AtPut).commits
                     then s.views[id := Row(V.Budget(body.views, body.ciphertext))] else s.views)
      && t.marks == if body.isPrivate && cfg.authEnabled && env(AtMark).commits then s.marks + {id} else s.marks
  }

  /** The drafts that create lets pass. */
  predicate Acceptable(draft: Draft, cfg: Config, limits: Limits, parse: string -> Option<int>)
    requires 0 < limits.defaultTtl <= limits.maxTtl
  {
    && 0 <= draft.views <= MaxViews(cfg)
    && TrimSpace(draft.ciphertext) != ""
    && |draft.ciphertext| <= limits.maxSize * 2 + 1024
    && ResolveTtl(draft.ttl, limits, parse).Ok?
  }

  function Accepted(draft: Draft, limits: Limits, parse: string -> Option<int>): NewSecret
    requires 0 < limits.defaultTtl <= limits.maxTtl && ResolveTtl(draft.ttl, limits, parse).Ok?
  {
    NewSecret(draft.ciphertext, ResolveTtl(draft.ttl, limits, parse).value, draft.views, draft.isPrivate)
  }

  /** Every transaction commits, and the session is good. */
  ghost predicate Undisturbed(env: Environment) {
    env(AtSession).session.Verified? && forall stage: Stage :: env(stage).commits
  }

  /** How the book shows what was answered: a view handed out, or a miss, or neither. */
  ghost predicate Answers(answer: Response, s: State, t: State, rid: Rid, id: Id, caller: Caller) {
    id in s.book ==>
      && id in t.book
      && t.book[id].log == s.book[id].log + Handed(answer, rid, caller)
      && t.book[id].misses == s.book[id].misses + if answer.NotFound? then 1 else 0
  }

  function Handed(answer: Response, rid: Rid, caller: Caller): seq<Delivery> {
    if answer.Shown? then [Delivery(rid, answer.ciphertext, answer.remaining, caller)] else []
  }

  /** What meta knows from the secret alone: missing, burned and expired read the same. */
  function MetaOf(secrets: S.Rows, id: Id, now: Time): Response {
    if id !in secrets then Metadata(false, 0, None)
    else match secrets[id]
      case Undecodable => Internal
      case Row(secret) => if IsExpired(secret.expiresAt, now) then Metadata(false, 0, None) else Metadata(true, secret.size, None)
  }

  /** What meta has to say of the secret, by the size it saw. */
  function Seen(seen: Option<int>): Response {
    if seen.Some? then Metadata(true, seen.value, None) else Metadata(false, 0, None)
  }

  function WithViews(answer: Response, views: V.Rows, id: Id): Response {
    if answer.Metadata? && V.BudgetLeft(views, id).Some? then answer.(left := V.BudgetLeft(views, id)) else answer
  }

  /** What a budget alone can answer. */
  function FromBudget(views: V.Rows, id: Id): Option<Response> {
    if id in views && views[id].Row? && views[id].value.remaining > 1
    then Some(Shown(views[id].value.ciphertext, views[id].value.remaining - 1)) else None
  }

  /** What a secret answers for its last view. */
  function FromSecret(secrets: S.Rows, id: Id, now: Time): Response {
    if id !in secrets then NotFound
    else match secrets[id]
      case Undecodable => Internal
      case Row(secret) => if IsExpired(secret.expiresAt, now) then NotFound else Shown(secret.ciphertext, 0)
  }

  /** What a reveal answers by the two rows: a view that is not the last, or the secret while it lives, to its last instant. */
  predicate Reveals(answer: Response, secrets: S.Rows, views: V.Rows, id: Id, now: Time) {
    if id in views && views[id].Row? && views[id].value.remaining > 1
    then answer == Shown(views[id].value.ciphertext, views[id].value.remaining - 1)
    else if id !in secrets then answer == NotFound
    else if secrets[id].Undecodable? then answer == Internal
    else if secrets[id].value.expiresAt == ZERO_TIME || now <= secrets[id].value.expiresAt
    then answer == Shown(secrets[id].value.ciphertext, 0)
    else answer == NotFound
  }

  lemma RevealsIs(secrets: S.Rows, views: V.Rows, id: Id, now: Time)
    ensures Reveals(if FromBudget(views, id).Some? then FromBudget(views, id).value else FromSecret(secrets, id, now), secrets, views, id, now)
  {
  }

  /** What meta answers by them: size and existence while the secret lives, and the views left wherever a budget decodes. */
  predicate Tells(answer: Response, secrets: S.Rows, views: V.Rows, id: Id, now: Time) {
    var left := if id in views && views[id].Row? then Some(views[id].value.remaining) else None;
    if id !in secrets then answer == Metadata(false, 0, left)
    else if secrets[id].Undecodable? then answer == Internal
    else if secrets[id].value.expiresAt == ZERO_TIME || now <= secrets[id].value.expiresAt
    then answer == Metadata(true, secrets[id].value.size, left)
    else answer == Metadata(false, 0, left)
  }

  lemma TellsIs(secrets: S.Rows, views: V.Rows, id: Id, now: Time)
    requires id != ""
    ensures Tells(WithViews(MetaOf(secrets, id, now), views, id), secrets, views, id, now)
  {
  }

  /** To a reveal that nobody interrupts a secret past its expiry, or purged, is shown from its budget alone. */
  lemma LateViews(secrets: S.Rows, views: V.Rows, id: Id, now: Time)
    requires id in secrets ==> secrets[id].Row? && IsExpired(secrets[id].value.expiresAt, now)
    ensures (if FromBudget(views, id).Some? then FromBudget(views, id).value else FromSecret(secrets, id, now)).Shown?
      <==> id in views && views[id].Row? && views[id].value.remaining > 1
  {
  }
}
