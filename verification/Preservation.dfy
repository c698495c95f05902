/**
 Every step keeps the invariant. First the steps on one slot, where the reasons lie;
 then the same steps on the whole state.
 */
module Preservation {
  import opened Records
  import opened Protocol
  import opened Invariant
  import S = SecretStore
  import V = ViewsStore
  import F = FileStore

  // ---- One slot at a time ----

  function NewBook(cfg: Config, rid: Rid, body: NewSecret, at: Time): Book {
    Book(rid, body.ciphertext, if body.views > 1 then body.views else 1, at + body.ttl,
         if body.views > 1 then Pending else Unneeded, if body.isPrivate && cfg.authEnabled then Pending else Unneeded,
         false, {}, [], 0, false)
  }

  lemma CreateSlot(cfg: Config, t: Slot, rid: Rid, body: NewSecret, at: Time, now: Time, nextRid: Rid)
    requires SlotInv(cfg, t, now, nextRid) && !Issued(t) && t.id != "" && 0 < at
    ensures var b := NewBook(cfg, rid, body, at);
      var t' := t.(secret := Some(Row(S.Secret(body.ciphertext, at, at + body.ttl, |body.ciphertext|))), book := Some(b));
      && SlotInv(cfg, t', now, nextRid) && Evolves(t, t', rid)
      && LocalInv(cfg, rid, if b.budget.Pending? then PutBudget(t.id, body) else AfterPut(t.id, b.mark), t', now)
  {
  }

  lemma PutSlot(cfg: Config, t: Slot, rid: Rid, id: Id, body: NewSecret, now: Time, nextRid: Rid)
    requires SlotInv(cfg, t, now, nextRid) && LocalInv(cfg, rid, PutBudget(id, body), t, now)
    ensures t.book.Some? && body.views > 1 && id != ""
    ensures var b := t.book.value;
      var done := t.(budget := Some(Row(V.Budget(body.views, body.ciphertext))), book := Some(b.(budget := Recorded)));
      var lost := t.(book := Some(b.(budget := Lost)));
      && SlotInv(cfg, done, now, nextRid) && Evolves(t, done, rid) && LocalInv(cfg, rid, AfterPut(id, b.mark), done, now)
      && SlotInv(cfg, lost, now, nextRid) && Evolves(t, lost, rid) && LocalInv(cfg, rid, AfterPut(id, b.mark), lost, now)
  {
  }

  lemma MarkSlot(cfg: Config, t: Slot, rid: Rid, id: Id, now: Time, nextRid: Rid)
    requires SlotInv(cfg, t, now, nextRid) && LocalInv(cfg, rid, Mark(id), t, now)
    ensures t.book.Some?
    ensures var b := t.book.value;
      var done := t.(marked := true, book := Some(b.(mark := Recorded)));
      var lost := t.(book := Some(b.(mark := Lost)));
      && SlotInv(cfg, done, now, nextRid) && Evolves(t, done, rid) && LocalInv(cfg, rid, Reply(id), done, now)
      && SlotInv(cfg, lost, now, nextRid) && Evolves(t, lost, rid) && LocalInv(cfg, rid, Reply(id), lost, now)
  {
  }

  lemma ReplySlot(cfg: Config, t: Slot, rid: Rid, id: Id, now: Time, nextRid: Rid)
    requires SlotInv(cfg, t, now, nextRid) && LocalInv(cfg, rid, Reply(id), t, now)
    ensures t.book.Some?
    ensures var t' := t.(book := Some(t.book.value.(published := true)));
      SlotInv(cfg, t', now, nextRid) && Evolves(t, t', rid)
  {
  }

  function Started(t: Slot, rid: Rid): Slot {
    if t.book.Some? && t.book.value.published then t.(book := Some(t.book.value.(starts := t.book.value.starts + {rid})))
    else t.(early := true)
  }

  lemma StartSlot(cfg: Config, t: Slot, rid: Rid, id: Id, now: Time)
    requires SlotInv(cfg, t, now, rid)
    ensures var t' := Started(t, rid);
      SlotInv(cfg, t', now, rid + 1) && Evolves(t, t', rid) && LocalInv(cfg, rid, Gate(RevealRoute, id), t', now)
  {
    StartedInv(cfg, t, rid, now);
    hide SlotInv;
  }

  lemma StartedInv(cfg: Config, t: Slot, rid: Rid, now: Time)
    requires SlotInv(cfg, t, now, rid)
    ensures SlotInv(cfg, Started(t, rid), now, rid + 1)
    ensures t.book.Some? && !t.early ==> Unheard(t.book.value, rid)
  {
    if t.book.Some? && t.book.value.published {
      StartedKnown(cfg, t, t.book.value, rid, now);
    } else {
      hide Bounded, Faithful, MarkKept, AbsenceExplained, InOrder, Exact, Private;
    }
  }

  /** No reveal under this number has come, or been served. */
  ghost predicate Unheard(b: Book, rid: Rid) {
    rid !in b.starts && forall k :: 0 <= k < |b.log| ==> b.log[k].rid != rid
  }

  lemma StartedKnown(cfg: Config, t: Slot, b: Book, rid: Rid, now: Time)
    requires SlotInv(cfg, t, now, rid) && t.book == Some(b)
    ensures SlotInv(cfg, t.(book := Some(b.(starts := b.starts + {rid}))), now, rid + 1)
    ensures !t.early ==> Unheard(b, rid)
  {
  }

  /** Whoever passes the gate while the secret is there passes it rightly. */
  lemma GateSlot(cfg: Config, t: Slot, rid: Rid, route: Route, id: Id, now: Time, nextRid: Rid)
    requires SlotInv(cfg, t, now, nextRid) && LocalInv(cfg, rid, Gate(route, id), t, now)
    ensures !cfg.authEnabled || !t.marked ==>
      LocalInv(cfg, rid, Entry(route, id, Caller(false, t.secret.Some?)), t, now)
    ensures LocalInv(cfg, rid, Session(route, id, t.secret.Some?), t, now)
  {
  }

  lemma SessionSlot(cfg: Config, t: Slot, rid: Rid, route: Route, id: Id, present: bool, now: Time)
    requires LocalInv(cfg, rid, Session(route, id, present), t, now)
    ensures LocalInv(cfg, rid, Entry(route, id, Caller(true, present)), t, now)
  {
  }

  function ServedSlot(t: Slot, b: V.Budget, d: Delivery): Slot
    requires t.book.Some?
  {
    t.(budget := Some(Row(V.Budget(b.remaining - 1, b.ciphertext))),
       book := Some(t.book.value.(log := t.book.value.log + [d])))
  }

  /** A view that is not the last one: the potential falls by one, the log grows by one. */
  lemma ServeSlot(cfg: Config, t: Slot, rid: Rid, id: Id, caller: Caller, now: Time, nextRid: Rid)
    requires SlotInv(cfg, t, now, nextRid) && LocalInv(cfg, rid, Consume(id, caller), t, now)
    requires t.budget.Some? && t.budget.value.Row? && t.budget.value.value.remaining > 1
    ensures t.book.Some?
    ensures var b := t.budget.value.value;
      var t' := ServedSlot(t, b, Delivery(rid, b.ciphertext, b.remaining - 1, caller));
      SlotInv(cfg, t', now, nextRid) && Evolves(t, t', rid)
  {
    ServedInv(cfg, t, rid, id, caller, now, nextRid);
    ServedEvolves(cfg, t, rid, id, caller, now, nextRid);
    hide SlotInv, Evolves;
  }

  lemma ServedInv(cfg: Config, t: Slot, rid: Rid, id: Id, caller: Caller, now: Time, nextRid: Rid)
    requires SlotInv(cfg, t, now, nextRid) && LocalInv(cfg, rid, Consume(id, caller), t, now)
    requires t.budget.Some? && t.budget.value.Row? && t.budget.value.value.remaining > 1
    ensures t.book.Some?
    ensures var b := t.budget.value.value;
      SlotInv(cfg, ServedSlot(t, b, Delivery(rid, b.ciphertext, b.remaining - 1, caller)), now, nextRid)
  {
    var b := t.book.value;
    if Burnt(b.log) {
      BurntGrows(b.log, Delivery(rid, t.budget.value.value.ciphertext, t.budget.value.value.remaining - 1, caller));
    }
  }

  lemma ServedEvolves(cfg: Config, t: Slot, rid: Rid, id: Id, caller: Caller, now: Time, nextRid: Rid)
    requires SlotInv(cfg, t, now, nextRid) && LocalInv(cfg, rid, Consume(id, caller), t, now)
    requires t.budget.Some? && t.budget.value.Row? && t.budget.value.value.remaining > 1
    ensures t.book.Some?
    ensures var b := t.budget.value.value;
      Evolves(t, ServedSlot(t, b, Delivery(rid, b.ciphertext, b.remaining - 1, caller)), rid)
  {
    hide Private, OnePerRequest, InOrder, Exact, Faithful, AbsenceExplained;
  }

  lemma FallThroughSlot(cfg: Config, t: Slot, rid: Rid, id: Id, caller: Caller, now: Time)
    requires LocalInv(cfg, rid, Consume(id, caller), t, now) && t.budget.None?
    ensures LocalInv(cfg, rid, Peek(id, caller), t, now)
  {
  }

  lemma LastViewSlot(cfg: Config, t: Slot, rid: Rid, id: Id, caller: Caller, now: Time, nextRid: Rid)
    requires SlotInv(cfg, t, now, nextRid) && LocalInv(cfg, rid, Consume(id, caller), t, now)
    requires t.budget.Some? && (t.budget.value.Row? ==> t.budget.value.value.remaining <= 1)
    ensures var t' := t.(budget := None);
      SlotInv(cfg, t', now, nextRid) && Evolves(t, t', rid) && LocalInv(cfg, rid, Peek(id, caller), t', now)
  {
  }

  lemma PeekSlot(cfg: Config, t: Slot, rid: Rid, id: Id, caller: Caller, now: Time, nextRid: Rid)
    requires SlotInv(cfg, t, now, nextRid) && LocalInv(cfg, rid, Peek(id, caller), t, now)
    ensures LocalInv(cfg, rid, Burn(id, caller), t, now)
    ensures t.secret.Some? && t.secret.value.Row? ==>
      LocalInv(cfg, rid, Check(id, caller, t.secret.value.value.expiresAt), t, now)
  {
  }

  lemma ImpairSlot(cfg: Config, t: Slot, mover: Rid, now: Time, nextRid: Rid)
    requires SlotInv(cfg, t, now, nextRid) && t.book.Some?
    ensures var t' := t.(book := Some(t.book.value.(impaired := true)));
      SlotInv(cfg, t', now, nextRid) && Evolves(t, t', mover)
  {
  }

  lemma CheckSlot(cfg: Config, t: Slot, rid: Rid, id: Id, caller: Caller, expiresAt: Time, now: Time)
    requires LocalInv(cfg, rid, Check(id, caller, expiresAt), t, now)
    ensures t.book.Some? && LocalInv(cfg, rid, Burn(id, caller), t, now)
    ensures IsExpired(expiresAt, now) ==>
      LocalInv(cfg, rid, Reap(id), t.(book := Some(t.book.value.(impaired := true))), now)
  {
  }

  function BurntSlot(t: Slot, d: Delivery): Slot
    requires t.book.Some?
  {
    t.(secret := None, book := Some(t.book.value.(log := t.book.value.log + [d])))
  }

  /** The burn: the one step that takes the secret itself. */
  lemma BurnSlot(cfg: Config, t: Slot, rid: Rid, id: Id, caller: Caller, now: Time, nextRid: Rid)
    requires SlotInv(cfg, t, now, nextRid) && LocalInv(cfg, rid, Burn(id, caller), t, now)
    requires t.secret.Some? && t.secret.value.Row?
    ensures t.book.Some?
    ensures var t' := BurntSlot(t, Delivery(rid, t.secret.value.value.ciphertext, 0, caller));
      SlotInv(cfg, t', now, nextRid) && Evolves(t, t', rid) && LocalInv(cfg, rid, DropMark(id), t', now)
  {
    BurntGrows(t.book.value.log, Delivery(rid, t.secret.value.value.ciphertext, 0, caller));
  }

  function MissedSlot(t: Slot): Slot
    requires t.book.Some?
  {
    t.(book := Some(t.book.value.(misses := t.book.value.misses + 1)))
  }

  lemma MissSlot(cfg: Config, t: Slot, rid: Rid, r: Request, now: Time, nextRid: Rid)
    requires SlotInv(cfg, t, now, nextRid) && t.book.Some? && LocalInv(cfg, rid, r, t, now)
    requires r.Reap? || (r.Burn? && t.secret.None?)
    ensures SlotInv(cfg, MissedSlot(t), now, nextRid) && Evolves(t, MissedSlot(t), rid)
  {
  }

  /** Deleting the secret of an expired, impaired id, with or without a 404 to answer for it. */
  lemma ReapSlot(cfg: Config, t: Slot, rid: Rid, r: Request, now: Time, nextRid: Rid)
    requires SlotInv(cfg, t, now, nextRid) && LocalInv(cfg, rid, r, t, now) && (r.Reap? || r.MetaReap?)
    ensures t.book.Some?
    ensures var t' := t.(secret := None);
      && SlotInv(cfg, t', now, nextRid) && Evolves(t, t', rid)
      && SlotInv(cfg, MissedSlot(t'), now, nextRid) && Evolves(t, MissedSlot(t'), rid)
  {
  }

  /** Dropping an orphan's rows hurts nobody. */
  lemma DropSlot(cfg: Config, t: Slot, mover: Rid, now: Time, nextRid: Rid)
    requires SlotInv(cfg, t, now, nextRid) && Orphan(t)
    ensures SlotInv(cfg, t.(budget := None), now, nextRid) && Evolves(t, t.(budget := None), mover)
    ensures SlotInv(cfg, t.(marked := false), now, nextRid) && Evolves(t, t.(marked := false), mover)
  {
  }

  lemma MetaSlot(cfg: Config, t: Slot, rid: Rid, id: Id, now: Time, nextRid: Rid)
    requires SlotInv(cfg, t, now, nextRid)
    ensures t.secret.Some? && t.secret.value.Row? ==> LocalInv(cfg, rid, MetaCheck(id, t.secret.value.value.expiresAt, t.secret.value.value.size), t, now)
  {
  }

  lemma MetaCheckSlot(cfg: Config, t: Slot, rid: Rid, id: Id, expiresAt: Time, size: int, now: Time)
    requires LocalInv(cfg, rid, MetaCheck(id, expiresAt, size), t, now)
    ensures t.book.Some?
    ensures IsExpired(expiresAt, now) ==> LocalInv(cfg, rid, MetaReap(id), t.(book := Some(t.book.value.(impaired := true))), now)
  {
  }

  lemma FileSlot(cfg: Config, t: Slot, mover: Rid, id: Id, now: Time, nextRid: Rid)
    requires SlotInv(cfg, t, now, nextRid)
    ensures !Issued(t) ==>
      var t' := t.(file := true, isFile := true);
      SlotInv(cfg, t', now, nextRid) && Evolves(t, t', mover) && LocalInv(cfg, mover, FileMark(id), t', now)
    ensures t.isFile ==> SlotInv(cfg, t.(marked := true), now, nextRid) && Evolves(t, t.(marked := true), mover)
    ensures var t' := t.(file := false);
      SlotInv(cfg, t', now, nextRid) && Evolves(t, t', mover) && (t.file ==> LocalInv(cfg, mover, DropMark(id), t', now))
  {
  }

  lemma SpoilBudgetSlot(cfg: Config, t: Slot, mover: Rid, now: Time, nextRid: Rid)
    requires SlotInv(cfg, t, now, nextRid) && t.budget.Some?
    ensures t.book.Some?
    ensures var t' := t.(budget := Some(Undecodable), book := Some(t.book.value.(impaired := true)));
      SlotInv(cfg, t', now, nextRid) && Evolves(t, t', mover)
  {
  }

  lemma SpoilSecretSlot(cfg: Config, t: Slot, mover: Rid, now: Time, nextRid: Rid)
    requires SlotInv(cfg, t, now, nextRid) && t.secret.Some?
    ensures t.book.Some?
    ensures var t' := t.(secret := Some(Undecodable), book := Some(t.book.value.(impaired := true)));
      SlotInv(cfg, t', now, nextRid) && Evolves(t, t', mover)
  {
  }

  lemma SweepSlot(cfg: Config, t: Slot, at: Time, now: Time, nextRid: Rid)
    requires SlotInv(cfg, t, now, nextRid) && at <= now
    requires t.secret.Some? && S.Outlived(t.secret.value, at)
    ensures t.book.Some?
    ensures var t' := t.(secret := None, book := Some(t.book.value.(impaired := true)));
      SlotInv(cfg, t', now, nextRid) && Evolves(t, t', nextRid)
  {
  }

  lemma CrashSlot(cfg: Config, t: Slot, now: Time, nextRid: Rid)
    requires SlotInv(cfg, t, now, nextRid) && t.book.Some?
    ensures var b := t.book.value;
      var t' := t.(book := Some(b.(budget := Settled(b.budget), mark := Settled(b.mark))));
      SlotInv(cfg, t', now, nextRid) && Grows(t, t')
  {
  }

  // ---- Creating ----

  lemma CreateKeeps(cfg: Config, s: State, rid: Rid, body: NewSecret, c: Choice)
    requires Inv(cfg, s) && Fresh(s, c.newId) && 0 < c.at && rid in s.requests && s.requests[rid] == Store(body)
    ensures Keeps(cfg, s, StoreStep(cfg, s, rid, body, c))
  {
    hide Inv, Keeps, SlotInv, Evolves, LocalInv;
    var id, b := c.newId, NewBook(cfg, rid, body, c.at);
    var secret := S.Secret(body.ciphertext, c.at, c.at + body.ttl, |body.ciphertext|);
    if !c.commits || S.Created(s.secrets, id, secret).Err? {
      MoveQuietly(cfg, s, rid, None);
    } else {
      SlotFact(cfg, s, id);
      CreateSlot(cfg, SlotOf(s, id), rid, body, c.at, s.now, s.nextRid);
      Move(cfg, s, Note(s.(secrets := s.secrets[id := Row(secret)]), id, b), rid, id,
           SlotOf(s, id).(secret := Some(Row(secret)), book := Some(b)),
           Some(if b.budget.Pending? then PutBudget(id, body) else AfterPut(id, b.mark)));
    }
  }

  lemma PutKeeps(cfg: Config, s: State, rid: Rid, id: Id, body: NewSecret, c: Choice)
    requires Inv(cfg, s) && rid in s.requests && s.requests[rid] == PutBudget(id, body) && id in s.book
    ensures Keeps(cfg, s, PutStep(s, rid, id, body, c))
  {
    hide Inv, Keeps, SlotInv, Evolves, LocalInv;
    var t, b := SlotOf(s, id), s.book[id];
    SlotFact(cfg, s, id);
    RequestFact(cfg, s, rid);
    PutSlot(cfg, t, rid, id, body, s.now, s.nextRid);
    var row := Row(V.Budget(body.views, body.ciphertext));
    if c.commits {
      Move(cfg, s, Note(s.(views := s.views[id := row]), id, b.(budget := Recorded)), rid, id,
           t.(budget := Some(row), book := Some(b.(budget := Recorded))), Some(AfterPut(id, b.mark)));
    } else {
      Move(cfg, s, Note(s, id, b.(budget := Lost)), rid, id, t.(book := Some(b.(budget := Lost))), Some(AfterPut(id, b.mark)));
    }
  }

  lemma MarkKeeps(cfg: Config, s: State, rid: Rid, id: Id, c: Choice)
    requires Inv(cfg, s) && rid in s.requests && s.requests[rid] == Mark(id) && id in s.book
    ensures Keeps(cfg, s, MarkStep(s, rid, id, c))
  {
    hide Inv, Keeps, SlotInv, Evolves, LocalInv;
    var t, b := SlotOf(s, id), s.book[id];
    SlotFact(cfg, s, id);
    RequestFact(cfg, s, rid);
    MarkSlot(cfg, t, rid, id, s.now, s.nextRid);
    if c.commits {
      Move(cfg, s, Note(s.(marks := s.marks + {id}), id, b.(mark := Recorded)), rid, id,
           t.(marked := true, book := Some(b.(mark := Recorded))), Some(Reply(id)));
    } else {
      Move(cfg, s, Note(s, id, b.(mark := Lost)), rid, id, t.(book := Some(b.(mark := Lost))), Some(Reply(id)));
    }
  }

  lemma ReplyKeeps(cfg: Config, s: State, rid: Rid, id: Id)
    requires Inv(cfg, s) && rid in s.requests && s.requests[rid] == Reply(id) && id in s.book
    ensures Keeps(cfg, s, ReplyStep(s, rid, id))
  {
    hide Inv, Keeps, SlotInv, Evolves, LocalInv;
    var t, b := SlotOf(s, id), s.book[id].(published := true);
    SlotFact(cfg, s, id);
    RequestFact(cfg, s, rid);
    ReplySlot(cfg, t, rid, id, s.now, s.nextRid);
    Move(cfg, s, Note(s, id, b), rid, id, t.(book := Some(b)), None);
  }

  // ---- Revealing ----

  lemma StartRevealKeeps(cfg: Config, s: State, id: Id)
    requires Inv(cfg, s)
    ensures Keeps(cfg, s, StartStep(s, RevealRoute, id))
  {
    hide Inv, Keeps, SlotInv, Evolves, LocalInv;
    SlotFact(cfg, s, id);
    StartSlot(cfg, SlotOf(s, id), s.nextRid, id, s.now);
    var t := Started(SlotOf(s, id), s.nextRid);
    if Known(s, id) {
      Arrive(cfg, s, Note(s, id, s.book[id].(starts := s.book[id].starts + {s.nextRid})), id, t, Gate(RevealRoute, id));
    } else {
      Arrive(cfg, s, s.(early := s.early + {id}), id, t, Gate(RevealRoute, id));
    }
  }

  lemma GateKeeps(cfg: Config, s: State, rid: Rid, route: Route, id: Id, c: Choice)
    requires Inv(cfg, s) && rid in s.requests && s.requests[rid] == Gate(route, id)
    ensures Keeps(cfg, s, GateStep(cfg, s, rid, route, id, c))
  {
    hide Inv, Keeps, SlotInv, LocalInv;
    SlotFact(cfg, s, id);
    RequestFact(cfg, s, rid);
    GateSlot(cfg, SlotOf(s, id), rid, route, id, s.now, s.nextRid);
    var present := id in s.secrets;
    if !cfg.authEnabled || (!cfg.gateAll && c.commits && id !in s.marks) {
      MoveQuietly(cfg, s, rid, Some(Entry(route, id, Caller(false, present))));
    } else if cfg.gateAll || c.commits {
      MoveQuietly(cfg, s, rid, Some(Session(route, id, present)));
    } else {
      MoveQuietly(cfg, s, rid, None);
    }
  }

  lemma SessionKeeps(cfg: Config, s: State, rid: Rid, route: Route, id: Id, present: bool, c: Choice)
    requires Inv(cfg, s) && rid in s.requests && s.requests[rid] == Session(route, id, present)
    ensures Keeps(cfg, s, SessionStep(s, rid, route, id, present, c))
  {
    hide Inv, Keeps, LocalInv;
    RequestFact(cfg, s, rid);
    SessionSlot(cfg, SlotOf(s, id), rid, route, id, present, s.now);
    MoveQuietly(cfg, s, rid, if c.session.Verified? then Some(Entry(route, id, Caller(true, present))) else None);
  }

  lemma ConsumeKeeps(cfg: Config, s: State, rid: Rid, id: Id, caller: Caller, c: Choice)
    requires Inv(cfg, s) && rid in s.requests && s.requests[rid] == Consume(id, caller)
    ensures Keeps(cfg, s, ConsumeStep(s, rid, id, caller, c))
  {
    hide Inv, Keeps, SlotInv, Evolves, LocalInv;
    var t := SlotOf(s, id);
    SlotFact(cfg, s, id);
    RequestFact(cfg, s, rid);
    NamedIfIssued(cfg, t, s.now, s.nextRid);
    if !c.commits {
      MoveQuietly(cfg, s, rid, None);
    } else if id !in s.views {
      FallThroughSlot(cfg, t, rid, id, caller, s.now);
      MoveQuietly(cfg, s, rid, Some(Peek(id, caller)));
    } else if s.views[id].Row? && s.views[id].value.remaining > 1 {
      ServeSlot(cfg, t, rid, id, caller, s.now, s.nextRid);
      var b := s.views[id].value;
      var d := Delivery(rid, b.ciphertext, b.remaining - 1, caller);
      Move(cfg, s, Deliver(s.(views := s.views[id := Row(V.Budget(b.remaining - 1, b.ciphertext))]), id, d),
           rid, id, ServedSlot(t, b, d), None);
    } else {
      LastViewSlot(cfg, t, rid, id, caller, s.now, s.nextRid);
      Move(cfg, s, s.(views := s.views - {id}), rid, id, t.(budget := None), Some(Peek(id, caller)));
    }
  }

  lemma NamedIfIssued(cfg: Config, t: Slot, now: Time, nextRid: Rid)
    requires SlotInv(cfg, t, now, nextRid)
    ensures t.budget.Some? || t.secret.Some? ==> t.book.Some? && t.id != ""
  {
  }

  lemma PeekKeeps(cfg: Config, s: State, rid: Rid, id: Id, caller: Caller, c: Choice)
    requires Inv(cfg, s) && rid in s.requests && s.requests[rid] == Peek(id, caller)
    ensures Keeps(cfg, s, PeekStep(s, rid, id, caller, c))
  {
    hide Inv, Keeps, SlotInv, LocalInv;
    SlotFact(cfg, s, id);
    RequestFact(cfg, s, rid);
    PeekSlot(cfg, SlotOf(s, id), rid, id, caller, s.now, s.nextRid);
    var r := S.MetaOf(s.secrets, id);
    MoveQuietly(cfg, s, rid,
      if !c.commits || r.Err? then None
      else if r.value.Some? then Some(Check(id, caller, r.value.value.expiresAt)) else Some(Burn(id, caller)));
  }

  lemma CheckKeeps(cfg: Config, s: State, rid: Rid, id: Id, caller: Caller, expiresAt: Time)
    requires Inv(cfg, s) && rid in s.requests && s.requests[rid] == Check(id, caller, expiresAt)
    ensures Keeps(cfg, s, CheckStep(s, rid, id, caller, expiresAt))
  {
    hide Inv, Keeps, SlotInv, Evolves, LocalInv;
    var t := SlotOf(s, id);
    SlotFact(cfg, s, id);
    RequestFact(cfg, s, rid);
    CheckSlot(cfg, t, rid, id, caller, expiresAt, s.now);
    if IsExpired(expiresAt, s.now) {
      ImpairSlot(cfg, t, rid, s.now, s.nextRid);
      Move(cfg, s, Impair(s, id), rid, id, t.(book := Some(s.book[id].(impaired := true))), Some(Reap(id)));
    } else {
      MoveQuietly(cfg, s, rid, Some(Burn(id, caller)));
    }
  }

  lemma ReapKeeps(cfg: Config, s: State, rid: Rid, id: Id, c: Choice)
    requires Inv(cfg, s) && rid in s.requests && s.requests[rid] == Reap(id)
    ensures Keeps(cfg, s, Finish(Miss(Reaped(s, id, c), id), rid))
  {
    hide Inv, Keeps, SlotInv, Evolves, LocalInv;
    var t := SlotOf(s, id);
    SlotFact(cfg, s, id);
    RequestFact(cfg, s, rid);
    ReapSlot(cfg, t, rid, Reap(id), s.now, s.nextRid);
    MissSlot(cfg, t, rid, Reap(id), s.now, s.nextRid);
    var t' := if c.commits then t.(secret := None) else t;
    Move(cfg, s, Miss(Reaped(s, id, c), id), rid, id, MissedSlot(t'), None);
  }

  lemma BurnHitKeeps(cfg: Config, s: State, rid: Rid, id: Id, caller: Caller)
    requires Inv(cfg, s) && rid in s.requests && s.requests[rid] == Burn(id, caller)
    requires id in s.secrets && s.secrets[id].Row?
    ensures var d := Delivery(rid, s.secrets[id].value.ciphertext, 0, caller);
      Keeps(cfg, s, Goto(Deliver(s.(secrets := s.secrets - {id}), id, d), rid, DropMark(id)))
  {
    hide Inv, Keeps, SlotInv, Evolves, LocalInv;
    var t := SlotOf(s, id);
    SlotFact(cfg, s, id);
    RequestFact(cfg, s, rid);
    BurnSlot(cfg, t, rid, id, caller, s.now, s.nextRid);
    var d := Delivery(rid, s.secrets[id].value.ciphertext, 0, caller);
    Move(cfg, s, Deliver(s.(secrets := s.secrets - {id}), id, d), rid, id, BurntSlot(t, d), Some(DropMark(id)));
  }

  lemma BurnMissKeeps(cfg: Config, s: State, rid: Rid, id: Id, caller: Caller)
    requires Inv(cfg, s) && rid in s.requests && s.requests[rid] == Burn(id, caller)
    requires id !in s.secrets && id in s.book
    ensures Keeps(cfg, s, Finish(Miss(s, id), rid))
  {
    hide Inv, Keeps, SlotInv, Evolves, LocalInv;
    SlotFact(cfg, s, id);
    RequestFact(cfg, s, rid);
    MissSlot(cfg, SlotOf(s, id), rid, Burn(id, caller), s.now, s.nextRid);
    Move(cfg, s, Miss(s, id), rid, id, MissedSlot(SlotOf(s, id)), None);
  }

  lemma BurnKeeps(cfg: Config, s: State, rid: Rid, id: Id, caller: Caller, c: Choice)
    requires Inv(cfg, s) && rid in s.requests && s.requests[rid] == Burn(id, caller)
    ensures Keeps(cfg, s, BurnStep(s, rid, id, caller, c))
  {
    hide Inv, Keeps;
    if !c.commits || (id in s.secrets && s.secrets[id].Undecodable?) || (id !in s.secrets && id !in s.book) {
      MoveQuietly(cfg, s, rid, None);
    } else if id in s.secrets {
      BurnHitKeeps(cfg, s, rid, id, caller);
    } else {
      BurnMissKeeps(cfg, s, rid, id, caller);
    }
  }

  lemma DropMarkKeeps(cfg: Config, s: State, rid: Rid, id: Id, c: Choice)
    requires Inv(cfg, s) && rid in s.requests && s.requests[rid] == DropMark(id)
    ensures Keeps(cfg, s, DropMarkStep(s, rid, id, c))
  {
    hide Inv, Keeps, SlotInv, Evolves;
    SlotFact(cfg, s, id);
    RequestFact(cfg, s, rid);
    if c.commits {
      DropSlot(cfg, SlotOf(s, id), rid, s.now, s.nextRid);
      Move(cfg, s, s.(marks := s.marks - {id}), rid, id, SlotOf(s, id).(marked := false), None);
    } else {
      MoveQuietly(cfg, s, rid, None);
    }
  }

  // ---- Meta ----

  lemma MetaReadKeeps(cfg: Config, s: State, rid: Rid, id: Id, c: Choice)
    requires Inv(cfg, s) && rid in s.requests && s.requests[rid] == MetaRead(id)
    ensures Keeps(cfg, s, MetaReadStep(s, rid, id, c))
  {
    hide Inv, Keeps, SlotInv;
    SlotFact(cfg, s, id);
    MetaSlot(cfg, SlotOf(s, id), rid, id, s.now, s.nextRid);
    var r := S.MetaOf(s.secrets, id);
    MoveQuietly(cfg, s, rid,
      if !c.commits || r.Err? then None
      else match r.value case None => Some(MetaViews(id, None)) case Some(x) => Some(MetaCheck(id, x.expiresAt, x.size)));
  }

  lemma MetaCheckKeeps(cfg: Config, s: State, rid: Rid, id: Id, expiresAt: Time, size: int)
    requires Inv(cfg, s) && rid in s.requests && s.requests[rid] == MetaCheck(id, expiresAt, size)
    ensures Keeps(cfg, s, MetaCheckStep(s, rid, id, expiresAt, size))
  {
    hide Inv, Keeps, SlotInv, Evolves;
    var t := SlotOf(s, id);
    SlotFact(cfg, s, id);
    RequestFact(cfg, s, rid);
    MetaCheckSlot(cfg, t, rid, id, expiresAt, size, s.now);
    if IsExpired(expiresAt, s.now) {
      ImpairSlot(cfg, t, rid, s.now, s.nextRid);
      Move(cfg, s, Impair(s, id), rid, id, t.(book := Some(s.book[id].(impaired := true))), Some(MetaReap(id)));
    } else {
      MoveQuietly(cfg, s, rid, Some(MetaViews(id, Some(size))));
    }
  }

  lemma MetaReapKeeps(cfg: Config, s: State, rid: Rid, id: Id, c: Choice)
    requires Inv(cfg, s) && rid in s.requests && s.requests[rid] == MetaReap(id)
    ensures Keeps(cfg, s, Goto(Reaped(s, id, c), rid, MetaViews(id, None)))
  {
    hide Inv, Keeps, SlotInv, Evolves;
    SlotFact(cfg, s, id);
    RequestFact(cfg, s, rid);
    if c.commits {
      ReapSlot(cfg, SlotOf(s, id), rid, MetaReap(id), s.now, s.nextRid);
      Move(cfg, s, s.(secrets := s.secrets - {id}), rid, id, SlotOf(s, id).(secret := None), Some(MetaViews(id, None)));
    } else {
      MoveQuietly(cfg, s, rid, Some(MetaViews(id, None)));
    }
  }

  // ---- Files ----

  lemma FileStoreKeeps(cfg: Config, s: State, rid: Rid, body: NewFile, c: Choice)
    requires Inv(cfg, s) && Fresh(s, c.newId) && rid in s.requests && s.requests[rid] == FileStore(body)
    ensures Keeps(cfg, s, FileStoreStep(cfg, s, rid, body, c))
  {
    hide Inv, Keeps, SlotInv, Evolves, LocalInv;
    var id := c.newId;
    SlotFact(cfg, s, id);
    FileSlot(cfg, SlotOf(s, id), rid, id, s.now, s.nextRid);
    if c.commits {
      var row := Row(F.File(body.ciphertext, c.at, c.at + body.ttl, |body.ciphertext|));
      Move(cfg, s, s.(files := s.files[id := row], fileIds := s.fileIds + {id}), rid, id,
           SlotOf(s, id).(file := true, isFile := true),
           if body.isPrivate && cfg.authEnabled then Some(FileMark(id)) else None);
    } else {
      MoveQuietly(cfg, s, rid, None);
    }
  }

  lemma FileMarkKeeps(cfg: Config, s: State, rid: Rid, id: Id, c: Choice)
    requires Inv(cfg, s) && rid in s.requests && s.requests[rid] == FileMark(id)
    ensures Keeps(cfg, s, FileMarkStep(s, rid, id, c))
  {
    hide Inv, Keeps, SlotInv, Evolves;
    SlotFact(cfg, s, id);
    RequestFact(cfg, s, rid);
    FileSlot(cfg, SlotOf(s, id), rid, id, s.now, s.nextRid);
    if c.commits {
      Move(cfg, s, s.(marks := s.marks + {id}), rid, id, SlotOf(s, id).(marked := true), None);
    } else {
      MoveQuietly(cfg, s, rid, None);
    }
  }

  lemma FileBurnKeeps(cfg: Config, s: State, rid: Rid, id: Id, caller: Caller, c: Choice)
    requires Inv(cfg, s) && rid in s.requests && s.requests[rid] == FileBurn(id, caller)
    ensures Keeps(cfg, s, FileBurnStep(s, rid, id, c))
  {
    hide Inv, Keeps, SlotInv, Evolves, LocalInv;
    SlotFact(cfg, s, id);
    FileSlot(cfg, SlotOf(s, id), rid, id, s.now, s.nextRid);
    var (files', f) := F.Burned(s.files, id, s.now);
    if c.commits {
      Move(cfg, s, s.(files := files'), rid, id, SlotOf(s, id).(file := false), if f.Some? then Some(DropMark(id)) else None);
    } else {
      MoveQuietly(cfg, s, rid, None);
    }
  }

  // ---- All requests ----

  lemma RevealKeeps(cfg: Config, s: State, rid: Rid, c: Choice)
    requires Inv(cfg, s) && rid in s.requests
    requires match s.requests[rid]
             case Gate(_, _) | Session(_, _, _) | Consume(_, _) | Peek(_, _) | Check(_, _, _) | Reap(_) | Burn(_, _) | DropMark(_) => true
             case _ => false
    ensures Keeps(cfg, s, AdvanceStep(cfg, s, rid, c))
  {
    hide Inv, Keeps;
    match s.requests[rid]
    case Gate(route, id) => GateKeeps(cfg, s, rid, route, id, c);
    case Session(route, id, present) => SessionKeeps(cfg, s, rid, route, id, present, c);
    case Consume(id, caller) => ConsumeKeeps(cfg, s, rid, id, caller, c);
    case Peek(id, caller) => PeekKeeps(cfg, s, rid, id, caller, c);
    case Check(id, caller, expiresAt) => CheckKeeps(cfg, s, rid, id, caller, expiresAt);
    case Reap(id) => ReapKeeps(cfg, s, rid, id, c);
    case Burn(id, caller) => BurnKeeps(cfg, s, rid, id, caller, c);
    case DropMark(id) => DropMarkKeeps(cfg, s, rid, id, c);
  }

  lemma WriterHasBook(cfg: Config, s: State, rid: Rid)
    requires Inv(cfg, s) && rid in s.requests
    ensures match s.requests[rid] case PutBudget(id, _) => id in s.book case Mark(id) => id in s.book case Reply(id) => id in s.book case _ => true
  {
    RequestFact(cfg, s, rid);
  }

  lemma AdvanceKeeps(cfg: Config, s: State, rid: Rid, c: Choice)
    requires Inv(cfg, s) && Enabled(cfg, s, Advance(rid, c))
    ensures Keeps(cfg, s, AdvanceStep(cfg, s, rid, c))
  {
    hide Inv, Keeps;
    WriterHasBook(cfg, s, rid);
    match s.requests[rid]
    case Store(body) => CreateKeeps(cfg, s, rid, body, c);
    case PutBudget(id, body) => PutKeeps(cfg, s, rid, id, body, c);
    case Mark(id) => MarkKeeps(cfg, s, rid, id, c);
    case Reply(id) => ReplyKeeps(cfg, s, rid, id);
    case MetaRead(id) => MetaReadKeeps(cfg, s, rid, id, c);
    case MetaCheck(id, expiresAt, size) => MetaCheckKeeps(cfg, s, rid, id, expiresAt, size);
    case MetaReap(id) => MetaReapKeeps(cfg, s, rid, id, c);
    case MetaViews(_, _) => MoveQuietly(cfg, s, rid, None);
    case FileStore(body) => FileStoreKeeps(cfg, s, rid, body, c);
    case FileMark(id) => FileMarkKeeps(cfg, s, rid, id, c);
    case FileBurn(id, caller) => FileBurnKeeps(cfg, s, rid, id, caller, c);
    case _ => RevealKeeps(cfg, s, rid, c);
  }

  // ---- Sweepers and faults ----

  /** A new request asserts nothing yet, unless it is a reveal. */
  lemma SpawnKeeps(cfg: Config, s: State, r: Request)
    requires Inv(cfg, s) && (r.Store? || r.FileStore? || (r.Gate? && !r.route.RevealRoute?))
    ensures Keeps(cfg, s, Spawn(s, r))
  {
    hide Inv, Keeps, SlotInv;
    SlotFact(cfg, s, "");
    Later(cfg, SlotOf(s, ""), s.now, s.now, s.nextRid, s.nextRid + 1);
    Arrive(cfg, s, s, "", SlotOf(s, ""), r);
  }

  lemma TickKeeps(cfg: Config, s: State, to: Time)
    requires Inv(cfg, s) && s.now <= to
    ensures Keeps(cfg, s, s.(now := to))
  {
    hide Inv, Keeps, SlotInv, LocalInv;
    var s' := s.(now := to);
    SlotFact(cfg, s, "");
    Later(cfg, SlotOf(s, ""), s.now, to, s.nextRid, s.nextRid);
    forall x ensures SlotOf(s', x) == SlotOf(s, x) {}
    AllAdvance(cfg, s, s', s.nextRid, "");
    NobodyMoves(cfg, s, s');
  }

  lemma NobodyMoves(cfg: Config, s: State, s': State)
    requires Inv(cfg, s) && s.now <= s'.now && s.nextRid == s'.nextRid
    requires s'.requests == s.requests && s'.viewsSweep == s.viewsSweep && s'.marksSweep == s.marksSweep
    requires forall id :: Advances(cfg, s, s', s.nextRid, id)
    ensures Keeps(cfg, s, s')
  {
    hide SlotInv, LocalInv;
    Lift(cfg, s, s', s.nextRid);
  }

  lemma SpoilBudgetKeeps(cfg: Config, s: State, id: Id)
    requires Inv(cfg, s) && id in s.views
    ensures Keeps(cfg, s, Impair(s.(views := s.views[id := Undecodable]), id))
  {
    hide Keeps, SlotInv, Evolves;
    SlotFact(cfg, s, id);
    SpoilBudgetSlot(cfg, SlotOf(s, id), s.nextRid, s.now, s.nextRid);
    SweepUnmoved(s, Impair(s.(views := s.views[id := Undecodable]), id), s.viewsSweep);
    SweepUnmoved(s, Impair(s.(views := s.views[id := Undecodable]), id), s.marksSweep);
    Happen(cfg, s, Impair(s.(views := s.views[id := Undecodable]), id), id,
           SlotOf(s, id).(budget := Some(Undecodable), book := Some(s.book[id].(impaired := true))), s.viewsSweep, s.marksSweep);
  }

  lemma SpoilSecretKeeps(cfg: Config, s: State, id: Id)
    requires Inv(cfg, s) && id in s.secrets
    ensures Keeps(cfg, s, Impair(s.(secrets := s.secrets[id := Undecodable]), id))
  {
    hide Keeps, SlotInv, Evolves;
    SlotFact(cfg, s, id);
    SpoilSecretSlot(cfg, SlotOf(s, id), s.nextRid, s.now, s.nextRid);
    SweepUnmoved(s, Impair(s.(secrets := s.secrets[id := Undecodable]), id), s.viewsSweep);
    SweepUnmoved(s, Impair(s.(secrets := s.secrets[id := Undecodable]), id), s.marksSweep);
    Happen(cfg, s, Impair(s.(secrets := s.secrets[id := Undecodable]), id), id,
           SlotOf(s, id).(secret := Some(Undecodable), book := Some(s.book[id].(impaired := true))), s.viewsSweep, s.marksSweep);
  }

  lemma SweepSecretsKeeps(cfg: Config, s: State, at: Time, commits: bool)
    requires Inv(cfg, s) && at <= s.now
    ensures Keeps(cfg, s, SweepSecretsStep(s, at, commits))
  {
    hide Inv, Keeps, SlotInv, Evolves;
    var s' := SweepSecretsStep(s, at, commits);
    forall id ensures Advances(cfg, s, s', s.nextRid, id) {
      SlotFact(cfg, s, id);
      NamedIfIssued(cfg, SlotOf(s, id), s.now, s.nextRid);
      SameEvolves(SlotOf(s, id), s.nextRid);
      if commits && id in s.secrets && S.Outlived(s.secrets[id], at) {
        SweepSlot(cfg, SlotOf(s, id), at, s.now, s.nextRid);
        assert SlotOf(s', id) == SlotOf(s, id).(secret := None, book := Some(s.book[id].(impaired := true)));
      } else {
        assert SlotOf(s', id) == SlotOf(s, id);
      }
    }
    NobodyMoves(cfg, s, s');
  }

  lemma SameEvolves(t: Slot, mover: Rid)
    ensures Evolves(t, t, mover)
  {
  }

  lemma SweepFilesKeeps(cfg: Config, s: State, at: Time)
    requires Inv(cfg, s)
    ensures Keeps(cfg, s, s.(files := F.Unexpired(s.files, at)))
  {
    hide Inv, Keeps, SlotInv, Evolves;
    var s' := s.(files := F.Unexpired(s.files, at));
    forall id ensures Advances(cfg, s, s', s.nextRid, id) {
      SlotFact(cfg, s, id);
      FileSlot(cfg, SlotOf(s, id), s.nextRid, id, s.now, s.nextRid);
      SameEvolves(SlotOf(s, id), s.nextRid);
      assert SlotOf(s', id) == SlotOf(s, id) || SlotOf(s', id) == SlotOf(s, id).(file := false);
    }
    NobodyMoves(cfg, s, s');
  }

  /** What a sweeper lists was issued, and an orphan it saw stays one until it is deleted. */
  lemma SweepWalks(cfg: Config, s: State, sweep: Sweep, ids: seq<Id>, commits: bool)
    requires Inv(cfg, s) && SweepInv(s, sweep)
    requires forall id :: id in ids ==> id in s.views || id in s.marks
    ensures var (sweep', drop) := SweepStep(sweep, s.secrets, ids, commits);
      SweepInv(s, sweep') && (drop.Some? ==> Orphan(SlotOf(s, drop.value)))
  {
    match sweep
    case Idle =>
      forall id | id in ids ensures Issued(SlotOf(s, id)) {
        SlotFact(cfg, s, id);
      }
    case Dropping(_, _) =>
    case Scanning(todo) =>
      if todo != [] {
        assert todo[0] in sweep.todo;
        assert forall id :: id in todo[1..] ==> id in todo;
      }
  }

  /** A sweep stands where it stands, whatever becomes of rows it has nothing to do with. */
  lemma SweepUnmoved(s: State, u: State, sweep: Sweep)
    requires SweepInv(s, sweep)
    requires u.secrets.Keys == s.secrets.Keys && s.book.Keys <= u.book.Keys && u.fileIds == s.fileIds
    ensures SweepInv(u, sweep)
  {
    if !sweep.Idle? {
      forall id | id in sweep.todo ensures Issued(SlotOf(u, id)) {
        assert Issued(SlotOf(s, id));
      }
    }
  }

  lemma SweepViewsKeeps(cfg: Config, s: State, ids: seq<Id>, commits: bool)
    requires Inv(cfg, s) && Lists(ids, s.views.Keys)
    ensures Keeps(cfg, s, SweepViewsStep(s, ids, commits))
  {
    SweepWalks(cfg, s, s.viewsSweep, ids, commits);
    var (sweep, drop) := SweepStep(s.viewsSweep, s.secrets, ids, commits);
    var id := if drop.Some? then drop.value else "";
    var u := if drop.Some? then s.(views := s.views - {id}) else s;
    SlotFact(cfg, s, id);
    SameEvolves(SlotOf(s, id), s.nextRid);
    if drop.Some? { DropSlot(cfg, SlotOf(s, id), s.nextRid, s.now, s.nextRid); }
    SweepUnmoved(s, u, sweep);
    SweepUnmoved(s, u, s.marksSweep);
    hide Inv, Keeps, SlotInv, Evolves, SweepInv;
    Happen(cfg, s, u, id, if drop.Some? then SlotOf(s, id).(budget := None) else SlotOf(s, id), sweep, s.marksSweep);
  }

  lemma SweepMarksKeeps(cfg: Config, s: State, ids: seq<Id>, commits: bool)
    requires Inv(cfg, s) && Lists(ids, s.marks)
    ensures Keeps(cfg, s, SweepMarksStep(s, ids, commits))
  {
    SweepWalks(cfg, s, s.marksSweep, ids, commits);
    var (sweep, drop) := SweepStep(s.marksSweep, s.secrets, ids, commits);
    var id := if drop.Some? then drop.value else "";
    var u := if drop.Some? then s.(marks := s.marks - {id}) else s;
    SlotFact(cfg, s, id);
    SameEvolves(SlotOf(s, id), s.nextRid);
    if drop.Some? { DropSlot(cfg, SlotOf(s, id), s.nextRid, s.now, s.nextRid); }
    SweepUnmoved(s, u, sweep);
    SweepUnmoved(s, u, s.viewsSweep);
    hide Inv, Keeps, SlotInv, Evolves, SweepInv;
    Happen(cfg, s, u, id, if drop.Some? then SlotOf(s, id).(marked := false) else SlotOf(s, id), s.viewsSweep, sweep);
  }

  lemma CrashKeeps(cfg: Config, s: State)
    requires Inv(cfg, s)
    ensures Keeps(cfg, s, CrashStep(s))
  {
    hide SlotInv, Grows;
    var s' := CrashStep(s);
    forall id ensures SlotInv(cfg, SlotOf(s', id), s'.now, s'.nextRid) && Grows(SlotOf(s, id), SlotOf(s', id)) {
      SlotFact(cfg, s, id);
      if id in s.book {
        CrashSlot(cfg, SlotOf(s, id), s.now, s.nextRid);
        assert SlotOf(s', id) == SlotOf(s, id).(book := Some(s.book[id].(budget := Settled(s.book[id].budget), mark := Settled(s.book[id].mark))));
      } else {
        SameGrows(SlotOf(s, id));
        assert SlotOf(s', id) == SlotOf(s, id);
      }
    }
  }

  lemma SameGrows(t: Slot)
    ensures Grows(t, t)
  {
  }

  lemma StepKeeps(cfg: Config, s: State, a: Action)
    requires Inv(cfg, s) && Enabled(cfg, s, a)
    ensures Keeps(cfg, s, Step(cfg, s, a))
  {
    hide Inv, Keeps;
    match a
    case StartCreate(body) => SpawnKeeps(cfg, s, Store(body));
    case StartFile(file) => SpawnKeeps(cfg, s, FileStore(file));
    case Start(route, id) => if route.RevealRoute? { StartRevealKeeps(cfg, s, id); } else { SpawnKeeps(cfg, s, Gate(route, id)); }
    case Advance(rid, c) => AdvanceKeeps(cfg, s, rid, c);
    case SweepSecrets(at, commits) => SweepSecretsKeeps(cfg, s, at, commits);
    case SweepFiles(at, commits) => if commits { SweepFilesKeeps(cfg, s, at); } else { TickKeeps(cfg, s, s.now); }
    case SweepViews(ids, commits) => SweepViewsKeeps(cfg, s, ids, commits);
    case SweepMarks(ids, commits) => SweepMarksKeeps(cfg, s, ids, commits);
    case Tick(to) => TickKeeps(cfg, s, to);
    case Crash => CrashKeeps(cfg, s);
    case SpoilBudget(id) => SpoilBudgetKeeps(cfg, s, id);
    case SpoilSecret(id) => SpoilSecretKeeps(cfg, s, id);
  }
}
