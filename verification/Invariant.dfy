/**
 What every step of the protocol keeps. All facts are about one id at a time: a `Slot` is all the
 state knows of an id. An in-flight request asserts something about its slot; `Evolves` is what
 the steps of everybody else may do to that slot meanwhile, and the assertions are stable under it.
 */
module Invariant {
  import opened Records
  import opened Protocol
  import S = SecretStore
  import V = ViewsStore

  datatype Slot = Slot(
    id: Id, secret: Option<Row<S.Secret>>, budget: Option<Row<V.Budget>>, marked: bool,
    book: Option<Book>, early: bool, file: bool, isFile: bool)

  function At<K, T>(rows: map<K, T>, id: K): Option<T> {
    if id in rows then Some(rows[id]) else None
  }

  function SlotOf(s: State, id: Id): Slot {
    Slot(id, At(s.secrets, id), At(s.views, id), id in s.marks, At(s.book, id), id in s.early, id in s.files, id in s.fileIds)
  }

  /** Views still to be had: what the budget holds beyond the burn, and the burn itself. */
  function Potential(t: Slot): nat {
    BudgetViews(t.budget) + if t.secret.Some? then 1 else 0
  }

  function BudgetViews(budget: Option<Row<V.Budget>>): nat {
    match budget
    case Some(Row(b)) => if b.remaining > 0 then b.remaining - 1 else 0
    case _ => 0
  }

  /** The views an id was granted: one, unless its budget was recorded or still may be. */
  function Granted(b: Book): int {
    if b.budget.Pending? || b.budget.Recorded? then b.views else 1
  }

  function Outstanding(b: Book): int {
    if b.budget.Pending? then b.views - 1 else 0
  }

  /** What was handed out, what is left, and what may yet be recorded. */
  function Worth(t: Slot, b: Book): int {
    |b.log| + Potential(t) + Outstanding(b)
  }

  predicate Burnt(log: seq<Delivery>) {
    exists k :: 0 <= k < |log| && log[k].remaining == 0
  }

  // ---- Facts about an issued id, whoever touched it when ----

  ghost predicate Bounded(t: Slot, b: Book) {
    && b.views >= 1
    && (b.budget.Pending? || b.budget.Recorded? ==> b.views > 1)
    && Worth(t, b) <= Granted(b)
    && (t.budget.Some? ==> b.budget.Recorded?)
    && (t.budget.Some? && t.budget.value.Row? ==> 1 <= t.budget.value.value.remaining <= b.views)
  }

  ghost predicate Faithful(t: Slot, b: Book) {
    && (t.secret.Some? && t.secret.value.Row? ==>
          && t.secret.value.value.ciphertext == b.ciphertext && t.secret.value.value.expiresAt == b.expiresAt
          && t.secret.value.value.size == |b.ciphertext|)
    && (t.budget.Some? && t.budget.value.Row? ==> t.budget.value.value.ciphertext == b.ciphertext)
    && (forall k :: 0 <= k < |b.log| ==> b.log[k].ciphertext == b.ciphertext)
  }

  ghost predicate MarkKept(t: Slot, b: Book) {
    && (b.published ==> !b.budget.Pending? && !b.mark.Pending?)
    && (b.mark.Recorded? && t.secret.Some? ==> t.marked)
  }

  /** A secret leaves its bucket for one of two reasons only. */
  ghost predicate AbsenceExplained(t: Slot, b: Book, now: Time) {
    t.secret.None? ==> IsExpired(b.expiresAt, now) || Burnt(b.log)
  }

  lemma BurntGrows(log: seq<Delivery>, d: Delivery)
    requires Burnt(log) || d.remaining == 0
    ensures Burnt(log + [d])
  {
    var k := if d.remaining == 0 then |log| else var k :| 0 <= k < |log| && log[k].remaining == 0; k;
    assert (log + [d])[k].remaining == 0;
  }

  // ---- Facts about an id that no reveal touched before its create had answered ----

  /** N-1, N-2, ... in commit order, and at most one burn, as the last. */
  ghost predicate InOrder(t: Slot, b: Book) {
    && (!b.published ==> b.log == [])
    && (forall k :: 0 <= k < |b.log| ==>
          if b.log[k].remaining == 0 then k == |b.log| - 1 && t.secret.None? && t.budget.None?
          else b.budget.Recorded? && b.log[k].remaining == b.views - 1 - k)
    && (t.budget.Some? && t.budget.value.Row? ==> t.budget.value.value.remaining == b.views - |b.log|)
  }

  /** Without expiry and undecodable rows no view is lost, and a 404 means that none was left. */
  ghost predicate Exact(t: Slot, b: Book) {
    !b.impaired ==>
      && |b.log| + Potential(t) + Outstanding(b) == Granted(b)
      && (t.secret.Some? ==> t.secret.value.Row?)
      && (t.budget.Some? ==> t.budget.value.Row?)
      && (b.misses > 0 ==> t.secret.None? && t.budget.None?)
  }

  ghost predicate OnePerRequest(b: Book, nextRid: Rid) {
    && (forall rid :: rid in b.starts ==> rid < nextRid)
    && (forall k :: 0 <= k < |b.log| ==> b.log[k].rid in b.starts)
    && (forall j, k :: 0 <= j < k < |b.log| ==> b.log[j].rid != b.log[k].rid)
  }

  ghost predicate Guarded(cfg: Config, caller: Caller, b: Book) {
    cfg.authEnabled && b.mark.Recorded? && caller.present ==> caller.verified
  }

  ghost predicate Private(cfg: Config, b: Book) {
    forall k :: 0 <= k < |b.log| ==>
      Guarded(cfg, b.log[k].caller, b) && (b.log[k].remaining == 0 ==> b.log[k].caller.present)
  }

  ghost predicate SlotInv(cfg: Config, t: Slot, now: Time, nextRid: Rid) {
    && (t.file ==> t.isFile)
    && match t.book
       case None => t.secret.None? && t.budget.None? && (t.marked ==> t.isFile)
       case Some(b) =>
         && t.id != "" && !t.isFile
         && Bounded(t, b) && Faithful(t, b) && MarkKept(t, b) && AbsenceExplained(t, b, now)
         && (!t.early ==> InOrder(t, b) && Exact(t, b) && OnePerRequest(b, nextRid) && Private(cfg, b))
  }

  // ---- What an in-flight request asserts about the slot it works on ----

  ghost predicate Writing(rid: Rid, t: Slot) {
    t.book.Some? && t.book.value.creator == rid && !t.book.value.published
  }

  /** A reveal in flight: unless it came too early, it is counted and has had no view yet. */
  ghost predicate Waiting(rid: Rid, t: Slot) {
    !t.early ==>
      && t.book.Some? && t.book.value.published
      && rid in t.book.value.starts
      && forall k :: 0 <= k < |t.book.value.log| ==> t.book.value.log[k].rid != rid
  }

  /** Past the gate, which ran no earlier than the secret was there, it knows whom it serves. */
  ghost predicate Revealing(cfg: Config, rid: Rid, t: Slot, caller: Caller) {
    && Waiting(rid, t)
    && (!t.early ==> (t.secret.Some? ==> caller.present) && Guarded(cfg, caller, t.book.value))
  }

  /** Past the budget on the way to the burn: no budget is left, and none will ever be again. */
  ghost predicate PastBudget(t: Slot) {
    !t.early ==> t.budget.None?
  }

  ghost predicate SawExpiry(t: Slot, expiresAt: Time) {
    t.book.Some? && expiresAt == t.book.value.expiresAt
  }

  ghost predicate Expiring(t: Slot, now: Time) {
    t.book.Some? && t.book.value.impaired && IsExpired(t.book.value.expiresAt, now)
  }

  predicate Issued(t: Slot) {
    t.book.Some? || t.isFile
  }

  /** An issued id without a secret: it will never have one again. */
  predicate Orphan(t: Slot) {
    Issued(t) && t.secret.None?
  }

  function Subject(r: Request): Id {
    if r.Store? || r.FileStore? then "" else r.id
  }

  ghost predicate LocalInv(cfg: Config, rid: Rid, r: Request, t: Slot, now: Time) {
    match r
    case PutBudget(id, body) =>
      && Writing(rid, t) && t.book.value.budget.Pending? && !t.book.value.mark.Recorded?
      && id != "" && body.views == t.book.value.views && body.ciphertext == t.book.value.ciphertext
    case Mark(_) => Writing(rid, t) && !t.book.value.budget.Pending? && t.book.value.mark.Pending?
    case Reply(_) => Writing(rid, t) && !t.book.value.budget.Pending? && !t.book.value.mark.Pending?
    case Gate(route, _) => route.RevealRoute? ==> Waiting(rid, t)
    case Session(route, _, present) =>
      route.RevealRoute? ==> Waiting(rid, t) && (!t.early && t.secret.Some? ==> present)
    case Consume(_, caller) => Revealing(cfg, rid, t, caller)
    case Peek(_, caller) => Revealing(cfg, rid, t, caller) && PastBudget(t)
    case Check(_, caller, e) => Revealing(cfg, rid, t, caller) && PastBudget(t) && SawExpiry(t, e)
    case Burn(_, caller) => Revealing(cfg, rid, t, caller) && PastBudget(t)
    case Reap(_) => Waiting(rid, t) && PastBudget(t) && Expiring(t, now)
    case MetaCheck(_, e, size) => SawExpiry(t, e) && size == |t.book.value.ciphertext|
    case MetaViews(_, seen) => seen.Some? ==> t.book.Some? && seen.value == |t.book.value.ciphertext|
    case MetaReap(_) => Expiring(t, now)
    case DropMark(_) => Orphan(t) && !t.file
    case FileMark(_) => t.isFile
    case _ => true
  }

  ghost predicate SweepInv(s: State, sweep: Sweep) {
    && (!sweep.Idle? ==> forall id :: id in sweep.todo ==> Issued(SlotOf(s, id)))
    && (sweep.Dropping? ==> Orphan(SlotOf(s, sweep.id)))
  }

  ghost predicate Inv(cfg: Config, s: State) {
    && (forall id :: SlotInv(cfg, SlotOf(s, id), s.now, s.nextRid))
    && (forall rid :: rid in s.requests ==>
          rid < s.nextRid && LocalInv(cfg, rid, s.requests[rid], SlotOf(s, Subject(s.requests[rid])), s.now))
    && SweepInv(s, s.viewsSweep) && SweepInv(s, s.marksSweep)
  }

  // ---- What one step may do to a slot ----

  ghost predicate SameTerms(b: Book, b': Book) {
    && b'.creator == b.creator && b'.ciphertext == b.ciphertext && b'.views == b.views && b'.expiresAt == b.expiresAt
    && (b.published ==> b'.published && b'.budget == b.budget && b'.mark == b.mark)
    && (!b.budget.Pending? ==> !b'.budget.Pending?) && (b.mark.Recorded? ==> b'.mark.Recorded?)
    && (b.impaired ==> b'.impaired)
    && b.starts <= b'.starts && b.misses <= b'.misses <= b.misses + 1
  }

  /** Serving takes exactly one view; nothing else adds any. */
  ghost predicate Spends(t: Slot, t': Slot, b: Book, b': Book) {
    || (b'.log == b.log && Potential(t') <= Potential(t))
    || (Served(b, b') && b'.misses == b.misses && Potential(t') + 1 == Potential(t))
  }

  ghost predicate Served(b: Book, b': Book) {
    |b'.log| == |b.log| + 1 && b'.log[..|b.log|] == b.log
  }

  /** How the history of an id grows in one step of anybody, and what is final about it. */
  ghost predicate Grows(t: Slot, t': Slot) {
    && (t.isFile ==> t'.isFile)
    && (t.early ==> t'.early)
    && (Orphan(t) ==> t'.secret.None?)
    && (Issued(t) && !t.file ==> !t'.file)
    && (t.book.Some? ==>
          && t'.book.Some? && SameTerms(t.book.value, t'.book.value)
          && Worth(t', t'.book.value) <= Worth(t, t.book.value)
          && (t.book.value.published ==>
                && (t'.early ==> t.early)
                && (t.budget.None? ==> t'.budget.None?)
                && Spends(t, t', t.book.value, t'.book.value)))
  }

  /** What requests other than `mover` may count on besides. */
  ghost predicate Evolves(t: Slot, t': Slot, mover: Rid) {
    && Grows(t, t')
    && (t.book.Some? ==> LeavesAlone(t.book.value, t'.book.value, mover))
    && (t.book.None? || !t.book.value.published ==>
          t'.book.Some? && t'.book.value.published ==> t'.book.value.creator == mover)
  }

  ghost predicate LeavesAlone(b: Book, b': Book, mover: Rid) {
    && (mover != b.creator ==> b'.budget == b.budget && b'.mark == b.mark && b'.published == b.published)
    && (b'.log == b.log || (Served(b, b') && b'.log[|b.log|].rid == mover))
  }

  ghost predicate Advances(cfg: Config, s: State, s': State, mover: Rid, id: Id) {
    SlotInv(cfg, SlotOf(s', id), s'.now, s'.nextRid) && Evolves(SlotOf(s, id), SlotOf(s', id), mover)
  }

  ghost predicate Keeps(cfg: Config, s: State, s': State) {
    && Inv(cfg, s') && s.now <= s'.now && s.nextRid <= s'.nextRid
    && forall id :: Grows(SlotOf(s, id), SlotOf(s', id))
  }

  lemma SlotFact(cfg: Config, s: State, id: Id)
    requires Inv(cfg, s)
    ensures SlotInv(cfg, SlotOf(s, id), s.now, s.nextRid)
  {
  }

  lemma RequestFact(cfg: Config, s: State, rid: Rid)
    requires Inv(cfg, s) && rid in s.requests
    ensures rid < s.nextRid
    ensures LocalInv(cfg, rid, s.requests[rid], SlotOf(s, Subject(s.requests[rid])), s.now)
  {
  }

  lemma Stable(cfg: Config, rid: Rid, r: Request, t: Slot, t': Slot, now: Time, now': Time, mover: Rid)
    requires LocalInv(cfg, rid, r, t, now) && now <= now' && rid != mover
    requires Evolves(t, t', mover)
    requires t.book.Some? ==> !t.isFile
    ensures LocalInv(cfg, rid, r, t', now')
  {
  }

  lemma Later(cfg: Config, t: Slot, now: Time, now': Time, nextRid: Rid, nextRid': Rid)
    requires SlotInv(cfg, t, now, nextRid) && now <= now' && nextRid <= nextRid'
    ensures SlotInv(cfg, t, now', nextRid')
  {
  }

  lemma SweepStable(cfg: Config, s: State, s': State, sweep: Sweep, mover: Rid)
    requires SweepInv(s, sweep)
    requires forall id :: Advances(cfg, s, s', mover, id)
    ensures SweepInv(s', sweep)
  {
    if !sweep.Idle? {
      forall id | id in sweep.todo ensures Issued(SlotOf(s', id)) {
        assert Advances(cfg, s, s', mover, id);
      }
    }
    if sweep.Dropping? {
      assert Advances(cfg, s, s', mover, sweep.id);
    }
  }

  /** A step is fine when it is fine slot by slot, and the request that moved knows what it needs next. */
  lemma Lift(cfg: Config, s: State, s': State, mover: Rid)
    requires Inv(cfg, s) && s.now <= s'.now && s.nextRid <= s'.nextRid
    requires forall id :: Advances(cfg, s, s', mover, id)
    requires forall rid :: rid in s'.requests && rid != mover ==> rid in s.requests && s'.requests[rid] == s.requests[rid]
    requires mover in s'.requests ==>
      mover < s'.nextRid && LocalInv(cfg, mover, s'.requests[mover], SlotOf(s', Subject(s'.requests[mover])), s'.now)
    requires s'.viewsSweep == s.viewsSweep || SweepInv(s', s'.viewsSweep)
    requires s'.marksSweep == s.marksSweep || SweepInv(s', s'.marksSweep)
    ensures Keeps(cfg, s, s')
  {
    forall id ensures SlotInv(cfg, SlotOf(s', id), s'.now, s'.nextRid) {
      assert Advances(cfg, s, s', mover, id);
    }
    forall rid | rid in s'.requests && rid != mover
      ensures rid < s'.nextRid && LocalInv(cfg, rid, s'.requests[rid], SlotOf(s', Subject(s'.requests[rid])), s'.now)
    {
      var id := Subject(s.requests[rid]);
      assert Advances(cfg, s, s', mover, id);
      assert SlotInv(cfg, SlotOf(s, id), s.now, s.nextRid);
      Stable(cfg, rid, s.requests[rid], SlotOf(s, id), SlotOf(s', id), s.now, s'.now, mover);
    }
    SweepStable(cfg, s, s', s.viewsSweep, mover);
    SweepStable(cfg, s, s', s.marksSweep, mover);
    forall id ensures Grows(SlotOf(s, id), SlotOf(s', id)) {
      assert Advances(cfg, s, s', mover, id);
    }
  }

  /** `u` is `s` except for what it says of `id`, where it holds `t`. */
  ghost predicate Touches(s: State, u: State, id: Id, t: Slot) {
    && u.requests == s.requests && u.now == s.now && u.nextRid == s.nextRid
    && u.viewsSweep == s.viewsSweep && u.marksSweep == s.marksSweep
    && SlotOf(u, id) == t
    && (forall other :: other != id ==> SlotOf(u, other) == SlotOf(s, other))
  }

  lemma AllAdvance(cfg: Config, s: State, s': State, mover: Rid, id: Id)
    requires Inv(cfg, s) && s.now <= s'.now && s.nextRid <= s'.nextRid
    requires forall other :: other != id ==> SlotOf(s', other) == SlotOf(s, other)
    requires SlotInv(cfg, SlotOf(s', id), s'.now, s'.nextRid) && Evolves(SlotOf(s, id), SlotOf(s', id), mover)
    ensures forall x :: Advances(cfg, s, s', mover, x)
  {
    forall x ensures Advances(cfg, s, s', mover, x) {
      if x != id {
        SlotFact(cfg, s, x);
        Later(cfg, SlotOf(s, x), s.now, s'.now, s.nextRid, s'.nextRid);
      }
    }
  }

  /** A request moves on, or ends, after its transaction turned `s` into `u` by touching `id` only. */
  lemma Move(cfg: Config, s: State, u: State, rid: Rid, id: Id, t: Slot, next: Option<Request>)
    requires Inv(cfg, s) && rid in s.requests
    requires Touches(s, u, id, t)
    requires SlotInv(cfg, t, s.now, s.nextRid) && Evolves(SlotOf(s, id), t, rid)
    requires next.Some? ==> LocalInv(cfg, rid, next.value, SlotOf(u, Subject(next.value)), s.now)
    ensures Keeps(cfg, s, if next.Some? then Goto(u, rid, next.value) else Finish(u, rid))
  {
    hide SlotInv, Evolves, Grows, LocalInv;
    var s' := if next.Some? then Goto(u, rid, next.value) else Finish(u, rid);
    forall x ensures SlotOf(s', x) == SlotOf(u, x) {}
    AllAdvance(cfg, s, s', rid, id);
    Lift(cfg, s, s', rid);
  }

  /** A step that only reads leaves every slot alone. */
  lemma MoveQuietly(cfg: Config, s: State, rid: Rid, next: Option<Request>)
    requires Inv(cfg, s) && rid in s.requests
    requires next.Some? ==> LocalInv(cfg, rid, next.value, SlotOf(s, Subject(next.value)), s.now)
    ensures Keeps(cfg, s, if next.Some? then Goto(s, rid, next.value) else Finish(s, rid))
  {
    SlotFact(cfg, s, "");
    Move(cfg, s, s, rid, "", SlotOf(s, ""), next);
  }

  /** A request arrives, under the next number, and touches `id` at most. */
  lemma Arrive(cfg: Config, s: State, u: State, id: Id, t: Slot, r: Request)
    requires Inv(cfg, s)
    requires Touches(s, u, id, t)
    requires SlotInv(cfg, t, s.now, s.nextRid + 1) && Evolves(SlotOf(s, id), t, s.nextRid)
    requires LocalInv(cfg, s.nextRid, r, SlotOf(u, Subject(r)), s.now)
    ensures Keeps(cfg, s, Spawn(u, r))
  {
    hide SlotInv, Evolves, Grows, LocalInv;
    var s' := Spawn(u, r);
    forall x ensures SlotOf(s', x) == SlotOf(u, x) {}
    AllAdvance(cfg, s, s', s.nextRid, id);
    Lift(cfg, s, s', s.nextRid);
  }

  /** The environment touches `id` at most: a fault, or a sweeper that now stands where it stands. */
  lemma Happen(cfg: Config, s: State, u: State, id: Id, t: Slot, viewsSweep: Sweep, marksSweep: Sweep)
    requires Inv(cfg, s)
    requires Touches(s, u, id, t)
    requires SlotInv(cfg, t, s.now, s.nextRid) && Evolves(SlotOf(s, id), t, s.nextRid)
    requires SweepInv(u, viewsSweep) && SweepInv(u, marksSweep)
    ensures Keeps(cfg, s, u.(viewsSweep := viewsSweep, marksSweep := marksSweep))
  {
    hide SlotInv, Evolves, Grows, LocalInv;
    var s' := u.(viewsSweep := viewsSweep, marksSweep := marksSweep);
    forall x ensures SlotOf(s', x) == SlotOf(u, x) {}
    AllAdvance(cfg, s, s', s.nextRid, id);
    Lift(cfg, s, s', s.nextRid);
  }
}
