/**
 The two sweepers that drop what is left over of secrets that are gone: list, then check and delete
 id by id, each in a transaction of its own. Both loops are proved against the protocol's sweep steps.
 */
module Sweepers {
  import opened Records
  import opened Protocol
  import S = SecretStore
  import V = ViewsStore
  import M = VisibilityStore

  /** Whether the read of an id commits, and whether its deletion does. */
  type Luck = Id -> (bool, bool)

  predicate Looks(luck: Luck, id: Id) { luck(id).0 }

  predicate Deletes(luck: Luck, id: Id) { luck(id).1 }

  /** What a sweep that nobody interrupts deletes, step by step until it is idle again. */
  function Dropped(sweep: Sweep, secrets: S.Rows, luck: Luck): set<Id>
    decreases match sweep case Idle => 0 case Scanning(todo) => 1 + 2 * |todo| case Dropping(_, todo) => 2 + 2 * |todo|
  {
    match sweep
    case Idle => {}
    case Scanning(todo) =>
      var (next, _) := SweepStep(sweep, secrets, [], todo == [] || Looks(luck, todo[0]));
      if todo == [] then {} else Dropped(next, secrets, luck)
    case Dropping(id, todo) =>
      var (next, drop) := SweepStep(sweep, secrets, [], Deletes(luck, id));
      (if drop.Some? then {drop.value} else {}) + Dropped(next, secrets, luck)
  }

  predicate Orphaned(secrets: S.Rows, luck: Luck, id: Id) {
    id !in secrets && Looks(luck, id) && Deletes(luck, id)
  }

  function Orphans(ids: seq<Id>, secrets: S.Rows, luck: Luck): set<Id> {
    set id | id in ids && Orphaned(secrets, luck, id)
  }

  lemma NoOrphans(secrets: S.Rows, luck: Luck)
    ensures Orphans([], secrets, luck) == {}
  {
  }

  lemma OrphansGrow(ids: seq<Id>, i: nat, secrets: S.Rows, luck: Luck)
    requires i < |ids|
    ensures Orphans(ids[..i + 1], secrets, luck) ==
      Orphans(ids[..i], secrets, luck) + if Orphaned(secrets, luck, ids[i]) then {ids[i]} else {}
  {
    hide Orphaned;
    assert ids[..i + 1] == ids[..i] + [ids[i]];
  }

  lemma NotYet(ids: seq<Id>, keys: set<Id>, i: nat, secrets: S.Rows, luck: Luck)
    requires Lists(ids, keys) && i < |ids|
    ensures ids[i] in keys && ids[i] !in Orphans(ids[..i], secrets, luck)
  {
    hide Orphaned;
  }

  /** Exactly the listed ids without a secret go, if their transactions commit. */
  lemma {:induction false} DroppedIs(todo: seq<Id>, secrets: S.Rows, luck: Luck)
    ensures Dropped(Scanning(todo), secrets, luck) == Orphans(todo, secrets, luck)
  {
    if todo != [] {
      var id, rest := todo[0], todo[1..];
      assert todo == [id] + rest;
      DroppedIs(rest, secrets, luck);
      if Looks(luck, id) && id !in secrets {
        assert Dropped(Dropping(id, rest), secrets, luck) == (if Deletes(luck, id) then {id} else {}) + Dropped(Scanning(rest), secrets, luck);
      } else {
        assert Dropped(Scanning(todo), secrets, luck) == Dropped(Scanning(rest), secrets, luck);
      }
    }
  }

  /** Check one id and delete what is kept for it, if its secret is gone. */
  method CheckBudget(secrets: S.Store, views: V.Store, id: Id, luck: Luck) returns (deleted: bool)
    requires secrets.isOpen && views.isOpen && views.Valid() && id in views.rows
    modifies views
    ensures views.Valid() && deleted == Orphaned(secrets.rows, luck, id)
    ensures views.rows == old(views.rows) - (if deleted then {id} else {})
    ensures |views.rows| == |old(views.rows)| - if deleted then 1 else 0
  {
    var secret := secrets.GetMeta(id, Looks(luck, id));
    if secret.Err? || secret.value.Some? { return false; }
    var done := views.Delete(id, Deletes(luck, id));
    S.DropShrinks(old(views.rows), id);
    return done.Ok?;
  }

  lemma DropTwice<V>(rows: map<Id, V>, first: set<Id>, second: set<Id>)
    ensures rows - first - second == rows - (first + second)
  {
  }

  lemma TakeTwice(keys: set<Id>, first: set<Id>, second: set<Id>)
    ensures keys - first - second == keys - (first + second)
  {
  }

  method DropViews(secrets: S.Store, views: V.Store, ids: seq<Id>, luck: Luck) returns (dropped: nat)
    requires secrets.isOpen && views.isOpen && views.Valid() && Lists(ids, views.rows.Keys)
    modifies views
    ensures views.Valid()
    ensures views.rows == old(views.rows) - Orphans(ids, secrets.rows, luck)
    ensures dropped == |old(views.rows)| - |views.rows|
  {
    hide Orphans, Orphaned, Lists;
    dropped := 0;
    NoOrphans(secrets.rows, luck);
    for i := 0 to |ids|
      invariant views.Valid()
      invariant views.rows == old(views.rows) - Orphans(ids[..i], secrets.rows, luck)
      invariant dropped == |old(views.rows)| - |views.rows|
    {
      NotYet(ids, old(views.rows).Keys, i, secrets.rows, luck);
      OrphansGrow(ids, i, secrets.rows, luck);
      var deleted := CheckBudget(secrets, views, ids[i], luck);
      DropTwice(old(views.rows), Orphans(ids[..i], secrets.rows, luck), if deleted then {ids[i]} else {});
      if deleted { dropped := dropped + 1; }
    }
    assert ids[..|ids|] == ids;
  }

  /** One tick of the views sweeper. */
  method SweepViews(secrets: S.Store, views: V.Store, lists: bool, luck: Luck) returns (dropped: nat, ghost ids: seq<Id>)
    requires secrets.isOpen && views.isOpen && views.Valid()
    modifies views
    ensures views.Valid()
    ensures lists ==> Lists(ids, old(views.rows).Keys)
    ensures views.rows == old(views.rows) - (if lists then Dropped(Scanning(ids), secrets.rows, luck) else {})
    ensures dropped == |old(views.rows)| - |views.rows|
  {
    hide Orphans, Dropped, Orphaned, Lists;
    var listed := views.List(lists);
    ids := [];
    if listed.Err? { return 0, ids; }
    ids := listed.value;
    dropped := DropViews(secrets, views, listed.value, luck);
    DroppedIs(ids, secrets.rows, luck);
  }

  method CheckMark(secrets: S.Store, marks: M.Store, id: Id, luck: Luck) returns (deleted: bool)
    requires secrets.isOpen && marks.isOpen && id in marks.ids
    modifies marks
    ensures deleted == Orphaned(secrets.rows, luck, id)
    ensures marks.ids == old(marks.ids) - (if deleted then {id} else {})
    ensures |marks.ids| == |old(marks.ids)| - if deleted then 1 else 0
  {
    var secret := secrets.GetMeta(id, Looks(luck, id));
    if secret.Err? || secret.value.Some? { return false; }
    var done := marks.Delete(id, Deletes(luck, id));
    return done.Ok?;
  }

  method DropMarks(secrets: S.Store, marks: M.Store, ids: seq<Id>, luck: Luck) returns (dropped: nat)
    requires secrets.isOpen && marks.isOpen && Lists(ids, marks.ids)
    modifies marks
    ensures marks.ids == old(marks.ids) - Orphans(ids, secrets.rows, luck)
    ensures dropped == |old(marks.ids)| - |marks.ids|
  {
    hide Orphans, Orphaned, Lists;
    dropped := 0;
    NoOrphans(secrets.rows, luck);
    for i := 0 to |ids|
      invariant marks.ids == old(marks.ids) - Orphans(ids[..i], secrets.rows, luck)
      invariant dropped == |old(marks.ids)| - |marks.ids|
    {
      NotYet(ids, old(marks.ids), i, secrets.rows, luck);
      OrphansGrow(ids, i, secrets.rows, luck);
      var deleted := CheckMark(secrets, marks, ids[i], luck);
      TakeTwice(old(marks.ids), Orphans(ids[..i], secrets.rows, luck), if deleted then {ids[i]} else {});
      if deleted { dropped := dropped + 1; }
    }
    assert ids[..|ids|] == ids;
  }

  /** One tick of the visibility sweeper. It asks the secrets only, so it takes the mark of any file it lists. */
  method SweepMarks(secrets: S.Store, marks: M.Store, lists: bool, luck: Luck) returns (dropped: nat, ghost ids: seq<Id>)
    requires secrets.isOpen && marks.isOpen
    modifies marks
    ensures lists ==> Lists(ids, old(marks.ids))
    ensures marks.ids == old(marks.ids) - (if lists then Dropped(Scanning(ids), secrets.rows, luck) else {})
    ensures dropped == |old(marks.ids)| - |marks.ids|
  {
    hide Orphans, Dropped, Orphaned, Lists;
    var listed := marks.List(lists);
    ids := [];
    if listed.Err? { return 0, ids; }
    ids := listed.value;
    dropped := DropMarks(secrets, marks, listed.value, luck);
    DroppedIs(ids, secrets.rows, luck);
  }

  /** A sweep without errors leaves the marks of secrets that are there, and no other: none of a file survives. */
  lemma SweepKeeps(ids: seq<Id>, marks: set<Id>, secrets: S.Rows, luck: Luck, id: Id)
    requires Lists(ids, marks) && id in marks && Looks(luck, id) && Deletes(luck, id)
    ensures id in marks - Dropped(Scanning(ids), secrets, luck) <==> id in secrets
  {
    DroppedIs(ids, secrets, luck);
  }
}
