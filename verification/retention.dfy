/** Archive, queue, restore and the retention sweep of internal/flags/retention_sweep.go over whole runs. */
module Retention {
  import opened Model
  import opened Service
  import opened Runs
  import opened LifecycleRuns
  import Sql = Store

  ghost predicate DatesOk(f: Flag, retention: Time, now: Time) {
    && (f.archivedAt.Some? ==> f.archivedAt.value <= now)
    && (f.deleteAfter.Some? ==> f.deleteAfter.value <= now + retention)
    && (f.archivedAt.Some? && f.deleteAfter.Some? ==> f.deleteAfter.value <= f.archivedAt.value + retention)
  }

  /** A queued date survives UnarchiveFlag, so it may be older than the archival it now stands beside, never newer. */
  ghost predicate AllDatesOk(db: Sql.Db, retention: Time, now: Time) {
    forall id :: id in db.flags ==> DatesOk(db.flags[id], retention, now)
  }

  predicate UsesWindow(op: Op, retention: Time) {
    match op
    case Do(OnFlag(HardDeleteFlag(_, r))) => r == retention
    case Do(OnDates(QueueDeletion(_, r))) => r == retention
    case _ => true
  }

  predicate OneWindow(steps: seq<Step>, retention: Time) {
    forall i :: 0 <= i < |steps| ==> UsesWindow(steps[i].op, retention)
  }

  lemma FlagDatesOk(px: Platform, db: Sql.Db, now: Time, call: FlagCall, retention: Time)
    requires Sql.FlagsOk(px, db.flags) && AllDatesOk(db, retention, now) && 0 <= retention
    requires FlagStatement(px, db, now, call).Ok?
    ensures AllDatesOk(FlagStatement(px, db, now, call).value, retention, now)
  {
  }

  lemma DateDatesOk(db: Sql.Db, now: Time, call: DateCall, retention: Time)
    requires (forall id :: id in db.flags ==> db.flags[id].id == id) && AllDatesOk(db, retention, now) && 0 <= retention
    requires DateStatement(db, now, call).Ok? && (call.QueueDeletion? ==> call.retention == retention)
    ensures AllDatesOk(DateStatement(db, now, call).value, retention, now)
  {
  }

  lemma CallDatesOk(px: Platform, db: Sql.Db, now: Time, call: Write, retention: Time)
    requires Sql.FlagsOk(px, db.flags) && AllDatesOk(db, retention, now) && 0 <= retention
    requires Statement(px, db, now, call).Ok? && UsesWindow(Do(call), retention)
    ensures AllDatesOk(Statement(px, db, now, call).value, retention, now)
  {
    match call
    case OnFlag(f) => FlagDatesOk(px, db, now, f, retention);
    case OnDates(d) => DateDatesOk(db, now, d, retention);
    case OnLife(l) =>
      forall id | id in db.flags ensures DatesOk(LifeStatement(db, now, l).value.flags[id], retention, now) {
        assert DatesOk(db.flags[id], retention, now);
      }
    case _ => OtherCallRows(px, db, now, call);
  }

  lemma StepDatesOk(px: Platform, w: World, s: Step, retention: Time)
    requires Sql.FlagsOk(px, w.rows.flags) && Possible(w, s.op) && 0 <= retention
    requires AllDatesOk(w.rows, retention, s.now) && UsesWindow(s.op, retention)
    ensures AllDatesOk(Next(px, w, s).rows, retention, s.now)
  {
    if s.op.Do? && Statement(px, w.rows, s.now, s.op.call).Ok? {
      CallDatesOk(px, w.rows, s.now, s.op.call, retention);
    }
  }

  /** The invariant of every run: an archived flag's delete_after is never later than its archival plus retention. */
  lemma {:induction false} DatesAlwaysOk(px: Platform, ws: seq<World>, steps: seq<Step>, retention: Time, start: Time, n: nat, now: Time)
    requires Lawful(px) && Run(px, ws, steps) && Sql.Valid(px, ws[0].rows) && OneWindow(steps, retention) && 0 <= retention
    requires AllDatesOk(ws[0].rows, retention, start) && (|steps| > 0 ==> start <= steps[0].now)
    requires n <= |steps| && (if n > 0 then steps[n - 1].now <= now else start <= now)
    ensures AllDatesOk(ws[n].rows, retention, now)
  {
    if n > 0 {
      var s := steps[n - 1];
      assert n > 1 ==> steps[n - 2].now <= s.now;
      DatesAlwaysOk(px, ws, steps, retention, start, n - 1, s.now);
      AlwaysValid(px, ws, steps, n - 1);
      assert ws[n] == Next(px, ws[n - 1], s);
      StepDatesOk(px, ws[n - 1], s, retention);
      DatesOkLater(ws[n].rows, retention, s.now, now);
    } else {
      DatesOkLater(ws[0].rows, retention, start, now);
    }
  }

  lemma DatesOkLater(db: Sql.Db, retention: Time, now: Time, later: Time)
    requires AllDatesOk(db, retention, now) && now <= later
    ensures AllDatesOk(db, retention, later)
  {
  }

  // ---------------------------------------------------------------- what a deletion has behind it

  ghost predicate ArchivedSince(db: Sql.Db, x: Uuid, t: Time) { x in db.flags && db.flags[x].archivedAt == Some(t) }

  predicate Archives(s: Step, x: Uuid) { s.op == Do(OnDates(ArchiveFlag(x))) }

  lemma ArchivalStep(px: Platform, db: Sql.Db, now: Time, call: Write, x: Uuid, t: Time)
    requires Sql.FlagsOk(px, db.flags) && Statement(px, db, now, call).Ok?
    requires ArchivedSince(Statement(px, db, now, call).value, x, t)
    ensures ArchivedSince(db, x, t)
            || (call == OnDates(ArchiveFlag(x)) && t == now && x in db.flags && db.flags[x].archivedAt.None?)
  {
    match call
    case OnFlag(f) =>
      FlagCallAddsRemoves(px, db, now, f, x);
      if x in db.flags { FlagCallRow(px, db, now, f, x); }
    case OnDates(d) => DateCallRow(db, now, d);
    case OnLife(_) =>
    case _ => OtherCallRows(px, db, now, call);
  }

  /** If x stands archived since t after the step, it did before, or the step archived it just then. */
  ghost predicate ArchivalTraced(w: World, s: Step, w1: World, x: Uuid, t: Time) {
    ArchivedSince(w1.rows, x, t) ==>
      || ArchivedSince(w.rows, x, t)
      || (Archives(s, x) && t == s.now && x in w.rows.flags && w.rows.flags[x].archivedAt.None?)
  }

  lemma StepArchival(px: Platform, w: World, s: Step, x: Uuid, t: Time)
    requires Sql.FlagsOk(px, w.rows.flags) && Possible(w, s.op)
    ensures ArchivalTraced(w, s, Next(px, w, s), x, t)
  {
    if s.op.Do? && Statement(px, w.rows, s.now, s.op.call).Ok? && ArchivedSince(Next(px, w, s).rows, x, t) {
      ArchivalStep(px, w.rows, s.now, s.op.call, x, t);
    }
  }

  /** x was archived at time t by the call j, or j is None and it was before the run; and archived ever since. */
  ghost predicate ArchivedBy(ws: seq<World>, steps: seq<Step>, n: nat, x: Uuid, t: Time, j: Option<nat>)
    requires |ws| == |steps| + 1 && n <= |steps|
  {
    match j
    case None => forall k :: 0 <= k <= n ==> ArchivedSince(ws[k].rows, x, t)
    case Some(i) =>
      && i < n && Archives(steps[i], x) && steps[i].now == t
      && x in ws[i].rows.flags && ws[i].rows.flags[x].archivedAt.None?
      && forall k :: i < k <= n ==> ArchivedSince(ws[k].rows, x, t)
  }

  lemma {:induction false} TraceArchival(ws: seq<World>, steps: seq<Step>, n: nat, x: Uuid, t: Time) returns (j: Option<nat>)
    requires |ws| == |steps| + 1 && n <= |steps| && ArchivedSince(ws[n].rows, x, t)
    requires forall k :: 0 <= k < n ==> ArchivalTraced(ws[k], steps[k], ws[k + 1], x, t)
    ensures ArchivedBy(ws, steps, n, x, t, j)
  {
    if n == 0 {
      j := None;
    } else {
      assert ArchivalTraced(ws[n - 1], steps[n - 1], ws[n], x, t);
      if ArchivedSince(ws[n - 1].rows, x, t) {
        j := TraceArchival(ws, steps, n - 1, x, t);
      } else {
        j := Some(n - 1);
      }
    }
  }

  /** A flag found archived was archived by one particular call of the run, or before it, and has been ever since. */
  lemma ArchivalOf(px: Platform, ws: seq<World>, steps: seq<Step>, n: nat, x: Uuid, t: Time) returns (j: Option<nat>)
    requires Lawful(px) && Run(px, ws, steps) && Sql.Valid(px, ws[0].rows) && n <= |steps|
    requires ArchivedSince(ws[n].rows, x, t)
    ensures ArchivedBy(ws, steps, n, x, t, j)
  {
    forall k | 0 <= k < n ensures ArchivalTraced(ws[k], steps[k], ws[k + 1], x, t) {
      AlwaysValid(px, ws, steps, k);
      StepArchival(px, ws[k], steps[k], x, t);
    }
    j := TraceArchival(ws, steps, n, x, t);
  }

  lemma StepDeletion(px: Platform, w: World, s: Step, x: Uuid)
    requires Sql.FlagsOk(px, w.rows.flags) && Possible(w, s.op)
    requires x in w.rows.flags && x !in Next(px, w, s).rows.flags
    ensures s.op.Do? && s.op.call.OnFlag? && s.op.call.f.HardDeleteFlag? && s.op.call.f.id == x
    ensures Sql.Deletable(w.rows.flags[x], s.op.call.f.retention, s.now)
  {
    assert s.op.Do? && Statement(px, w.rows, s.now, s.op.call).Ok?;
    if s.op.call.OnFlag? {
      FlagCallAddsRemoves(px, w.rows, s.now, s.op.call.f, x);
    } else {
      RowsKept(px, w.rows, s.now, s.op.call);
    }
  }

  /** A row disappears only by a hard delete, only while archived, and only when the full retention has passed since
      the archive call that last archived it, in this run or before it. */
  lemma DeletedOnlyAfterRetention(px: Platform, ws: seq<World>, steps: seq<Step>, retention: Time, n: nat, x: Uuid)
    returns (t: Time, j: Option<nat>)
    requires Lawful(px) && Run(px, ws, steps) && Sql.Valid(px, ws[0].rows) && OneWindow(steps, retention)
    requires n < |steps| && x in ws[n].rows.flags && x !in ws[n + 1].rows.flags
    ensures steps[n].op == Do(OnFlag(HardDeleteFlag(x, retention)))
    ensures ArchivedSince(ws[n].rows, x, t) && steps[n].now > t + retention && ArchivedBy(ws, steps, n, x, t, j)
  {
    AlwaysValid(px, ws, steps, n);
    assert ws[n + 1] == Next(px, ws[n], steps[n]);
    StepDeletion(px, ws[n], steps[n], x);
    assert UsesWindow(steps[n].op, retention);
    t := ws[n].rows.flags[x].archivedAt.value;
    j := ArchivalOf(px, ws, steps, n, x, t);
  }

  /** Unarchiving a queued flag, which is also how an archive is reverted, leaves its date: the row is active and yet
      listed for deletion. Restoring it does not. */
  lemma UnarchiveLeavesDate(px: Platform, db: Sql.Db, x: Uuid, now: Time)
    requires Sql.FlagsOk(px, db.flags) && x in db.flags && Sql.Overdue(db.flags[x], now)
    ensures var un := DateStatement(db, now, UnarchiveFlag(x)).value;
            !un.flags[x].IsArchived() && Sql.Overdue(un.flags[x], now)
    ensures var re := DateStatement(db, now, RestoreFlag(x)).value;
            !re.flags[x].IsArchived() && forall t :: !Sql.Overdue(re.flags[x], t)
  {
  }

  // ---------------------------------------------------------------- one sweep

  /** The audit row written for a deletion, with the flag as it was. */
  datatype Tombstone = Tombstone(id: Uuid, before: Flag)

  function Deleting(id: Uuid, retention: Time): Write { OnFlag(HardDeleteFlag(id, retention)) }

  function Swept(px: Platform, w: World, now: Time, ids: seq<Uuid>, retention: Time): World
    decreases |ids|
  {
    if ids == [] then w else Swept(px, Serve(px, w, now, Deleting(ids[0], retention)), now, ids[1..], retention)
  }

  function Tombstone1(db: Sql.Db, now: Time, id: Uuid, retention: Time): seq<Tombstone> {
    if id in db.flags && Sql.Deletable(db.flags[id], retention, now) then [Tombstone(id, db.flags[id])] else []
  }

  function Tombstones(px: Platform, w: World, now: Time, ids: seq<Uuid>, retention: Time): seq<Tombstone>
    decreases |ids|
  {
    if ids == [] then []
    else Tombstone1(w.rows, now, ids[0], retention)
         + Tombstones(px, Serve(px, w, now, Deleting(ids[0], retention)), now, ids[1..], retention)
  }

  lemma {:induction false} SweptRows(px: Platform, w: World, now: Time, ids: seq<Uuid>, retention: Time)
    ensures var db, db1 := w.rows, Swept(px, w, now, ids, retention).rows;
            && (forall x :: x in db1.flags <==> x in db.flags && !(x in ids && Sql.Deletable(db.flags[x], retention, now)))
            && (forall x :: x in db1.flags ==> db1.flags[x] == db.flags[x])
    decreases |ids|
  {
    if ids != [] {
      var w1 := Serve(px, w, now, Deleting(ids[0], retention));
      assert w1.rows.flags == if ids[0] in w.rows.flags && Sql.Deletable(w.rows.flags[ids[0]], retention, now)
                              then map f | f in w.rows.flags && f != ids[0] :: w.rows.flags[f] else w.rows.flags;
      SweptRows(px, w1, now, ids[1..], retention);
      assert forall x :: x in ids <==> x == ids[0] || x in ids[1..];
    }
  }

  /** One tombstone for each deleted flag, carrying its last state, and none for the others. */
  lemma {:induction false} SweptTombstones(px: Platform, w: World, now: Time, ids: seq<Uuid>, retention: Time)
    requires forall i, j :: 0 <= i < j < |ids| ==> ids[i] != ids[j]
    ensures var db, ts := w.rows, Tombstones(px, w, now, ids, retention);
            && (forall t :: t in ts <==> t.id in ids && t.id in db.flags && t.before == db.flags[t.id] && Sql.Deletable(t.before, retention, now))
            && (forall i, j :: 0 <= i < j < |ts| ==> ts[i].id != ts[j].id)
    decreases |ids|
  {
    if ids != [] {
      var w1 := Serve(px, w, now, Deleting(ids[0], retention));
      SweptTombstones(px, w1, now, ids[1..], retention);
      var rest := Tombstones(px, w1, now, ids[1..], retention);
      assert w1.rows.flags == if ids[0] in w.rows.flags && Sql.Deletable(w.rows.flags[ids[0]], retention, now)
                              then map f | f in w.rows.flags && f != ids[0] :: w.rows.flags[f] else w.rows.flags;
      assert forall x :: x in ids <==> x == ids[0] || x in ids[1..];
      assert forall t :: t in rest ==> t.id in ids[1..] && t.id != ids[0];
      var ts := Tombstones(px, w, now, ids, retention);
      assert forall t :: t in ts <==> t in rest || (ts != rest && t == ts[0]);
    }
  }

  lemma SweepStep(px: Platform, w: World, now: Time, batch: seq<Uuid>, i: nat, retention: Time, audit: seq<Tombstone>)
    requires i < |batch|
    ensures var w1, rest := Serve(px, w, now, Deleting(batch[i], retention)), batch[i + 1..];
            && Swept(px, w, now, batch[i..], retention) == Swept(px, w1, now, rest, retention)
            && audit + Tombstones(px, w, now, batch[i..], retention)
               == audit + Tombstone1(w.rows, now, batch[i], retention) + Tombstones(px, w1, now, rest, retention)
  {
  }

  class RetentionSweeper {
    const service: FlagService
    const retention: Time
    const batchSize: nat
    var audit: seq<Tombstone>

    constructor (service: FlagService, retention: Time)
      ensures this.service == service && this.retention == retention && batchSize == 100 && audit == []
    {
      this.service, this.retention, this.batchSize, this.audit := service, retention, 100, [];
    }

    /** The audit row is written only for a deletion that went through. */
    method DeleteOne(id: Uuid, now: Time)
      modifies this`audit, service.repo, service.cache
      ensures service.State() == Serve(service.px, old(service.State()), now, Deleting(id, retention))
      ensures audit == old(audit) + Tombstone1(old(service.repo.rows), now, id, retention)
    {
      var before := service.repo.GetFlag(id);
      var err := service.Mutate(Deleting(id, retention), now);
      if err.None? {
        audit := audit + [Tombstone(id, before.value)];
      }
    }

    method SweepOnce(now: Time) returns (ghost ids: seq<Uuid>)
      modifies this`audit, service.repo, service.cache
      ensures Sql.DeletionBatch(old(service.repo.rows), batchSize, now, ids)
      ensures service.State() == Swept(service.px, old(service.State()), now, ids, retention)
      ensures audit == old(audit) + Tombstones(service.px, old(service.State()), now, ids, retention)
    {
      var batch := service.repo.ListFlagsToHardDelete(batchSize, now);
      ids := batch;
      ghost var px, w0, audit0 := service.px, service.State(), audit;
      for i := 0 to |batch|
        invariant Swept(px, w0, now, batch, retention) == Swept(px, service.State(), now, batch[i..], retention)
        invariant audit0 + Tombstones(px, w0, now, batch, retention)
                  == audit + Tombstones(px, service.State(), now, batch[i..], retention)
      {
        SweepStep(px, service.State(), now, batch, i, retention, audit);
        DeleteOne(batch[i], now);
      }
    }
  }

  // ---------------------------------------------------------------- which flags a sweep reaches

  ghost function DatedBefore(db: Sql.Db, x: Uuid, now: Time): set<Uuid>
    requires x in db.flags && db.flags[x].deleteAfter.Some?
  {
    set id | id in Sql.OverdueIds(db, now) && db.flags[id].deleteAfter.value < db.flags[x].deleteAfter.value
  }

  ghost function DatedNoLater(db: Sql.Db, x: Uuid, now: Time): set<Uuid>
    requires x in db.flags && db.flags[x].deleteAfter.Some?
  {
    set id | id in Sql.OverdueIds(db, now) && db.flags[id].deleteAfter.value <= db.flags[x].deleteAfter.value
  }

  function Elements(ids: seq<Uuid>): set<Uuid> { set x | x in ids }

  lemma {:induction false} DistinctSize(ids: seq<Uuid>)
    requires forall i, j :: 0 <= i < j < |ids| ==> ids[i] != ids[j]
    ensures |Elements(ids)| == |ids|
  {
    if ids != [] {
      DistinctSize(ids[1..]);
      assert Elements(ids) == {ids[0]} + Elements(ids[1..]);
    }
  }

  lemma {:induction false} SubsetSize(a: set<Uuid>, b: set<Uuid>)
    requires a <= b
    ensures |a| <= |b| && (|a| == |b| ==> a == b)
  {
    if a != {} {
      var x :| x in a;
      SubsetSize(a - {x}, b - {x});
    }
  }

  /** An overdue flag is in the batch whenever fewer than limit overdue dates are no later than its own, itself included
      or not, and is left out whenever limit of them are earlier. */
  lemma BatchReaches(db: Sql.Db, limit: nat, now: Time, ids: seq<Uuid>, x: Uuid)
    requires Sql.DeletionBatch(db, limit, now, ids) && x in Sql.OverdueIds(db, now)
    ensures |DatedNoLater(db, x, now)| <= limit ==> x in ids
    ensures |DatedBefore(db, x, now)| >= limit ==> x !in ids
  {
    DistinctSize(ids);
    var batch := Elements(ids);
    if x !in ids {
      assert batch + {x} <= DatedNoLater(db, x, now);
      SubsetSize(batch + {x}, DatedNoLater(db, x, now));
    } else {
      var before := DatedBefore(db, x, now);
      assert before <= batch;
      SubsetSize(before + {x}, batch);
    }
  }

  /** A sweep deletes a flag exactly when the batch reaches it and its retention has passed. */
  lemma SweepDeletesIff(px: Platform, w: World, now: Time, ids: seq<Uuid>, retention: Time, x: Uuid)
    requires x in w.rows.flags
    ensures x !in Swept(px, w, now, ids, retention).rows.flags <==> x in ids && Sql.Deletable(w.rows.flags[x], retention, now)
  {
    SweptRows(px, w, now, ids, retention);
  }

  // ---------------------------------------------------------------- when sweeping stops

  /** At least a batchful of active flags kept an overdue date, and whatever else is archived or dated comes later. */
  ghost predicate Jammed(db: Sql.Db, limit: nat, now: Time, retention: Time, stuck: set<Uuid>) {
    && |stuck| >= limit
    && (forall y :: y in stuck ==> y in Sql.OverdueIds(db, now) && !db.flags[y].IsArchived())
    && (forall y, x :: y in stuck && x in db.flags && x !in stuck ==> Behind(db.flags[x], db.flags[y], retention))
  }

  /** Neither x's date nor the date x would be queued for is as early as y's. */
  predicate Behind(x: Flag, y: Flag, retention: Time) {
    y.deleteAfter.Some? ==>
      && (x.archivedAt.Some? ==> y.deleteAfter.value < x.archivedAt.value + retention)
      && (x.deleteAfter.Some? ==> y.deleteAfter.value < x.deleteAfter.value)
  }

  lemma {:induction false} NothingDeletable(px: Platform, w: World, now: Time, ids: seq<Uuid>, retention: Time)
    requires forall x :: x in ids && x in w.rows.flags ==> !Sql.Deletable(w.rows.flags[x], retention, now)
    ensures Swept(px, w, now, ids, retention) == w && Tombstones(px, w, now, ids, retention) == []
    decreases |ids|
  {
    if ids != [] {
      assert ids[0] in ids && forall x :: x in ids[1..] ==> x in ids;
      NothingDeletable(px, w, now, ids[1..], retention);
    }
  }

  /** Then a sweep changes no row and writes no tombstone. */
  lemma JammedSweepDoesNothing(px: Platform, w: World, limit: nat, now: Time, ids: seq<Uuid>, retention: Time, stuck: set<Uuid>)
    requires Jammed(w.rows, limit, now, retention, stuck) && Sql.DeletionBatch(w.rows, limit, now, ids)
    ensures Swept(px, w, now, ids, retention) == w && Tombstones(px, w, now, ids, retention) == []
  {
    forall x | x in ids && x in w.rows.flags ensures !Sql.Deletable(w.rows.flags[x], retention, now) {
      assert x in Sql.OverdueIds(w.rows, now);
      if x !in stuck {
        var before := DatedBefore(w.rows, x, now);
        assert stuck <= before;
        SubsetSize(stuck, before);
        BatchReaches(w.rows, limit, now, ids, x);
      }
    }
    NothingDeletable(px, w, now, ids, retention);
  }

  /** The step leaves the stuck flags as they are: it does not archive or restore one, or clear its date. */
  predicate Spares(op: Op, stuck: set<Uuid>) {
    match op
    case Do(OnDates(ArchiveFlag(id))) => id !in stuck
    case Do(OnDates(RestoreFlag(id))) => id !in stuck
    case Do(OnDates(ClearDeleteAfter(id))) => id !in stuck
    case _ => true
  }

  lemma FlagCallJammed(px: Platform, db: Sql.Db, now: Time, call: FlagCall, limit: nat, retention: Time, stuck: set<Uuid>)
    requires Sql.FlagsOk(px, db.flags) && Jammed(db, limit, now, retention, stuck) && FlagStatement(px, db, now, call).Ok?
    ensures Jammed(FlagStatement(px, db, now, call).value, limit, now, retention, stuck)
  {
    var db1 := FlagStatement(px, db, now, call).value;
    forall x ensures x in db1.flags && x in db.flags ==>
                       db1.flags[x].archivedAt == db.flags[x].archivedAt && db1.flags[x].deleteAfter == db.flags[x].deleteAfter
             ensures x in stuck ==> x in db1.flags
             ensures x in db1.flags && x !in db.flags ==> db1.flags[x].archivedAt.None? && db1.flags[x].deleteAfter.None?
    {
      FlagCallAddsRemoves(px, db, now, call, x);
      if x in db.flags && x in db1.flags { FlagCallRow(px, db, now, call, x); }
    }
    SameDates(db, db1, limit, now, retention, stuck);
  }

  lemma SameDates(db: Sql.Db, db1: Sql.Db, limit: nat, now: Time, retention: Time, stuck: set<Uuid>)
    requires Jammed(db, limit, now, retention, stuck) && forall x :: x in stuck ==> x in db1.flags
    requires forall x :: x in db1.flags && x in db.flags ==>
               db1.flags[x].archivedAt == db.flags[x].archivedAt && db1.flags[x].deleteAfter == db.flags[x].deleteAfter
    requires forall x :: x in db1.flags && x !in db.flags ==> db1.flags[x].archivedAt.None? && db1.flags[x].deleteAfter.None?
    ensures Jammed(db1, limit, now, retention, stuck)
  {
    forall y | y in stuck ensures y in Sql.OverdueIds(db1, now) && !db1.flags[y].IsArchived() {
      assert y in Sql.OverdueIds(db, now);
    }
    forall y, x | y in stuck && x in db1.flags && x !in stuck ensures Behind(db1.flags[x], db1.flags[y], retention) {
      assert y in Sql.OverdueIds(db, now);
      assert x in db.flags ==> Behind(db.flags[x], db.flags[y], retention);
    }
  }

  lemma DateCallJammed(db: Sql.Db, now: Time, d: DateCall, limit: nat, retention: Time, stuck: set<Uuid>)
    requires Sql.Keyed(db.flags) && Jammed(db, limit, now, retention, stuck) && DateStatement(db, now, d).Ok? && 0 <= retention
    requires Spares(Do(OnDates(d)), stuck) && UsesWindow(Do(OnDates(d)), retention)
    ensures Jammed(DateStatement(db, now, d).value, limit, now, retention, stuck)
  {
    DateCallRow(db, now, d);
    var db1 := DateStatement(db, now, d).value;
    forall y | y in stuck ensures y in Sql.OverdueIds(db1, now) && !db1.flags[y].IsArchived() && db1.flags[y].deleteAfter == db.flags[y].deleteAfter {
      assert y in Sql.OverdueIds(db, now);
    }
    forall y, x | y in stuck && x in db1.flags && x !in stuck ensures Behind(db1.flags[x], db1.flags[y], retention) {
      assert y in Sql.OverdueIds(db, now) && Behind(db.flags[x], db.flags[y], retention);
    }
  }

  lemma StepJammed(px: Platform, w: World, s: Step, limit: nat, retention: Time, stuck: set<Uuid>)
    requires Sql.FlagsOk(px, w.rows.flags) && Possible(w, s.op) && 0 <= retention
    requires Jammed(w.rows, limit, s.now, retention, stuck) && Spares(s.op, stuck) && UsesWindow(s.op, retention)
    ensures Jammed(Next(px, w, s).rows, limit, s.now, retention, stuck)
  {
    if s.op.Do? && Statement(px, w.rows, s.now, s.op.call).Ok? {
      match s.op.call
      case OnFlag(f) => FlagCallJammed(px, w.rows, s.now, f, limit, retention, stuck);
      case OnDates(d) => DateCallJammed(w.rows, s.now, d, limit, retention, stuck);
      case OnLife(_) => SameDates(w.rows, Next(px, w, s).rows, limit, s.now, retention, stuck);
      case _ =>
        OtherCallRows(px, w.rows, s.now, s.op.call);
        SameDates(w.rows, Next(px, w, s).rows, limit, s.now, retention, stuck);
    }
  }

  lemma JammedLater(db: Sql.Db, limit: nat, now: Time, later: Time, retention: Time, stuck: set<Uuid>)
    requires Jammed(db, limit, now, retention, stuck) && now <= later
    ensures Jammed(db, limit, later, retention, stuck)
  {
    forall y | y in stuck ensures y in Sql.OverdueIds(db, later) {
      assert y in Sql.OverdueIds(db, now);
    }
  }

  /** Once jammed, a service stays jammed over every run that leaves the stuck flags as they are: every sweep at every
      later moment deletes nothing, however many flags fall due. */
  lemma {:induction false} JamLasts(px: Platform, ws: seq<World>, steps: seq<Step>, n: nat, start: Time, now: Time,
                                    limit: nat, retention: Time, stuck: set<Uuid>, ids: seq<Uuid>)
    requires Lawful(px) && Run(px, ws, steps) && Sql.Valid(px, ws[0].rows) && OneWindow(steps, retention) && 0 <= retention
    requires Jammed(ws[0].rows, limit, start, retention, stuck) && forall i :: 0 <= i < |steps| ==> start <= steps[i].now && Spares(steps[i].op, stuck)
    requires n <= |steps| && (if n > 0 then steps[n - 1].now <= now else start <= now)
    ensures Jammed(ws[n].rows, limit, now, retention, stuck)
    ensures Sql.DeletionBatch(ws[n].rows, limit, now, ids) ==>
              Swept(px, ws[n], now, ids, retention) == ws[n] && Tombstones(px, ws[n], now, ids, retention) == []
    decreases n
  {
    if n > 0 {
      var s := steps[n - 1];
      JamLasts(px, ws, steps, n - 1, start, s.now, limit, retention, stuck, ids);
      AlwaysValid(px, ws, steps, n - 1);
      assert ws[n] == Next(px, ws[n - 1], s) && Possible(ws[n - 1], s.op);
      assert UsesWindow(s.op, retention);
      StepJammed(px, ws[n - 1], s, limit, retention, stuck);
      JammedLater(ws[n].rows, limit, s.now, now, retention, stuck);
    } else {
      JammedLater(ws[0].rows, limit, start, now, retention, stuck);
    }
    if Sql.DeletionBatch(ws[n].rows, limit, now, ids) {
      JammedSweepDoesNothing(px, ws[n], limit, now, ids, retention, stuck);
    }
  }
}
