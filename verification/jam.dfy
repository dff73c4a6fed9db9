/** How a service comes to stop deleting: a hundred flags archived, queued and taken back are enough. */
module Jams {
  import opened Model
  import opened Cache
  import opened Service
  import opened Runs
  import opened Retention
  import opened Undo
  import Sql = Store

  const LIMIT: nat := 100
  const PLAIN := Settings("n", "", Boolean, Feature, "", Some([]), Some([]), true, None)

  /** The i-th flag, under a key of its own length. */
  function Plain(i: nat): Flag {
    Flag(i, 1, None, None, seq(i, _ => 'k'), PLAIN, false, "true", None, None, FRESH_LIFECYCLE)
  }

  /** Created, archived, queued and unarchived at time 0: active, with a date. */
  function StuckFlag(i: nat): Flag { Plain(i).(deleteAfter := Some(RETENTION_WINDOW)) }

  function Flags(n: nat): map<Uuid, Flag> { map i: nat | 1 <= i <= n :: StuckFlag(i) }

  function Tables(flags: map<Uuid, Flag>): Sql.Db { Sql.EMPTY.(flags := flags) }

  /** A run goes on with one more call. */
  lemma OneMore(px: Platform, ws: seq<World>, steps: seq<Step>, call: Write, now: Time) returns (ws1: seq<World>)
    requires Run(px, ws, steps) && forall i :: 0 <= i < |steps| ==> steps[i].now <= now
    ensures Run(px, ws1, steps + [Step(now, Do(call))])
    ensures ws1 == ws + [Serve(px, ws[|steps|], now, call)]
  {
    ws1 := ws + [Serve(px, ws[|steps|], now, call)];
    var steps1 := steps + [Step(now, Do(call))];
    forall i | 0 <= i < |steps1| ensures Possible(ws1[i], steps1[i].op) && ws1[i + 1] == Next(px, ws1[i], steps1[i]) {
      if i < |steps| { assert steps1[i] == steps[i] && ws1[i] == ws[i] && ws1[i + 1] == ws[i + 1]; }
    }
  }

  ghost predicate Ready(px: Platform, ws: seq<World>, steps: seq<Step>, flags: map<Uuid, Flag>, now: Time) {
    && Run(px, ws, steps) && ws[0] == World(Sql.EMPTY, EMPTY)
    && (forall i :: 0 <= i < |steps| ==> steps[i].now <= now && UsesWindow(steps[i].op, RETENTION_WINDOW))
    && ws[|steps|].rows == Tables(flags)
  }

  lemma Extend(px: Platform, ws: seq<World>, steps: seq<Step>, flags: map<Uuid, Flag>, before: Time, call: Write, now: Time,
               flags1: map<Uuid, Flag>) returns (ws1: seq<World>, steps1: seq<Step>)
    requires Ready(px, ws, steps, flags, before) && before <= now && UsesWindow(Do(call), RETENTION_WINDOW)
    requires Statement(px, Tables(flags), now, call) == Ok(Tables(flags1))
    ensures Ready(px, ws1, steps1, flags1, now)
  {
    ws1 := OneMore(px, ws, steps, call, now);
    steps1 := steps + [Step(now, Do(call))];
    assert Run(px, ws1, steps1);
    assert ws1[|steps1|] == Serve(px, ws[|steps|], now, call);
  }

  /** No flag of the table has this key yet. */
  ghost predicate NewKey(flags: map<Uuid, Flag>, i: nat) {
    i !in flags && forall x :: x in flags ==> flags[x].key != Plain(i).key
  }

  lemma Created(px: Platform, flags: map<Uuid, Flag>, now: Time, i: nat)
    requires px.jsonb("true") == Some("true") && NewKey(flags, i) && 0 < i <= 200
    ensures Statement(px, Tables(flags), now, OnFlag(CreateFlag(Plain(i)))) == Ok(Tables(flags[i := Plain(i)]))
  {
    assert Plain(i).Valid();
  }

  lemma Dated(px: Platform, flags: map<Uuid, Flag>, i: nat, f: Flag, d: DateCall, now: Time)
    requires f.id == i && DateStatement(Tables(flags[i := f]), now, d).Ok? && d.id == i
    ensures Statement(px, Tables(flags[i := f]), now, OnDates(d)) == Ok(Tables(flags[i := DateRow(f, now, d)]))
  {
    DateCallRow(Tables(flags[i := f]), now, d);
    assert flags[i := f][i := DateRow(f, now, d)] == flags[i := DateRow(f, now, d)];
  }

  /** One more flag is created, archived and queued at the given time. */
  lemma Queued(px: Platform, ws: seq<World>, steps: seq<Step>, flags: map<Uuid, Flag>, before: Time, i: nat, now: Time)
    returns (ws1: seq<World>, steps1: seq<Step>)
    requires px.jsonb("true") == Some("true") && Ready(px, ws, steps, flags, before) && before <= now
    requires NewKey(flags, i) && 0 < i <= 200
    ensures Ready(px, ws1, steps1, flags[i := Plain(i).(archivedAt := Some(now), deleteAfter := Some(now + RETENTION_WINDOW))], now)
  {
    var f := Plain(i);
    var g := f.(archivedAt := Some(now));
    Created(px, flags, now, i);
    ws1, steps1 := Extend(px, ws, steps, flags, before, OnFlag(CreateFlag(f)), now, flags[i := f]);
    Dated(px, flags, i, f, ArchiveFlag(i), now);
    ws1, steps1 := Extend(px, ws1, steps1, flags[i := f], now, OnDates(ArchiveFlag(i)), now, flags[i := g]);
    Dated(px, flags, i, g, QueueDeletion(i, RETENTION_WINDOW), now);
    ws1, steps1 := Extend(px, ws1, steps1, flags[i := g], now, OnDates(QueueDeletion(i, RETENTION_WINDOW)), now,
                          flags[i := g.(deleteAfter := Some(now + RETENTION_WINDOW))]);
  }

  lemma KeyIsNew(n: nat)
    ensures NewKey(Flags(n), n + 1)
  {
    forall x | x in Flags(n) ensures Flags(n)[x].key != Plain(n + 1).key {
      assert |Flags(n)[x].key| == x < |Plain(n + 1).key|;
    }
  }

  /** n flags later. */
  lemma {:induction false} Stuck(px: Platform, n: nat) returns (ws: seq<World>, steps: seq<Step>)
    requires px.jsonb("true") == Some("true") && n <= 200
    ensures Ready(px, ws, steps, Flags(n), 0)
  {
    if n == 0 {
      ws, steps := [World(Sql.EMPTY, EMPTY)], [];
      assert Flags(0) == map[];
    } else {
      ws, steps := Stuck(px, n - 1);
      KeyIsNew(n - 1);
      ws, steps := Queued(px, ws, steps, Flags(n - 1), 0, n, 0);
      var g := Plain(n).(archivedAt := Some(0), deleteAfter := Some(RETENTION_WINDOW));
      Dated(px, Flags(n - 1), n, g, UnarchiveFlag(n), 0);
      assert Flags(n) == Flags(n - 1)[n := StuckFlag(n)];
      ws, steps := Extend(px, ws, steps, Flags(n - 1)[n := g], 0, OnDates(UnarchiveFlag(n)), 0, Flags(n));
    }
  }

  function Ids(n: nat): set<Uuid> { Flags(n).Keys }

  lemma {:induction false} IdsSize(n: nat)
    ensures |Ids(n)| == n
  {
    if n > 0 {
      IdsSize(n - 1);
      assert Ids(n) == Ids(n - 1) + {n};
    }
  }

  /** The flag that should be deleted, archived and queued a nanosecond after the others. */
  const VICTIM: nat := LIMIT + 1

  function AfterAll(): map<Uuid, Flag> {
    Flags(LIMIT)[VICTIM := Plain(VICTIM).(archivedAt := Some(1), deleteAfter := Some(1 + RETENTION_WINDOW))]
  }

  lemma AfterAllJammed(later: Time)
    requires later > 1 + RETENTION_WINDOW
    ensures Jammed(Tables(AfterAll()), LIMIT, later, RETENTION_WINDOW, Ids(LIMIT))
    ensures Sql.Overdue(AfterAll()[VICTIM], later) && Sql.Deletable(AfterAll()[VICTIM], RETENTION_WINDOW, later)
  {
    IdsSize(LIMIT);
    forall y | y in Ids(LIMIT) ensures y in AfterAll() && AfterAll()[y] == StuckFlag(y) {}
    forall x | x in AfterAll() && x !in Ids(LIMIT) ensures x == VICTIM {}
  }

  /** From empty tables and by calls of the service alone, a state is reached in which a flag is archived, queued and past
      its retention, and a sweep deletes nothing, at any time from then on. */
  lemma JamReached(px: Platform, later: Time, ids: seq<Uuid>) returns (ws: seq<World>, steps: seq<Step>)
    requires px.jsonb("true") == Some("true") && later > 1 + RETENTION_WINDOW
    ensures Run(px, ws, steps) && ws[0] == World(Sql.EMPTY, EMPTY) && forall i :: 0 <= i < |steps| ==> steps[i].now <= 1
    ensures var w := ws[|steps|];
            && VICTIM in w.rows.flags && Sql.Overdue(w.rows.flags[VICTIM], later) && Sql.Deletable(w.rows.flags[VICTIM], RETENTION_WINDOW, later)
            && Jammed(w.rows, LIMIT, later, RETENTION_WINDOW, Ids(LIMIT))
            && (Sql.DeletionBatch(w.rows, LIMIT, later, ids) ==> Swept(px, w, later, ids, RETENTION_WINDOW) == w)
  {
    ws, steps := Stuck(px, LIMIT);
    KeyIsNew(LIMIT);
    ws, steps := Queued(px, ws, steps, Flags(LIMIT), 0, VICTIM, 1);
    AfterAllJammed(later);
    var w := ws[|steps|];
    if Sql.DeletionBatch(w.rows, LIMIT, later, ids) {
      JammedSweepDoesNothing(px, w, LIMIT, later, ids, RETENTION_WINDOW, Ids(LIMIT));
    }
  }
}
