/** The audit trail as a history: one environment state of one flag, among everything else that happens. */
module Trails {
  import opened Model
  import Cache
  import opened Service
  import opened Undo
  import opened UndoLaws
  import Sql = Store

  /** Something audited is done or reverted, or the service is called behind the trail's back. */
  datatype Act = Ask(r: Command) | Revert(i: nat, force: bool) | Call(call: Write)

  datatype Step = Step(now: Time, act: Act)

  function Next(px: Platform, d: Desk, s: Step): Desk {
    match s.act
    case Ask(r) => Performed(px, d, s.now, r).0
    case Revert(i, force) => Undone(px, d, s.now, i, force).0
    case Call(call) => d.(world := Serve(px, d.world, s.now, call))
  }

  /** An entry of the trail about environment states. */
  predicate EnvEntry(a: Entry) { a.entityType == FLAG && (a.action == FlagEnvUpdated || a.action == Reverted(FlagEnvUpdated)) }

  predicate About(a: Entry, f: Uuid, e: Uuid) { EnvEntry(a) && a.entityId == f && a.newValue.FlagEnvIs? && a.newValue.envId == e }

  /** Values come from decoded requests, entries about (f, e) are reverted without force, and the flag is not deleted. */
  predicate Allowed(px: Platform, d: Desk, s: Step, f: Uuid, e: Uuid) {
    match s.act
    case Ask(SetFlagEnv(f1, e1, _, v)) => f1 == f && e1 == e ==> Sendable(px, v)
    case Ask(_) => true
    case Revert(i, force) => force && i < |d.trail| ==> !About(d.trail[i], f, e)
    case Call(OnFlag(HardDeleteFlag(id, _))) => id != f
    case Call(OnRules(SetFlagEnvState(f1, e1, v))) => f1 == f && e1 == e ==> Sendable(px, v.value)
    case Call(_) => true
  }

  // ---------------------------------------------------------------- what a call makes of the row

  /** The calls that write the row of (f, e). */
  predicate WritesEnv(call: Write, f: Uuid, e: Uuid) {
    match call
    case OnFlag(HardDeleteFlag(id, _)) => id == f
    case OnLife(l) => Failing(l) && l.id == f
    case OnRules(SetFlagEnvState(f1, e1, _)) => f1 == f && e1 == e
    case _ => false
  }

  lemma RowKept(px: Platform, db: Sql.Db, now: Time, call: Write, f: Uuid, e: Uuid)
    requires Statement(px, db, now, call).Ok? && !WritesEnv(call, f, e)
    ensures Sql.EnvStateOf(Statement(px, db, now, call).value, f, e) == Sql.EnvStateOf(db, f, e)
  {
  }

  /** A call that is allowed leaves the row there and plain. */
  lemma RowStays(px: Platform, db: Sql.Db, now: Time, call: Write, f: Uuid, e: Uuid)
    requires Lawful(px) && Statement(px, db, now, call).Ok? && Plain(px, Sql.EnvStateOf(db, f, e))
    requires Allowed(px, Desk(World(db, Cache.EMPTY), []), Step(now, Call(call)), f, e)
    ensures var row := Sql.EnvStateOf(Statement(px, db, now, call).value, f, e);
            Plain(px, row) && (Sql.EnvStateOf(db, f, e).Some? ==> row.Some?)
  {
    if !WritesEnv(call, f, e) {
      RowKept(px, db, now, call, f, e);
    }
  }

  // ---------------------------------------------------------------- the invariant

  ghost predicate EntryOk(px: Platform, a: Entry, f: Uuid, e: Uuid) {
    EnvEntry(a) ==>
      && a.newValue.FlagEnvIs?
      && (a.oldValue.Nothing? || (a.oldValue.FlagEnvIs? && a.oldValue.envId == a.newValue.envId))
      && (About(a, f, e) ==> Sendable(px, a.newValue.value) && (a.oldValue.FlagEnvIs? ==> Sendable(px, a.oldValue.value)))
  }

  ghost predicate TrailOk(px: Platform, d: Desk, f: Uuid, e: Uuid) {
    && Plain(px, RowOf(d, f, e))
    && (forall k :: 0 <= k < |d.trail| ==> EntryOk(px, d.trail[k], f, e))
    && ((exists k :: 0 <= k < |d.trail| && About(d.trail[k], f, e)) ==> RowOf(d, f, e).Some?)
  }

  /** The new entry says what the row was and what it is. */
  ghost predicate Truthful(px: Platform, d: Desk, d1: Desk, a: Entry, f: Uuid, e: Uuid) {
    && d1.trail == d.trail + [a] && About(a, f, e)
    && Denotes(px, e, a.oldValue, RowOf(d, f, e)) && Denotes(px, e, a.newValue, RowOf(d1, f, e))
  }

  /** Nothing is said about (f, e), and nothing that is audited happened to it. */
  ghost predicate Silent(d: Desk, d1: Desk, s: Step, f: Uuid, e: Uuid) {
    && (d1.trail == d.trail || (|d1.trail| == |d.trail| + 1 && d1.trail == d.trail + [d1.trail[|d.trail|]] && !About(d1.trail[|d.trail|], f, e)))
    && (RowOf(d1, f, e) == RowOf(d, f, e) || (s.act.Call? && WritesEnv(s.act.call, f, e)))
  }

  ghost predicate Fair(px: Platform, d: Desk, d1: Desk, s: Step, f: Uuid, e: Uuid) {
    Silent(d, d1, s, f, e) || (|d1.trail| > 0 && Truthful(px, d, d1, d1.trail[|d1.trail| - 1], f, e))
  }

  // ---------------------------------------------------------------- one step

  /** The trail grows by an entry about something else, and the row stays. */
  lemma OtherEntry(px: Platform, d: Desk, d1: Desk, a: Entry, f: Uuid, e: Uuid)
    requires TrailOk(px, d, f, e) && d1.trail == d.trail + [a] && !About(a, f, e) && EntryOk(px, a, f, e)
    requires RowOf(d1, f, e) == RowOf(d, f, e)
    ensures TrailOk(px, d1, f, e)
  {
    if k :| 0 <= k < |d1.trail| && About(d1.trail[k], f, e) {
      assert About(d.trail[k], f, e);
    }
  }

  lemma OwnEntry(px: Platform, d: Desk, d1: Desk, a: Entry, f: Uuid, e: Uuid)
    requires TrailOk(px, d, f, e) && Truthful(px, d, d1, a, f, e) && EntryOk(px, a, f, e) && Plain(px, RowOf(d1, f, e))
    ensures TrailOk(px, d1, f, e)
  {
  }

  /** The call of a command writes the row only for SetFlagEnv of (f, e). */
  lemma CommandCall(db: Sql.Db, r: Command, f: Uuid, e: Uuid)
    requires CallOf(db, r).Ok?
    ensures WritesEnv(CallOf(db, r).value, f, e) ==> r.SetFlagEnv? && r.flagId == f && r.envId == e
  {
  }

  lemma AskOther(px: Platform, d: Desk, now: Time, r: Command, f: Uuid, e: Uuid)
    requires TrailOk(px, d, f, e) && !(r.SetFlagEnv? && r.flagId == f && r.envId == e)
    ensures var d1 := Performed(px, d, now, r).0; TrailOk(px, d1, f, e) && Silent(d, d1, Step(now, Ask(r)), f, e)
  {
    var (d1, err) := Performed(px, d, now, r);
    if err.None? {
      var call := CallOf(d.world.rows, r).value;
      CommandCall(d.world.rows, r, f, e);
      if Statement(px, d.world.rows, now, call).Ok? {
        RowKept(px, d.world.rows, now, call, f, e);
      }
      OtherEntryOf(px, d.world.rows, r, f, e);
      OtherEntry(px, d, d1, EntryOf(px, d.world.rows, r), f, e);
    }
  }

  lemma OtherEntryOf(px: Platform, db: Sql.Db, r: Command, f: Uuid, e: Uuid)
    requires !(r.SetFlagEnv? && r.flagId == f && r.envId == e)
    ensures !About(EntryOf(px, db, r), f, e) && EntryOk(px, EntryOf(px, db, r), f, e)
  {
  }

  lemma AskOwn(px: Platform, d: Desk, now: Time, on: bool, v: Option<string>, f: Uuid, e: Uuid)
    requires Lawful(px) && TrailOk(px, d, f, e) && Sendable(px, v)
    ensures var (d1, err) := Performed(px, d, now, SetFlagEnv(f, e, on, v));
            TrailOk(px, d1, f, e) && if err.Some? then d1 == d else Truthful(px, d, d1, EntryOf(px, d.world.rows, SetFlagEnv(f, e, on, v)), f, e)
  {
    var (d1, err) := Performed(px, d, now, SetFlagEnv(f, e, on, v));
    if err.None? {
      EnvSet(px, d, now, f, e, on, v);
      SetEntry(px, d, f, e, on, v);
      RecordedDenotes(px, v);
      OwnEntry(px, d, d1, EntryOf(px, d.world.rows, SetFlagEnv(f, e, on, v)), f, e);
    }
  }

  /** The call of a handler writes the row only for an environment entry. */
  lemma PlanCall(px: Platform, db: Sql.Db, a: Entry, force: bool, f: Uuid, e: Uuid)
    requires PlanFor(px, db, a, force).Ok? && PlanFor(px, db, a, force).value.Some?
    ensures WritesEnv(PlanFor(px, db, a, force).value.value, f, e) ==>
              a.action == FlagEnvUpdated && a.entityType == FLAG && a.entityId == f && a.oldValue.FlagEnvIs? && a.oldValue.envId == e
  {
  }

  /** A revert of an entry that is not about (f, e). */
  lemma RevertOther(px: Platform, d: Desk, now: Time, i: nat, force: bool, f: Uuid, e: Uuid)
    requires TrailOk(px, d, f, e) && i < |d.trail| && !About(d.trail[i], f, e)
    ensures var d1 := Undone(px, d, now, i, force).0; TrailOk(px, d1, f, e) && Silent(d, d1, Step(now, Revert(i, force)), f, e)
  {
    var a := d.trail[i];
    var (d1, err) := Undone(px, d, now, i, force);
    var plan := PlanFor(px, d.world.rows, a, force);
    assert EntryOk(px, a, f, e);
    if err.None? {
      if plan.value.Some? {
        PlanCall(px, d.world.rows, a, force, f, e);
        if Statement(px, d.world.rows, now, plan.value.value).Ok? {
          RowKept(px, d.world.rows, now, plan.value.value, f, e);
        }
      }
      OtherUndoEntry(px, d.world.rows, a, force, f, e);
      OtherEntry(px, d, d1, UndoEntry(a), f, e);
    }
  }

  lemma OtherUndoEntry(px: Platform, db: Sql.Db, a: Entry, force: bool, f: Uuid, e: Uuid)
    requires EntryOk(px, a, f, e) && !About(a, f, e) && PlanFor(px, db, a, force).Ok?
    ensures !About(UndoEntry(a), f, e) && EntryOk(px, UndoEntry(a), f, e)
  {
  }

  lemma RevertOwn(px: Platform, d: Desk, now: Time, i: nat, f: Uuid, e: Uuid)
    requires Lawful(px) && TrailOk(px, d, f, e) && i < |d.trail| && About(d.trail[i], f, e)
    ensures var (d1, err) := Undone(px, d, now, i, false);
            TrailOk(px, d1, f, e) && if err.Some? then d1 == d else Truthful(px, d, d1, UndoEntry(d.trail[i]), f, e)
  {
    var a := d.trail[i];
    var (d1, err) := Undone(px, d, now, i, false);
    assert EntryOk(px, a, f, e) && RowOf(d, f, e).Some?;
    if err.None? {
      EnvUndone(px, d, now, i);
      GuardMeansCurrent(px, e, RowOf(d, f, e).value, a.newValue);
      OwnEntry(px, d, d1, UndoEntry(a), f, e);
    }
  }

  lemma CallSilent(px: Platform, d: Desk, now: Time, call: Write, f: Uuid, e: Uuid)
    requires Lawful(px) && TrailOk(px, d, f, e) && Allowed(px, d, Step(now, Call(call)), f, e)
    ensures var d1 := Next(px, d, Step(now, Call(call))); TrailOk(px, d1, f, e) && Silent(d, d1, Step(now, Call(call)), f, e)
  {
    if Statement(px, d.world.rows, now, call).Ok? {
      RowStays(px, d.world.rows, now, call, f, e);
      if !WritesEnv(call, f, e) {
        RowKept(px, d.world.rows, now, call, f, e);
      }
    }
  }

  /** Every step says the truth about (f, e), or says nothing because nothing audited happened to it. */
  lemma StepFair(px: Platform, d: Desk, s: Step, f: Uuid, e: Uuid)
    requires Lawful(px) && TrailOk(px, d, f, e) && Allowed(px, d, s, f, e)
    ensures TrailOk(px, Next(px, d, s), f, e) && Fair(px, d, Next(px, d, s), s, f, e)
  {
    match s.act
    case Ask(r) =>
      if r.SetFlagEnv? && r.flagId == f && r.envId == e {
        AskOwn(px, d, s.now, r.enabled, r.value, f, e);
      } else {
        AskOther(px, d, s.now, r, f, e);
      }
    case Revert(i, force) =>
      if i < |d.trail| {
        if About(d.trail[i], f, e) { RevertOwn(px, d, s.now, i, f, e); } else { RevertOther(px, d, s.now, i, force, f, e); }
      }
    case Call(call) => CallSilent(px, d, s.now, call, f, e);
  }

  // ---------------------------------------------------------------- runs

  /** ds[i] is the desk before steps[i]. */
  ghost predicate Run(px: Platform, ds: seq<Desk>, steps: seq<Step>, f: Uuid, e: Uuid) {
    && |ds| == |steps| + 1 && TrailOk(px, ds[0], f, e)
    && forall i :: 0 <= i < |steps| ==> Allowed(px, ds[i], steps[i], f, e) && ds[i + 1] == Next(px, ds[i], steps[i])
  }

  lemma {:induction false} AlwaysOk(px: Platform, ds: seq<Desk>, steps: seq<Step>, f: Uuid, e: Uuid, n: nat)
    requires Lawful(px) && Run(px, ds, steps, f, e) && n <= |steps|
    ensures TrailOk(px, ds[n], f, e)
  {
    if n > 0 {
      AlwaysOk(px, ds, steps, f, e, n - 1);
      StepFair(px, ds[n - 1], steps[n - 1], f, e);
    }
  }

  /** Over every run, whatever else is done, reverted or called in between: an entry about (f, e) is added only with an old
      value that is the row just before and a new value that is the row just after. */
  lemma EntriesTruthful(px: Platform, ds: seq<Desk>, steps: seq<Step>, f: Uuid, e: Uuid, n: nat)
    requires Lawful(px) && Run(px, ds, steps, f, e) && n < |steps|
    ensures Fair(px, ds[n], ds[n + 1], steps[n], f, e)
  {
    AlwaysOk(px, ds, steps, f, e, n);
    StepFair(px, ds[n], steps[n], f, e);
  }

  // ---------------------------------------------------------------- the trail of one row

  function Projected(trail: seq<Entry>, f: Uuid, e: Uuid): seq<Entry> {
    if trail == [] then []
    else Projected(trail[..|trail| - 1], f, e) + if About(trail[|trail| - 1], f, e) then [trail[|trail| - 1]] else []
  }

  /** The row, and what the trail says about it. */
  datatype View = View(row: Option<EnvState>, said: seq<Entry>)

  function ViewOf(d: Desk, f: Uuid, e: Uuid): View { View(RowOf(d, f, e), Projected(d.trail, f, e)) }

  /** v1 is v, or v with one more entry that leads from the one row to the other. */
  ghost predicate Onward(px: Platform, v: View, v1: View, e: Uuid) {
    v1 == v || (|v1.said| == |v.said| + 1 && v1.said[..|v.said|] == v.said
                && Denotes(px, e, v1.said[|v.said|].oldValue, v.row) && Denotes(px, e, v1.said[|v.said|].newValue, v1.row) && v1.row.Some?)
  }

  /** rows[k] and rows[k + 1] surround entry k. */
  ghost predicate Explains(px: Platform, rows: seq<Option<EnvState>>, said: seq<Entry>, e: Uuid) {
    && |rows| == |said| + 1
    && forall k :: 0 <= k < |said| ==>
         Denotes(px, e, said[k].oldValue, rows[k]) && Denotes(px, e, said[k].newValue, rows[k + 1])
  }

  /** The rows the views go through, one more for every entry. */
  function RowsThrough(vs: seq<View>): (rows: seq<Option<EnvState>>)
    requires vs != []
    ensures rows != [] && rows[|rows| - 1] == vs[|vs| - 1].row
    decreases |vs|
  {
    var n := |vs| - 1;
    if n == 0 then [vs[0].row]
    else if vs[n] == vs[n - 1] then RowsThrough(vs[..n])
    else RowsThrough(vs[..n]) + [vs[n].row]
  }

  lemma {:induction false} ViewsExplain(px: Platform, vs: seq<View>, e: Uuid)
    requires vs != [] && vs[0].said == [] && forall i :: 0 <= i < |vs| - 1 ==> Onward(px, vs[i], vs[i + 1], e)
    ensures Explains(px, RowsThrough(vs), vs[|vs| - 1].said, e) && RowsThrough(vs)[0] == vs[0].row
    ensures forall k :: 0 < k < |RowsThrough(vs)| ==> RowsThrough(vs)[k].Some?
    decreases |vs|
  {
    var n := |vs| - 1;
    if n > 0 {
      var before := vs[..n];
      forall i | 0 <= i < |before| - 1 ensures Onward(px, before[i], before[i + 1], e) {
        assert Onward(px, vs[i], vs[i + 1], e);
      }
      ViewsExplain(px, before, e);
      assert Onward(px, vs[n - 1], vs[n], e);
    }
  }

  /** Writing the audited new values in order, over a row. */
  function Replayed(px: Platform, row: Option<EnvState>, said: seq<Entry>): Option<EnvState>
    decreases |said|
  {
    if said == [] then row
    else
      var p := said[|said| - 1].newValue;
      if p.FlagEnvIs? then Some(EnvState(p.enabled, Stored(px, p.value))) else Replayed(px, row, said[..|said| - 1])
  }

  lemma ReplayFollows(px: Platform, rows: seq<Option<EnvState>>, said: seq<Entry>, e: Uuid)
    requires Explains(px, rows, said, e) && forall k :: 0 < k < |rows| ==> rows[k].Some?
    ensures Replayed(px, rows[0], said) == rows[|said|]
  {
  }

  /** No call behind the trail's back writes the row. */
  predicate Watched(steps: seq<Step>, f: Uuid, e: Uuid) {
    forall i :: 0 <= i < |steps| && steps[i].act.Call? ==> !WritesEnv(steps[i].act.call, f, e)
  }

  lemma FairView(px: Platform, d: Desk, d1: Desk, s: Step, f: Uuid, e: Uuid)
    requires Fair(px, d, d1, s, f, e) && TrailOk(px, d1, f, e) && (s.act.Call? ==> !WritesEnv(s.act.call, f, e))
    ensures Onward(px, ViewOf(d, f, e), ViewOf(d1, f, e), e)
  {
    if !Silent(d, d1, s, f, e) {
      var a := d1.trail[|d1.trail| - 1];
      assert d1.trail[..|d.trail|] == d.trail && About(d1.trail[|d.trail|], f, e);
    } else if d1.trail != d.trail {
      assert d1.trail[..|d.trail|] == d.trail;
    }
  }

  /** Where nothing but the audited endpoints and reverts writes the row, the entries about it, picked out of the trail, are
      its history: the rows surround them one by one, and writing their new values over the first row gives the last. */
  lemma TrailIsHistory(px: Platform, ds: seq<Desk>, steps: seq<Step>, f: Uuid, e: Uuid) returns (rows: seq<Option<EnvState>>)
    requires Lawful(px) && Run(px, ds, steps, f, e) && Watched(steps, f, e) && Projected(ds[0].trail, f, e) == []
    ensures var first, last := RowOf(ds[0], f, e), RowOf(ds[|steps|], f, e); var said := Projected(ds[|steps|].trail, f, e);
            && Explains(px, rows, said, e) && rows[0] == first && rows[|said|] == last
            && Replayed(px, first, said) == last
  {
    var vs := seq(|ds|, i requires 0 <= i < |ds| => ViewOf(ds[i], f, e));
    forall i | 0 <= i < |vs| - 1 ensures Onward(px, vs[i], vs[i + 1], e) {
      EntriesTruthful(px, ds, steps, f, e, i);
      AlwaysOk(px, ds, steps, f, e, i + 1);
      FairView(px, ds[i], ds[i + 1], steps[i], f, e);
    }
    ViewsExplain(px, vs, e);
    rows := RowsThrough(vs);
    ReplayFollows(px, rows, Projected(ds[|steps|].trail, f, e), e);
  }
}
