/** Runs of service calls, evaluations, warm-ups and passing time; the cache never disagrees with the rows. */
module Runs {
  import opened Model
  import opened Cache
  import opened Evaluation
  import opened Repository
  import opened Service
  import Sql = Store

  // ---------------------------------------------------------------- the schema survives every call

  lemma PutFlagValid(px: Platform, db: Sql.Db, f: Flag)
    requires Sql.Valid(px, db) && f.id in db.flags && Sql.StoredFlag(px, f)
    requires f.projectId == db.flags[f.id].projectId && f.key == db.flags[f.id].key
    ensures Sql.Valid(px, Sql.PutFlag(db, f))
  {
  }

  lemma CreateFlagValid(px: Platform, db: Sql.Db, f: Flag)
    requires Lawful(px) && Sql.Valid(px, db) && Sql.CreateFlag(px, db, f).Ok?
    ensures Sql.Valid(px, Sql.CreateFlag(px, db, f).value)
  {
  }

  lemma LifecycleValid(px: Platform, db: Sql.Db, id: Uuid, p: Sql.LifecyclePatch, everywhere: bool)
    requires Sql.Valid(px, db) && id in db.flags
    ensures Sql.Valid(px, Sql.UpdateFlagLifecycle(db, id, p, everywhere).value)
  {
  }

  lemma WithoutFlagValid(px: Platform, db: Sql.Db, id: Uuid)
    requires Sql.Valid(px, db)
    ensures Sql.Valid(px, Sql.WithoutFlag(db, id))
  {
  }

  lemma UpdateFlagValid(px: Platform, db: Sql.Db, f: Flag)
    requires Lawful(px) && Sql.Valid(px, db) && Sql.UpdateFlag(px, db, f).Ok?
    ensures Sql.Valid(px, Sql.UpdateFlag(px, db, f).value)
  {
  }

  lemma CreateRuleValid(px: Platform, db: Sql.Db, r: Rule)
    requires Sql.Valid(px, db) && Sql.CreateRule(db, r).Ok?
    ensures Sql.Valid(px, Sql.CreateRule(db, r).value)
  {
  }

  lemma UpdateRuleValid(px: Platform, db: Sql.Db, r: Rule)
    requires Sql.Valid(px, db) && Sql.UpdateRule(db, r).Ok?
    ensures Sql.Valid(px, Sql.UpdateRule(db, r).value)
  {
  }

  lemma DeleteRuleValid(px: Platform, db: Sql.Db, id: Uuid)
    requires Sql.Valid(px, db) && id in db.rules
    ensures Sql.Valid(px, Sql.DeleteRule(db, id).value)
  {
  }

  lemma EnvWriteValid(px: Platform, db: Sql.Db, a: Uuid, e: Uuid, s: EnvState, on: bool)
    requires Lawful(px) && Sql.Valid(px, db)
    ensures var w := Sql.UpsertFlagEnvState(px, db, a, e, s); w.Ok? ==> Sql.Valid(px, w.value)
    ensures var w := Sql.SetRuleEnvironmentState(db, a, e, on); w.Ok? ==> Sql.Valid(px, w.value)
  {
  }

  lemma SegmentWriteValid(px: Platform, db: Sql.Db, s: Segment)
    requires Sql.Valid(px, db)
    ensures Sql.CreateSegment(db, s).Ok? ==> Sql.Valid(px, Sql.CreateSegment(db, s).value)
    ensures Sql.UpdateSegment(db, s).Ok? ==> Sql.Valid(px, Sql.UpdateSegment(db, s).value)
    ensures Sql.DeleteSegment(db, s.id).Ok? ==> Sql.Valid(px, Sql.DeleteSegment(db, s.id).value)
  {
  }

  function DateRow(f: Flag, now: Time, call: DateCall): Flag {
    match call
    case ArchiveFlag(_) => f.(archivedAt := Some(now))
    case UnarchiveFlag(_) => f.(archivedAt := None)
    case QueueDeletion(_, r) => if f.archivedAt.Some? then f.(deleteAfter := Some(f.archivedAt.value + r)) else f
    case ClearDeleteAfter(_) => f.(deleteAfter := None)
    case RestoreFlag(_) => f.(archivedAt := None, deleteAfter := None)
    case MarkFlagRemovalFired(_, at) => f.(life := f.life.(firedAt := Some(at)))
  }

  lemma DateCallRow(db: Sql.Db, now: Time, call: DateCall)
    requires DateStatement(db, now, call).Ok?
    ensures DateStatement(db, now, call).value
            == if call.id in db.flags then Sql.PutFlag(db, DateRow(db.flags[call.id], now, call)) else db
  {
  }

  lemma DateCallValid(px: Platform, db: Sql.Db, now: Time, call: DateCall)
    requires DateStatement(db, now, call).Ok? && Sql.Valid(px, db)
    ensures Sql.Valid(px, DateStatement(db, now, call).value)
  {
    DateCallRow(db, now, call);
    if call.id in db.flags {
      PutFlagValid(px, db, DateRow(db.flags[call.id], now, call));
    }
  }

  lemma FlagCallValid(px: Platform, db: Sql.Db, now: Time, call: FlagCall)
    requires Lawful(px) && Sql.Valid(px, db) && FlagStatement(px, db, now, call).Ok?
    ensures Sql.Valid(px, FlagStatement(px, db, now, call).value)
  {
    match call
    case CreateFlag(f) => CreateFlagValid(px, db, f);
    case UpdateFlag(f) => UpdateFlagValid(px, db, f);
    case ToggleFlag(id, on) => UpdateFlagValid(px, db, db.flags[id].(enabled := on));
    case HardDeleteFlag(id, _) => WithoutFlagValid(px, db, id);
  }

  lemma RuleCallValid(px: Platform, db: Sql.Db, call: RuleCall)
    requires Lawful(px) && Sql.Valid(px, db) && RuleStatement(px, db, call).Ok?
    ensures Sql.Valid(px, RuleStatement(px, db, call).value)
  {
    match call
    case AddRule(r) => CreateRuleValid(px, db, r);
    case UpdateRule(r) => UpdateRuleValid(px, db, r);
    case DeleteRule(id) => DeleteRuleValid(px, db, id);
    case SetFlagEnvState(f, e, s) => EnvWriteValid(px, db, f, e, s, true);
    case SetRuleEnvironmentState(r, e, on) => EnvWriteValid(px, db, r, e, EnvState(on, None), on);
  }

  /** Whatever a mutator writes, the schema's constraints hold afterwards. */
  lemma StatementValid(px: Platform, db: Sql.Db, now: Time, call: Write)
    requires Lawful(px) && Sql.Valid(px, db) && Statement(px, db, now, call).Ok?
    ensures Sql.Valid(px, Statement(px, db, now, call).value)
  {
    match call
    case OnFlag(f) => FlagCallValid(px, db, now, f);
    case OnDates(d) => DateCallValid(px, db, now, d);
    case OnLife(l) => LifecycleValid(px, db, l.id, PatchOf(now, l), Failing(l));
    case OnRules(r) => RuleCallValid(px, db, r);
    case OnSegments(s) => SegmentWriteValid(px, db, if s.DeleteSegment? then db.segments[s.id] else s.segment);
  }

  // ---------------------------------------------------------------- what a call leaves alone

  /** Nothing an evaluation of another flag reads differs. */
  ghost predicate OnlyFlag(db: Sql.Db, db1: Sql.Db, x: Uuid) {
    && db1.segments == db.segments
    && (forall id | id != x :: id in db.flags <==> id in db1.flags)
    && (forall id | id != x && id in db.flags :: db1.flags[id] == db.flags[id])
    && (forall r | r in db.rules && db.rules[r].flagId != x :: r in db1.rules && db1.rules[r] == db.rules[r])
    && (forall r | r in db1.rules && db1.rules[r].flagId != x :: r in db.rules && db1.rules[r] == db.rules[r])
  }

  lemma ListingKept(db: Sql.Db, db1: Sql.Db, x: Uuid, flagId: Uuid, rs: seq<Rule>)
    requires OnlyFlag(db, db1, x) && flagId != x && Sql.Listing(db, flagId, rs)
    ensures Sql.Listing(db1, flagId, rs)
  {
  }

  /** Dropping a flag's entries makes up for any change to that flag alone. */
  lemma InvalidateCoherent(db: Sql.Db, db1: Sql.Db, c: CacheView, x: Uuid, now: Time)
    requires Coherent(db, c, now) && OnlyFlag(db, db1, x)
    ensures Coherent(db1, Invalidated(c, x, now), now)
  {
    var c1 := Invalidated(c, x, now);
    forall s | Live(c1.flagAt, s, now) ensures FlagEntryOk(db1, c1, s) {
      assert Live(c.flagAt, s, now) && FlagEntryOk(db, c, s);
    }
    forall id | Live(c1.rulesOf, id, now) ensures id in db1.flags && Sql.Listing(db1, id, c1.rulesOf[id].value) {
      assert Live(c.rulesOf, id, now);
      ListingKept(db, db1, x, id, c.rulesOf[id].value);
    }
    forall id | Live(c1.segmentAt, id, now) ensures id in db1.segments && c1.segmentAt[id].value == db1.segments[id] {
      assert Live(c.segmentAt, id, now);
    }
  }

  /** The rows say the same to an evaluation: lifecycle columns aside, nothing that was there changed. */
  ghost predicate SameAnswers(db: Sql.Db, db1: Sql.Db) {
    && db1.rules == db.rules
    && (forall id | id in db.segments :: id in db1.segments && db1.segments[id] == db.segments[id])
    && (forall id | id in db.flags :: id in db1.flags && SameView(db.flags[id], db1.flags[id]))
  }

  lemma UntouchedCoherent(db: Sql.Db, db1: Sql.Db, c: CacheView, now: Time)
    requires Coherent(db, c, now) && SameAnswers(db, db1)
    ensures Coherent(db1, c, now)
  {
  }

  /** Calls after which the cache may be behind: a segment was edited, or a rule was rewritten under another flag's id. */
  predicate Mistaken(db: Sql.Db, call: Write) {
    || (call.OnSegments? && !call.s.CreateSegment?)
    || (call.OnRules? && WrongOwner(db, call.r))
  }

  predicate WrongOwner(db: Sql.Db, call: RuleCall) {
    call.UpdateRule? && call.rule.id in db.rules && db.rules[call.rule.id].flagId != call.rule.flagId
  }

  lemma PutOnly(db: Sql.Db, f: Flag)
    ensures OnlyFlag(db, Sql.PutFlag(db, f), f.id)
  {
  }

  lemma DeletionOnly(db: Sql.Db, id: Uuid)
    ensures OnlyFlag(db, Sql.WithoutFlag(db, id), id)
  {
  }

  lemma FlagCallOnly(px: Platform, db: Sql.Db, now: Time, call: FlagCall)
    requires Sql.FlagsOk(px, db.flags) && !call.CreateFlag? && FlagStatement(px, db, now, call).Ok?
    ensures OnlyFlag(db, FlagStatement(px, db, now, call).value, FlagEvicts(call).value)
  {
    if call.HardDeleteFlag? {
      DeletionOnly(db, call.id);
    } else {
      PutOnly(db, FlagStatement(px, db, now, call).value.flags[FlagEvicts(call).value]);
    }
  }

  lemma DateCallOnly(px: Platform, db: Sql.Db, now: Time, call: DateCall)
    requires Sql.FlagsOk(px, db.flags) && DateStatement(db, now, call).Ok?
    ensures OnlyFlag(db, DateStatement(db, now, call).value, call.id)
    ensures call.MarkFlagRemovalFired? ==> SameAnswers(db, DateStatement(db, now, call).value)
  {
    DateCallRow(db, now, call);
    if call.id in db.flags {
      PutOnly(db, DateRow(db.flags[call.id], now, call));
    }
  }

  lemma LifeCallOnly(px: Platform, db: Sql.Db, now: Time, call: LifeCall)
    requires Sql.FlagsOk(px, db.flags) && LifeStatement(db, now, call).Ok?
    ensures OnlyFlag(db, LifeStatement(db, now, call).value, call.id)
    ensures !Failing(call) ==> SameAnswers(db, LifeStatement(db, now, call).value)
  {
    var f1 := Sql.LifecycleRow(db.flags[call.id], PatchOf(now, call), Failing(call));
    assert SameView(db.flags[call.id], f1) || Failing(call);
  }

  lemma RuleCallOnly(px: Platform, db: Sql.Db, call: RuleCall)
    requires RuleStatement(px, db, call).Ok? && !WrongOwner(db, call)
    ensures RuleEvicts(db, call).Some? && OnlyFlag(db, RuleStatement(px, db, call).value, RuleEvicts(db, call).value)
  {
  }

  lemma NewRowSame(px: Platform, db: Sql.Db, f: Flag)
    ensures Sql.CreateFlag(px, db, f).Ok? ==> SameAnswers(db, Sql.CreateFlag(px, db, f).value)
  {
  }

  /** A call either touches a single flag and evicts it, or changes nothing an evaluation reads. */
  lemma CallFootprint(px: Platform, db: Sql.Db, now: Time, call: Write)
    requires Sql.Valid(px, db) && Statement(px, db, now, call).Ok? && !Mistaken(db, call)
    ensures var db1 := Statement(px, db, now, call).value;
            if Evicts(db, call).Some? then OnlyFlag(db, db1, Evicts(db, call).value) else SameAnswers(db, db1)
  {
    match call
    case OnFlag(f) => if f.CreateFlag? { NewRowSame(px, db, f.flag); } else { FlagCallOnly(px, db, now, f); }
    case OnDates(d) => DateCallOnly(px, db, now, d);
    case OnLife(l) => LifeCallOnly(px, db, now, l);
    case OnRules(r) => RuleCallOnly(px, db, r);
    case OnSegments(_) =>
  }

  lemma ServeCoherent(px: Platform, w: World, now: Time, call: Write)
    requires Sql.Valid(px, w.rows) && Coherent(w.rows, w.cache, now) && !Mistaken(w.rows, call)
    ensures Coherent(Serve(px, w, now, call).rows, Serve(px, w, now, call).cache, now)
  {
    if Statement(px, w.rows, now, call).Ok? {
      var db1 := Statement(px, w.rows, now, call).value;
      CallFootprint(px, w.rows, now, call);
      if Evicts(w.rows, call).Some? {
        InvalidateCoherent(w.rows, db1, w.cache, Evicts(w.rows, call).value, now);
      } else {
        UntouchedCoherent(w.rows, db1, w.cache, now);
      }
    }
  }

  // ---------------------------------------------------------------- what a call makes of one flag row

  lemma FlagCallRow(px: Platform, db: Sql.Db, now: Time, call: FlagCall, x: Uuid)
    requires FlagStatement(px, db, now, call).Ok? && Sql.FlagsOk(px, db.flags)
    requires x in db.flags && x in FlagStatement(px, db, now, call).value.flags
    ensures var f, f1 := db.flags[x], FlagStatement(px, db, now, call).value.flags[x];
            && f1 == f.(settings := f1.settings, enabled := f1.enabled, defaultValue := f1.defaultValue)
            && (f1.enabled && !f.enabled ==>
                  || (call.UpdateFlag? && call.flag.id == x && call.flag.enabled)
                  || (call.ToggleFlag? && call.id == x && call.on))
  {
  }

  lemma OtherCallRows(px: Platform, db: Sql.Db, now: Time, call: Write)
    requires (call.OnRules? || call.OnSegments?) && Statement(px, db, now, call).Ok?
    ensures Statement(px, db, now, call).value.flags == db.flags
  {
  }

  lemma FlagCallAddsRemoves(px: Platform, db: Sql.Db, now: Time, call: FlagCall, x: Uuid)
    requires FlagStatement(px, db, now, call).Ok? && Sql.FlagsOk(px, db.flags)
    ensures var db1 := FlagStatement(px, db, now, call).value;
            && (x in db.flags && x !in db1.flags ==>
                  call.HardDeleteFlag? && call.id == x && Sql.Deletable(db.flags[x], call.retention, now))
            && (x !in db.flags && x in db1.flags ==>
                  call.CreateFlag? && call.flag.id == x && db1.flags[x].archivedAt.None? && db1.flags[x].deleteAfter.None?)
  {
  }

  /** Only CreateFlag adds a row and only HardDeleteFlag removes one. */
  lemma RowsKept(px: Platform, db: Sql.Db, now: Time, call: Write)
    requires Statement(px, db, now, call).Ok? && !call.OnFlag? && Sql.FlagsOk(px, db.flags)
    ensures Statement(px, db, now, call).value.flags.Keys == db.flags.Keys
  {
    match call
    case OnDates(d) => DateCallRow(db, now, d);
    case OnLife(l) =>
    case _ => OtherCallRows(px, db, now, call);
  }

  // ---------------------------------------------------------------- runs

  /** One step at one time. What PostgreSQL is free to choose comes with the step. */
  datatype Op =
    | Do(call: Write)
    | Ask(req: Request, listing: seq<Rule>, faults: Faults)
    | Warm(projectId: Uuid, page: seq<Flag>, orders: seq<seq<Rule>>)

  datatype Step = Step(now: Time, op: Op)

  ghost predicate Possible(w: World, op: Op) {
    match op
    case Do(_) => true
    case Ask(req, listing, _) => MayReturn(w.rows, req, listing)
    case Warm(p, page, orders) => ActivePage(w.rows, p, FLAG_PAGE, page) && Ordered(w.rows, page, orders)
  }

  ghost function Next(px: Platform, w: World, s: Step): World
    requires Possible(w, s.op)
  {
    match s.op
    case Do(call) => Serve(px, w, s.now, call)
    case Ask(req, listing, faults) =>
      w.(cache := EvaluateCached(px, w.cache, w.rows, req, listing, s.now, faults).1)
    case Warm(_, page, orders) => w.(cache := Warmed(w.cache, page, orders, s.now))
  }

  /** ws[i] is the state before steps[i]; the clock does not go back. */
  ghost predicate Run(px: Platform, ws: seq<World>, steps: seq<Step>) {
    && |ws| == |steps| + 1
    && (forall i, j :: 0 <= i < j < |steps| ==> steps[i].now <= steps[j].now)
    && (forall i :: 0 <= i < |steps| ==> Possible(ws[i], steps[i].op) && ws[i + 1] == Next(px, ws[i], steps[i]))
  }

  /** No step is a call of the two kinds the cache is not told about. Reads may fail as they like. */
  ghost predicate Careful(ws: seq<World>, steps: seq<Step>)
    requires |ws| == |steps| + 1
  {
    forall i :: 0 <= i < |steps| ==>
      match steps[i].op
      case Do(call) => !Mistaken(ws[i].rows, call)
      case _ => true
  }

  lemma {:induction false} WarmCoherent(db: Sql.Db, c: CacheView, page: seq<Flag>, orders: seq<seq<Rule>>, now: Time)
    requires Coherent(db, c, now) && Ordered(db, page, orders)
    requires forall i :: 0 <= i < |page| ==> page[i].id in db.flags && db.flags[page[i].id] == page[i]
    ensures Coherent(db, Warmed(c, page, orders, now), now)
    decreases |page|
  {
    if page != [] {
      var c1 := c;
      if page[0].enabled {
        FillFlag(db, c, page[0], now);
        FillRules(db, WithFlag(c, page[0], now, TTL), page[0].id, orders[0], now);
        c1 := WithRules(WithFlag(c, page[0], now, TTL), page[0].id, orders[0], now, TTL);
      }
      assert forall i :: 0 <= i < |page[1..]| ==> page[1..][i] == page[i + 1] && orders[1..][i] == orders[i + 1];
      WarmCoherent(db, c1, page[1..], orders[1..], now);
    }
  }

  lemma StepCoherent(px: Platform, w: World, s: Step)
    requires Lawful(px) && Sql.Valid(px, w.rows) && Coherent(w.rows, w.cache, s.now) && Possible(w, s.op)
    requires s.op.Do? ==> !Mistaken(w.rows, s.op.call)
    ensures Sql.Valid(px, Next(px, w, s).rows)
    ensures Coherent(Next(px, w, s).rows, Next(px, w, s).cache, s.now)
  {
    match s.op
    case Do(call) =>
      ServeCoherent(px, w, s.now, call);
      if Statement(px, w.rows, s.now, call).Ok? { StatementValid(px, w.rows, s.now, call); }
    case Ask(req, listing, faults) =>
      EvaluateTransparent(px, w.rows, w.cache, req, listing, s.now, faults);
    case Warm(_, page, orders) =>
      WarmCoherent(w.rows, w.cache, page, orders, s.now);
  }

  /** The service starts with an empty cache over tables the schema allows. */
  ghost predicate Start(px: Platform, w: World) { Sql.Valid(px, w.rows) && w.cache == EMPTY }

  lemma {:induction false} AlwaysCoherent(px: Platform, ws: seq<World>, steps: seq<Step>, n: nat, now: Time)
    requires Lawful(px) && Run(px, ws, steps) && Start(px, ws[0]) && Careful(ws, steps)
    requires n <= |steps| && (n > 0 ==> steps[n - 1].now <= now)
    ensures Sql.Valid(px, ws[n].rows) && Coherent(ws[n].rows, ws[n].cache, now)
  {
    if n > 0 {
      var s := steps[n - 1];
      AlwaysCoherent(px, ws, steps, n - 1, s.now);
      StepCoherent(px, ws[n - 1], s);
      CoherentLater(ws[n].rows, ws[n].cache, s.now, now);
    }
  }

  /** In every run, at every moment, every evaluation through the cache comes to what the rows alone allow it to; if
      its own reads work, to what they give for an order of the rules PostgreSQL may choose, which is a single order
      where priorities are distinct. */
  lemma CacheNeverDiffers(px: Platform, ws: seq<World>, steps: seq<Step>, n: nat, now: Time,
                          req: Request, listing: seq<Rule>, faults: Faults)
    requires Lawful(px) && Run(px, ws, steps) && Start(px, ws[0]) && Careful(ws, steps)
    requires n <= |steps| && (n > 0 ==> steps[n - 1].now <= now) && MayReturn(ws[n].rows, req, listing)
    ensures var r := EvaluateCached(px, ws[n].cache, ws[n].rows, req, listing, now, faults).0;
            && MayAnswer(px, ws[n].rows, req, now, faults, r)
            && (CachedReadsWork(faults) ==>
                  exists used :: MayReturn(ws[n].rows, req, used) && r == EvaluateStored(px, ws[n].rows, req, used, now, faults))
    ensures var row := Sql.FindFlag(ws[n].rows, req.projectId, req.environmentId, req.key);
            CachedReadsWork(faults) && row.Some? && Sql.DistinctPriorities(ws[n].rows, row.value.id) ==>
              EvaluateCached(px, ws[n].cache, ws[n].rows, req, listing, now, faults).0
              == EvaluateStored(px, ws[n].rows, req, listing, now, faults)
  {
    AlwaysCoherent(px, ws, steps, n, now);
    EvaluateTransparent(px, ws[n].rows, ws[n].cache, req, listing, now, faults);
    if CachedReadsWork(faults) {
      var used := MayAnswerStored(px, ws[n].rows, req, now, faults, EvaluateCached(px, ws[n].cache, ws[n].rows, req, listing, now, faults).0);
      var row := Sql.FindFlag(ws[n].rows, req.projectId, req.environmentId, req.key);
      if row.Some? && Sql.DistinctPriorities(ws[n].rows, row.value.id) {
        EvaluateTransparentExactly(px, ws[n].rows, ws[n].cache, req, listing, now, faults);
      }
    }
  }
}
