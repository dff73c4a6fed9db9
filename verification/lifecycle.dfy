/** Failing tests over whole runs: the flag is off everywhere until somebody switches it on, and every failure counts. */
module LifecycleRuns {
  import opened Model
  import opened Evaluation
  import opened Service
  import opened Runs
  import Sql = Store

  /** Neither the flag's own bit nor any environment's is set. */
  ghost predicate OffEverywhere(db: Sql.Db, x: Uuid) {
    && (x in db.flags ==> !db.flags[x].enabled)
    && (forall k | k in db.flagEnv && k.0 == x :: !db.flagEnv[k].enabled)
  }

  /** Calls that set an enabled bit of flag x to true. */
  predicate SwitchesOn(call: Write, x: Uuid) {
    match call
    case OnFlag(CreateFlag(f)) => f.id == x
    case OnFlag(UpdateFlag(f)) => f.id == x && f.enabled
    case OnFlag(ToggleFlag(id, on)) => id == x && on
    case OnRules(SetFlagEnvState(id, _, s)) => id == x && s.enabled
    case _ => false
  }

  lemma FailureSwitchesOff(db: Sql.Db, now: Time, call: LifeCall)
    requires Failing(call) && LifeStatement(db, now, call).Ok?
    ensures OffEverywhere(LifeStatement(db, now, call).value, call.id)
  {
  }

  lemma RowStaysOff(px: Platform, db: Sql.Db, now: Time, call: Write, x: Uuid)
    requires Sql.FlagsOk(px, db.flags) && OffEverywhere(db, x) && !SwitchesOn(call, x) && Statement(px, db, now, call).Ok?
    ensures var db1 := Statement(px, db, now, call).value; x in db1.flags ==> !db1.flags[x].enabled
  {
    match call
    case OnFlag(f) =>
      FlagCallAddsRemoves(px, db, now, f, x);
      if x in db.flags && x in FlagStatement(px, db, now, f).value.flags { FlagCallRow(px, db, now, f, x); }
    case OnDates(d) => DateCallRow(db, now, d);
    case OnLife(_) =>
    case _ => OtherCallRows(px, db, now, call);
  }

  lemma EnvStaysOff(px: Platform, db: Sql.Db, now: Time, call: Write, x: Uuid)
    requires OffEverywhere(db, x) && !SwitchesOn(call, x) && Statement(px, db, now, call).Ok?
    ensures var db1 := Statement(px, db, now, call).value;
            forall k | k in db1.flagEnv && k.0 == x :: !db1.flagEnv[k].enabled
  {
    if call.OnDates? {
      DateCallRow(db, now, call.d);
    }
  }

  /** No step of the run between i and n switches x on. */
  predicate NobodySwitchesOn(steps: seq<Step>, i: nat, n: nat, x: Uuid)
    requires i <= n <= |steps|
  {
    forall j :: i <= j < n && steps[j].op.Do? ==> !SwitchesOn(steps[j].op.call, x)
  }

  lemma StepStaysOff(px: Platform, w: World, s: Step, x: Uuid)
    requires Sql.FlagsOk(px, w.rows.flags) && Possible(w, s.op) && OffEverywhere(w.rows, x)
    requires s.op.Do? ==> !SwitchesOn(s.op.call, x)
    ensures OffEverywhere(Next(px, w, s).rows, x)
  {
    if s.op.Do? && Statement(px, w.rows, s.now, s.op.call).Ok? {
      RowStaysOff(px, w.rows, s.now, s.op.call, x);
      EnvStaysOff(px, w.rows, s.now, s.op.call, x);
    }
  }

  lemma {:induction false} StaysOff(px: Platform, ws: seq<World>, steps: seq<Step>, i: nat, n: nat, x: Uuid)
    requires Lawful(px) && Run(px, ws, steps) && Sql.Valid(px, ws[0].rows)
    requires i <= n <= |steps| && OffEverywhere(ws[i].rows, x) && NobodySwitchesOn(steps, i, n, x)
    ensures OffEverywhere(ws[n].rows, x)
    decreases n
  {
    if i < n {
      StaysOff(px, ws, steps, i, n - 1, x);
      AlwaysValid(px, ws, steps, n - 1);
      StepStaysOff(px, ws[n - 1], steps[n - 1], x);
    }
  }

  lemma StepValid(px: Platform, w: World, s: Step)
    requires Lawful(px) && Sql.Valid(px, w.rows) && Possible(w, s.op)
    ensures Sql.Valid(px, Next(px, w, s).rows)
  {
    if s.op.Do? && Statement(px, w.rows, s.now, s.op.call).Ok? {
      StatementValid(px, w.rows, s.now, s.op.call);
    }
  }

  lemma {:induction false} AlwaysValid(px: Platform, ws: seq<World>, steps: seq<Step>, n: nat)
    requires Lawful(px) && Run(px, ws, steps) && Sql.Valid(px, ws[0].rows) && n <= |steps|
    ensures Sql.Valid(px, ws[n].rows)
  {
    if n > 0 {
      AlwaysValid(px, ws, steps, n - 1);
      StepValid(px, ws[n - 1], steps[n - 1]);
    }
  }

  lemma NotSwitchedOn(db: Sql.Db, x: Uuid, envId: Uuid, faults: Faults)
    requires OffEverywhere(db, x) && x in db.flags
    ensures !SwitchedOn(db.flags[x], EnvRead(db, x, envId, faults))
  {
  }

  /** After a failing smoke or user test every evaluation of the flag that can read it, through the cache and in every
      environment, reports it off until a later call sets an enabled bit. No failing read, before or during the
      evaluation, changes that. */
  lemma FailingTestKillsFlag(px: Platform, ws: seq<World>, steps: seq<Step>, i: nat, n: nat, now: Time,
                             req: Request, listing: seq<Rule>, faults: Faults)
    requires Lawful(px) && Run(px, ws, steps) && Start(px, ws[0]) && Careful(ws, steps)
    requires i < n <= |steps| && steps[n - 1].now <= now
    requires steps[i].op.Do? && steps[i].op.call.OnLife? && Failing(steps[i].op.call.l) && Reply(px, ws[i], steps[i].now, steps[i].op.call).None?
    requires NobodySwitchesOn(steps, i + 1, n, steps[i].op.call.l.id)
    requires MayReturn(ws[n].rows, req, listing)
    requires Sql.FindFlag(ws[n].rows, req.projectId, req.environmentId, req.key).Some?
    requires Sql.FindFlag(ws[n].rows, req.projectId, req.environmentId, req.key).value.id == steps[i].op.call.l.id
    ensures var r := EvaluateCached(px, ws[n].cache, ws[n].rows, req, listing, now, faults).0;
            if r.Ok? then !r.value.enabled && r.value.reason == FlagDisabled else r.error == Storage && faults.flag
  {
    var x := steps[i].op.call.l.id;
    FailureSwitchesOff(ws[i].rows, steps[i].now, steps[i].op.call.l);
    assert ws[i + 1] == Next(px, ws[i], steps[i]);
    StaysOff(px, ws, steps, i + 1, n, x);
    AlwaysCoherent(px, ws, steps, n, now);
    FetchFlagTransparent(px, ws[n].rows, ws[n].cache, req, now, faults);
    NotSwitchedOn(ws[n].rows, x, req.environmentId, faults);
  }

  // ---------------------------------------------------------------- stored rules

  ghost predicate RulesValid(db: Sql.Db) { forall id :: id in db.rules ==> db.rules[id].Valid() }

  lemma RuleCallRules(px: Platform, db: Sql.Db, call: RuleCall)
    requires RulesValid(db) && RuleStatement(px, db, call).Ok?
    ensures RulesValid(RuleStatement(px, db, call).value)
  {
  }

  lemma FlagCallRules(px: Platform, db: Sql.Db, now: Time, call: FlagCall)
    requires RulesValid(db) && FlagStatement(px, db, now, call).Ok?
    ensures RulesValid(FlagStatement(px, db, now, call).value)
  {
  }

  lemma RulesStayValid(px: Platform, db: Sql.Db, now: Time, call: Write)
    requires RulesValid(db) && Statement(px, db, now, call).Ok?
    ensures RulesValid(Statement(px, db, now, call).value)
  {
    match call
    case OnRules(r) => RuleCallRules(px, db, r);
    case OnFlag(f) => FlagCallRules(px, db, now, f);
    case OnDates(d) => assert DateStatement(db, now, d).value.rules == db.rules;
    case _ =>
  }

  /** AddRule and UpdateRule validate, so from rules that validate no run reaches one that does not. */
  lemma {:induction false} RulesAlwaysValid(px: Platform, ws: seq<World>, steps: seq<Step>, n: nat)
    requires Lawful(px) && Run(px, ws, steps) && Sql.Valid(px, ws[0].rows) && RulesValid(ws[0].rows) && n <= |steps|
    ensures RulesValid(ws[n].rows)
  {
    if n > 0 {
      RulesAlwaysValid(px, ws, steps, n - 1);
      AlwaysValid(px, ws, steps, n - 1);
      var w, s := ws[n - 1], steps[n - 1];
      assert ws[n] == Next(px, w, s);
      if s.op.Do? && Statement(px, w.rows, s.now, s.op.call).Ok? {
        RulesStayValid(px, w.rows, s.now, s.op.call);
      }
    }
  }

  // ---------------------------------------------------------------- iterations

  predicate CountsAgainst(px: Platform, w: World, s: Step, x: Uuid) {
    s.op.Do? && s.op.call.OnLife? && Failing(s.op.call.l) && s.op.call.l.id == x && LifeStatement(w.rows, s.now, s.op.call.l).Ok?
  }

  function Failures(px: Platform, ws: seq<World>, steps: seq<Step>, i: nat, n: nat, x: Uuid): nat
    requires |ws| == |steps| + 1 && i <= n <= |steps|
    decreases n
  {
    if i == n then 0
    else Failures(px, ws, steps, i, n - 1, x) + if CountsAgainst(px, ws[n - 1], steps[n - 1], x) then 1 else 0
  }

  lemma IterationsStep(px: Platform, db: Sql.Db, now: Time, call: Write, x: Uuid)
    requires Sql.FlagsOk(px, db.flags) && Statement(px, db, now, call).Ok? && x in db.flags
    requires x in Statement(px, db, now, call).value.flags
    ensures Statement(px, db, now, call).value.flags[x].life.iterations
            == db.flags[x].life.iterations + if call.OnLife? && Failing(call.l) && call.l.id == x then 1 else 0
  {
    match call
    case OnFlag(f) => FlagCallRow(px, db, now, f, x);
    case OnDates(d) => DateCallRow(db, now, d);
    case OnLife(_) =>
    case _ => OtherCallRows(px, db, now, call);
  }

  lemma StepIterations(px: Platform, w: World, s: Step, x: Uuid)
    requires Sql.FlagsOk(px, w.rows.flags) && Possible(w, s.op)
    requires x in w.rows.flags && x in Next(px, w, s).rows.flags
    ensures Next(px, w, s).rows.flags[x].life.iterations
            == w.rows.flags[x].life.iterations + if CountsAgainst(px, w, s, x) then 1 else 0
  {
    if s.op.Do? && Statement(px, w.rows, s.now, s.op.call).Ok? {
      IterationsStep(px, w.rows, s.now, s.op.call, x);
    }
  }

  /** While the flag exists, its iteration count grows by exactly the number of failing results recorded. */
  lemma {:induction false} IterationsCountFailures(px: Platform, ws: seq<World>, steps: seq<Step>, i: nat, n: nat, x: Uuid)
    requires Lawful(px) && Run(px, ws, steps) && Sql.Valid(px, ws[0].rows)
    requires i <= n <= |steps| && forall j :: i <= j <= n ==> x in ws[j].rows.flags
    ensures ws[n].rows.flags[x].life.iterations
            == ws[i].rows.flags[x].life.iterations + Failures(px, ws, steps, i, n, x)
    decreases n
  {
    if i < n {
      IterationsCountFailures(px, ws, steps, i, n - 1, x);
      AlwaysValid(px, ws, steps, n - 1);
      assert ws[n] == Next(px, ws[n - 1], steps[n - 1]);
      StepIterations(px, ws[n - 1], steps[n - 1], x);
    }
  }

  // ---------------------------------------------------------------- scheduled removal

  /** The last day count whose nanoseconds fit an int64. */
  const MAX_DAYS := 106_751

  /** ScheduleRemoval multiplies days into an int64 of nanoseconds: the date lies the given days ahead exactly when
      they are at most MAX_DAYS. */
  lemma RemovalIsAhead(db: Sql.Db, now: Time, id: Uuid, days: int)
    requires LifeStatement(db, now, ScheduleRemoval(id, days)).Ok?
    ensures var at := LifeStatement(db, now, ScheduleRemoval(id, days)).value.flags[id].life.removalAt;
            at.Some? && (at.value == now + days * DAY <==> days <= MAX_DAYS)
  {
  }

  /** One day more and the flag is due at once. */
  lemma RemovalWrapsAround(db: Sql.Db, now: Time, id: Uuid)
    requires id in db.flags && db.flags[id].archivedAt.None?
    ensures var r := LifeStatement(db, now, ScheduleRemoval(id, MAX_DAYS + 1)); r.Ok? && Sql.Due(r.value.flags[id], now)
  {
  }
}
