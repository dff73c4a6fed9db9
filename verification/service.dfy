/** The flag service of internal/flags/service.go: every mutator writes the database first and then invalidates. */
module Service {
  import opened Model
  import opened Cache
  import opened Evaluation
  import opened Repository
  import opened Evaluators
  import Sql = Store

  datatype World = World(rows: Sql.Db, cache: CacheView)

  // The mutators by what they write. The id of a created row comes with the call.

  datatype FlagCall =
    | CreateFlag(flag: Flag)
    | UpdateFlag(flag: Flag)
    | ToggleFlag(id: Uuid, on: bool)
    | HardDeleteFlag(id: Uuid, retention: Time)

  /** The dates of one flag row. */
  datatype DateCall =
    | ArchiveFlag(id: Uuid)
    | UnarchiveFlag(id: Uuid)
    | QueueDeletion(id: Uuid, retention: Time)
    | ClearDeleteAfter(id: Uuid)
    | RestoreFlag(id: Uuid)
    | MarkFlagRemovalFired(id: Uuid, at: Time)

  /** The lifecycle columns, through UpdateFlagLifecycle. */
  datatype LifeCall =
    | RecordSmokeTestResult(id: Uuid, status: TestStatus, notes: string)
    | RecordUserTestResult(id: Uuid, status: TestStatus, notes: string)
    | ScheduleRemoval(id: Uuid, days: int)
    | CancelScheduledRemoval(id: Uuid)
    | MarkIterationExhausted(id: Uuid)

  /** Rules and per-environment states. */
  datatype RuleCall =
    | AddRule(rule: Rule)
    | UpdateRule(rule: Rule)
    | DeleteRule(id: Uuid)
    | SetFlagEnvState(flagId: Uuid, envId: Uuid, state: EnvState)
    | SetRuleEnvironmentState(ruleId: Uuid, envId: Uuid, on: bool)

  datatype SegmentCall =
    | CreateSegment(segment: Segment)
    | UpdateSegment(segment: Segment)
    | DeleteSegment(id: Uuid)

  datatype Write =
    | OnFlag(f: FlagCall)
    | OnDates(d: DateCall)
    | OnLife(l: LifeCall)
    | OnRules(r: RuleCall)
    | OnSegments(s: SegmentCall)

  /** int64 arithmetic wraps around. */
  function Wrap64(n: int): int { (n + 0x8000_0000_0000_0000) % 0x1_0000_0000_0000_0000 - 0x8000_0000_0000_0000 }

  function NoteOrNull(s: string): Option<string> { if s == "" then None else Some(s) }

  function FlagStatement(px: Platform, db: Sql.Db, now: Time, call: FlagCall): Result<Sql.Db> {
    match call
    case CreateFlag(f) => if f.Valid() then Sql.CreateFlag(px, db, f) else Err(Invalid)
    case UpdateFlag(f) => if f.Valid() then Sql.UpdateFlag(px, db, f) else Err(Invalid)
    case ToggleFlag(id, on) =>
      if id !in db.flags then Err(NotFound)
      else if db.flags[id].IsArchived() then Err(Archived)
      else Sql.UpdateFlag(px, db, db.flags[id].(enabled := on))
    case HardDeleteFlag(id, retention) => Sql.HardDeleteFlag(db, id, retention, now)
  }

  function DateStatement(db: Sql.Db, now: Time, call: DateCall): Result<Sql.Db> {
    match call
    case ArchiveFlag(id) => Sql.ArchiveFlag(db, id, now)
    case UnarchiveFlag(id) => Sql.UnarchiveFlag(db, id)
    case QueueDeletion(id, retention) => Sql.QueueDeletion(db, id, retention)
    case ClearDeleteAfter(id) => Sql.ClearDeleteAfter(db, id)
    case RestoreFlag(id) => Sql.RestoreFlag(db, id)
    case MarkFlagRemovalFired(id, at) => Sql.MarkRemovalFired(db, id, at)
  }

  predicate Failing(call: LifeCall) {
    (call.RecordSmokeTestResult? || call.RecordUserTestResult?) && call.status.Fail?
  }

  function PatchOf(now: Time, call: LifeCall): Sql.LifecyclePatch {
    var patch := Sql.NO_PATCH.(increment := if Failing(call) then 1 else 0);
    match call
    case RecordSmokeTestResult(_, status, notes) => patch.(smokeStatus := Some(status), smokeNotes := Some(NoteOrNull(notes)))
    case RecordUserTestResult(_, status, notes) => patch.(userStatus := Some(status), userNotes := Some(NoteOrNull(notes)))
    case ScheduleRemoval(_, days) => patch.(removalAt := Some(Some(now + Wrap64(days * DAY))))
    case CancelScheduledRemoval(_) => patch.(removalAt := Some(None))
    case MarkIterationExhausted(_) => patch.(exhausted := Some(true))
  }

  predicate Acceptable(call: LifeCall) {
    match call
    case RecordSmokeTestResult(_, status, _) => !status.OtherStatus?
    case RecordUserTestResult(_, status, notes) => !status.OtherStatus? && (status.Fail? ==> notes != "")
    case ScheduleRemoval(_, days) => days > 0
    case _ => true
  }

  function LifeStatement(db: Sql.Db, now: Time, call: LifeCall): Result<Sql.Db> {
    if !Acceptable(call) then Err(Invalid)
    else Sql.UpdateFlagLifecycle(db, call.id, PatchOf(now, call), Failing(call))
  }

  function RuleStatement(px: Platform, db: Sql.Db, call: RuleCall): Result<Sql.Db> {
    match call
    case AddRule(r) => if r.Valid() then Sql.CreateRule(db, r) else Err(Invalid)
    case UpdateRule(r) => if r.Valid() then Sql.UpdateRule(db, r) else Err(Invalid)
    case DeleteRule(id) => Sql.DeleteRule(db, id)
    case SetFlagEnvState(f, e, s) =>
      if f == NIL || e == NIL then Err(Invalid) else Sql.UpsertFlagEnvState(px, db, f, e, s)
    case SetRuleEnvironmentState(r, e, on) => Sql.SetRuleEnvironmentState(db, r, e, on)
  }

  function SegmentStatement(db: Sql.Db, call: SegmentCall): Result<Sql.Db> {
    match call
    case CreateSegment(s) => Sql.CreateSegment(db, s)
    case UpdateSegment(s) => Sql.UpdateSegment(db, s)
    case DeleteSegment(id) => Sql.DeleteSegment(db, id)
  }

  /** What the mutator makes of the database, its own checks included. */
  function Statement(px: Platform, db: Sql.Db, now: Time, call: Write): Result<Sql.Db> {
    match call
    case OnFlag(f) => FlagStatement(px, db, now, f)
    case OnDates(d) => DateStatement(db, now, d)
    case OnLife(l) => LifeStatement(db, now, l)
    case OnRules(r) => RuleStatement(px, db, r)
    case OnSegments(s) => SegmentStatement(db, s)
  }

  function FlagEvicts(call: FlagCall): Option<Uuid> {
    match call
    case CreateFlag(_) => None
    case UpdateFlag(f) => Some(f.id)
    case ToggleFlag(id, _) => Some(id)
    case HardDeleteFlag(id, _) => Some(id)
  }

  function RuleEvicts(db: Sql.Db, call: RuleCall): Option<Uuid> {
    match call
    case AddRule(r) => Some(r.flagId)
    case UpdateRule(r) => Some(r.flagId)
    case DeleteRule(id) => if id in db.rules then Some(db.rules[id].flagId) else None
    case SetFlagEnvState(f, _, _) => Some(f)
    case SetRuleEnvironmentState(r, _, _) => if r in db.rules then Some(db.rules[r].flagId) else None
  }

  /** The flag whose cache entries the mutator drops once its write went through. */
  function Evicts(db: Sql.Db, call: Write): Option<Uuid> {
    match call
    case OnFlag(f) => FlagEvicts(f)
    case OnDates(d) => if d.MarkFlagRemovalFired? then None else Some(d.id)
    case OnLife(l) => if l.RecordSmokeTestResult? || l.RecordUserTestResult? then Some(l.id) else None
    case OnRules(r) => RuleEvicts(db, r)
    case OnSegments(_) => None
  }

  function Evicted(c: CacheView, flagId: Option<Uuid>, now: Time): CacheView {
    if flagId.Some? then Invalidated(c, flagId.value, now) else c
  }

  function Serve(px: Platform, w: World, now: Time, call: Write): World {
    match Statement(px, w.rows, now, call)
    case Err(_) => w
    case Ok(db) => World(db, Evicted(w.cache, Evicts(w.rows, call), now))
  }

  predicate IsArchive(call: Write) { call.OnDates? && call.d.ArchiveFlag? }

  /** ArchiveFlag takes "not found" for "archived already". */
  function Reply(px: Platform, w: World, now: Time, call: Write): Option<Error> {
    match Statement(px, w.rows, now, call)
    case Ok(_) => None
    case Err(e) => if IsArchive(call) && e == NotFound then None else Some(e)
  }

  /** WarmCache over one page of flags, orders[i] being how ListRules gives the rules of page[i]. */
  function Warmed(c: CacheView, page: seq<Flag>, orders: seq<seq<Rule>>, now: Time): CacheView
    requires |orders| == |page|
    decreases |page|
  {
    if page == [] then c
    else if !page[0].enabled then Warmed(c, page[1..], orders[1..], now)
    else Warmed(WithRules(WithFlag(c, page[0], now, TTL), page[0].id, orders[0], now, TTL), page[1..], orders[1..], now)
  }

  /** orders[i] is how ListRules may give the rules of page[i]. */
  ghost predicate Ordered(db: Sql.Db, page: seq<Flag>, orders: seq<seq<Rule>>) {
    |orders| == |page| && forall i :: 0 <= i < |page| ==> Sql.Listing(db, page[i].id, orders[i])
  }

  lemma OrderedOneMore(db: Sql.Db, page: seq<Flag>, orders: seq<seq<Rule>>, f: Flag, order: seq<Rule>)
    requires Ordered(db, page, orders) && Sql.Listing(db, f.id, order)
    ensures Ordered(db, page + [f], orders + [order])
  {
  }

  function Toggling(id: Uuid, on: bool): Write { OnFlag(ToggleFlag(id, on)) }

  /** BulkToggle: each flag in turn, failures skipped, the first one reported. */
  function BulkServe(px: Platform, w: World, now: Time, ids: seq<Uuid>, on: bool): World
    decreases |ids|
  {
    if ids == [] then w else BulkServe(px, Serve(px, w, now, Toggling(ids[0], on)), now, ids[1..], on)
  }

  function BulkReply(px: Platform, w: World, now: Time, ids: seq<Uuid>, on: bool): Option<Error>
    decreases |ids|
  {
    if ids == [] then None
    else
      var first := Reply(px, w, now, Toggling(ids[0], on));
      if first.Some? then first else BulkReply(px, Serve(px, w, now, Toggling(ids[0], on)), now, ids[1..], on)
  }

  class FlagService {
    const px: Platform
    const repo: FlagRepository
    const cache: FlagCache
    const evaluator: Evaluator

    constructor (repo: FlagRepository, cache: FlagCache)
      ensures this.repo == repo && this.cache == cache && px == repo.px
      ensures evaluator.repo == repo && evaluator.cache == cache && evaluator.px == px
    {
      this.px, this.repo, this.cache := repo.px, repo, cache;
      this.evaluator := new Evaluator(repo, cache);
    }

    ghost function State(): World
      reads repo, cache
    {
      World(repo.rows, cache.View())
    }

    ghost predicate Ready()
      reads repo, cache
    {
      && px == repo.px == evaluator.px && evaluator.repo == repo && evaluator.cache == cache
      && Sql.Valid(px, repo.rows)
    }

    /** A write, and after it the invalidation. */
    method Mutate(call: Write, now: Time) returns (err: Option<Error>)
      modifies repo, cache
      ensures State() == Serve(px, old(State()), now, call)
      ensures err == Reply(px, old(State()), now, call)
    {
      var evicted := Evicts(repo.rows, call);
      var statement := Statement(px, repo.rows, now, call);
      err := repo.Exec(statement);
      if err.None? {
        if evicted.Some? {
          cache.Invalidate(evicted.value, now);
        }
      } else if IsArchive(call) && err == Some(NotFound) {
        err := None;
      }
    }

    method BulkToggle(ids: seq<Uuid>, on: bool, now: Time) returns (firstErr: Option<Error>)
      modifies repo, cache
      ensures State() == BulkServe(px, old(State()), now, ids, on)
      ensures firstErr == BulkReply(px, old(State()), now, ids, on)
    {
      firstErr := None;
      for i := 0 to |ids|
        invariant BulkServe(px, old(State()), now, ids, on) == BulkServe(px, State(), now, ids[i..], on)
        invariant BulkReply(px, old(State()), now, ids, on)
                  == if firstErr.Some? then firstErr else BulkReply(px, State(), now, ids[i..], on)
      {
        assert ids[i..][0] == ids[i] && ids[i..][1..] == ids[i + 1..];
        var err := Mutate(Toggling(ids[i], on), now);
        if err.Some? && firstErr.None? {
          firstErr := err;
        }
      }
    }

    method Evaluate(req: Request, now: Time, faults: Faults) returns (r: Result<EvalResult>, ghost listing: seq<Rule>)
      requires Ready()
      modifies cache
      ensures var flag := FetchFlag(old(cache.View()), repo.rows, req, now, faults).0;
              flag.Ok? ==> Sql.Listing(repo.rows, flag.value.id, listing)
      ensures (r, cache.View()) == EvaluateCached(px, old(cache.View()), repo.rows, req, listing, now, faults)
    {
      r, listing := evaluator.Evaluate(req, now, faults);
    }

    method WarmFlag(f: Flag, now: Time) returns (ghost order: seq<Rule>)
      requires Ready()
      modifies cache
      ensures Sql.Listing(repo.rows, f.id, order)
      ensures cache.View() == Warmed(old(cache.View()), [f], [order], now)
    {
      order := ListingExists(px, repo.rows, f.id);
      if f.enabled {
        cache.SetFlag(f, TTL, now);
        var rules := repo.ListRules(f.id);
        cache.SetRules(f.id, rules, TTL, now);
        order := rules;
      }
    }

    method WarmCache(projectId: Uuid, now: Time) returns (ghost page: seq<Flag>, ghost orders: seq<seq<Rule>>)
      requires Ready()
      modifies cache
      ensures ActivePage(repo.rows, projectId, FLAG_PAGE, page) && Ordered(repo.rows, page, orders)
      ensures cache.View() == Warmed(old(cache.View()), page, orders, now)
    {
      var flags := repo.ListActiveFlags(projectId);
      page, orders := flags, [];
      for i := 0 to |flags|
        invariant Ordered(repo.rows, flags[..i], orders)
        invariant cache.View() == Warmed(old(cache.View()), flags[..i], orders, now)
      {
        ghost var order := WarmFlag(flags[i], now);
        WarmedOneMore(old(cache.View()), flags[..i], orders, flags[i], order, now);
        OrderedOneMore(repo.rows, flags[..i], orders, flags[i], order);
        assert flags[..i + 1] == flags[..i] + [flags[i]];
        orders := orders + [order];
      }
      assert flags[..|flags|] == flags;
    }
  }

  lemma {:induction false} WarmedOneMore(c: CacheView, page: seq<Flag>, orders: seq<seq<Rule>>, f: Flag, rs: seq<Rule>, now: Time)
    requires |orders| == |page|
    ensures Warmed(c, page + [f], orders + [rs], now) == Warmed(Warmed(c, page, orders, now), [f], [rs], now)
    decreases |page|
  {
    if page != [] {
      assert (page + [f])[1..] == page[1..] + [f] && (orders + [rs])[1..] == orders[1..] + [rs];
      var c1 := if page[0].enabled then WithRules(WithFlag(c, page[0], now, TTL), page[0].id, orders[0], now, TTL) else c;
      WarmedOneMore(c1, page[1..], orders[1..], f, rs, now);
    } else {
      assert page + [f] == [f] && orders + [rs] == [rs];
    }
  }
}
