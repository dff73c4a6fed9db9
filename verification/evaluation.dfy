/** What Evaluate computes, once against the stored rows alone and once through the cache. */
module Evaluation {
  import opened Model
  import opened Store
  import opened Cache
  import opened Targeting

  /** Which of one call's database reads fail for reasons of their own. */
  datatype Faults = Faults(flag: bool, envState: bool, rules: bool, ruleStates: bool, segments: set<Uuid>)

  const NO_FAULTS := Faults(false, false, false, false, {})

  // ---------------------------------------------------------------- outcomes

  function Off(f: Flag): EvalResult { EvalResult(f.key, false, f.defaultValue, FlagDisabled, None) }

  function Matched(f: Flag, r: Rule): EvalResult { EvalResult(f.key, true, r.value, RuleMatch, Some(r.id)) }

  function Unquoted(raw: string): string {
    if |raw| >= 2 && raw[0] == '"' && raw[|raw| - 1] == '"' then raw[1..|raw| - 1] else raw
  }

  function Defaulted(f: Flag, env: Option<EnvState>): EvalResult {
    EvalResult(f.key, true,
               if env.Some? && env.value.value.Some? then Unquoted(env.value.value.value) else f.defaultValue,
               Default, None)
  }

  /** The environment's own bit, where it has one, decides before the flag's. */
  predicate SwitchedOn(f: Flag, env: Option<EnvState>) {
    !f.IsArchived() && if env.Some? then env.value.enabled else f.enabled
  }

  // ---------------------------------------------------------------- against the rows

  /** GetFlagEnvState; a failing read is ignored. */
  function EnvRead(db: Db, flagId: Uuid, envId: Uuid, faults: Faults): Option<EnvState> {
    if faults.envState then None else EnvStateOf(db, flagId, envId)
  }

  /** ListRuleEnvironmentStatesByEnv; a failing read leaves every rule inactive. */
  function ActiveRead(db: Db, flagId: Uuid, envId: Uuid, faults: Faults): set<Uuid> {
    if faults.ruleStates then {} else ActiveRules(db, flagId, envId)
  }

  function SegmentFor(segments: map<Uuid, Segment>, r: Rule): Option<Segment> {
    if r.segmentId.Some? && r.segmentId.value in segments then Some(segments[r.segmentId.value]) else None
  }

  predicate Takes(px: Platform, segments: map<Uuid, Segment>, r: Rule, active: set<Uuid>, ctx: EvalContext,
                  flagKey: string, now: Time)
  {
    r.id in active && MatchesRule(px, r, SegmentFor(segments, r), ctx, flagKey, now)
  }

  function FirstMatch(px: Platform, segments: map<Uuid, Segment>, rs: seq<Rule>, active: set<Uuid>, ctx: EvalContext,
                      flagKey: string, now: Time): Option<Rule>
  {
    if rs == [] then None
    else if Takes(px, segments, rs[0], active, ctx, flagKey, now) then Some(rs[0])
    else FirstMatch(px, segments, rs[1..], active, ctx, flagKey, now)
  }

  function Decide(px: Platform, segments: map<Uuid, Segment>, f: Flag, env: Option<EnvState>, rs: seq<Rule>,
                  active: set<Uuid>, ctx: EvalContext, now: Time): EvalResult
  {
    if !SwitchedOn(f, env) then Off(f)
    else
      var hit := FirstMatch(px, segments, rs, active, ctx, f.key, now);
      if hit.Some? then Matched(f, hit.value) else Defaulted(f, env)
  }

  /** The cache-free evaluation; rs is the order in which ListRules gives the flag's rules. */
  ghost function EvaluateStored(px: Platform, db: Db, req: Request, rs: seq<Rule>, now: Time, faults: Faults): Result<EvalResult> {
    var flag := FindFlag(db, req.projectId, req.environmentId, req.key);
    if flag.None? then Err(NotFound)
    else
      var f := flag.value;
      Ok(Decide(px, db.segments, f, EnvRead(db, f.id, req.environmentId, faults), rs,
                ActiveRead(db, f.id, req.environmentId, faults), req.ctx, now))
  }

  /** rs is an order in which ListRules may give the rules of the flag the request finds. */
  ghost predicate MayReturn(db: Db, req: Request, rs: seq<Rule>) {
    var row := FindFlag(db, req.projectId, req.environmentId, req.key);
    row.Some? ==> Listing(db, row.value.id, rs)
  }

  // ---------------------------------------------------------------- when reads fail

  /** A failing segment read makes its rule an error, which the loop skips. */
  predicate Unreadable(r: Rule, faults: Faults) {
    r.ruleType.SegmentMember? && r.segmentId.Some? && r.segmentId.value in faults.segments
  }

  /** Every skipped rule is one of rs whose segment could not be read. */
  ghost predicate Skippable(rs: seq<Rule>, faults: Faults, skipped: set<Uuid>) {
    forall id :: id in skipped ==> exists i :: 0 <= i < |rs| && rs[i].id == id && Unreadable(rs[i], faults)
  }

  /** The cache-free evaluation in which some rules count as inactive. */
  ghost function EvaluateSkipping(px: Platform, db: Db, req: Request, rs: seq<Rule>, skipped: set<Uuid>, now: Time, faults: Faults)
    : Result<EvalResult>
  {
    var flag := FindFlag(db, req.projectId, req.environmentId, req.key);
    if flag.None? then Err(NotFound)
    else
      var f := flag.value;
      Ok(Decide(px, db.segments, f, EnvRead(db, f.id, req.environmentId, faults), rs,
                ActiveRead(db, f.id, req.environmentId, faults) - skipped, req.ctx, now))
  }

  /** What an evaluation that meets these faults may come to: the read of the flag or of its rules failed, or it is a
      cache-free evaluation in which at most the rules with unreadable segments were skipped. */
  ghost predicate MayAnswer(px: Platform, db: Db, req: Request, now: Time, faults: Faults, r: Result<EvalResult>) {
    || (r == Err(Storage) && (faults.flag || faults.rules))
    || exists used, skipped :: Explained(px, db, req, now, faults, r, used, skipped)
  }

  ghost predicate Explained(px: Platform, db: Db, req: Request, now: Time, faults: Faults, r: Result<EvalResult>,
                            used: seq<Rule>, skipped: set<Uuid>)
  {
    MayReturn(db, req, used) && Skippable(used, faults, skipped) && r == EvaluateSkipping(px, db, req, used, skipped, now, faults)
  }

  /** When the reads the cache can spare work, that is a cache-free evaluation outright. */
  lemma MayAnswerStored(px: Platform, db: Db, req: Request, now: Time, faults: Faults, r: Result<EvalResult>) returns (used: seq<Rule>)
    requires CachedReadsWork(faults) && MayAnswer(px, db, req, now, faults, r)
    ensures MayReturn(db, req, used) && r == EvaluateStored(px, db, req, used, now, faults)
  {
    var rs, skipped :| Explained(px, db, req, now, faults, r, rs, skipped);
    assert skipped == {};
    used := rs;
    var flag := FindFlag(db, req.projectId, req.environmentId, req.key);
    if flag.Some? {
      var active := ActiveRead(db, flag.value.id, req.environmentId, faults);
      assert active - {} == active;
    }
  }

  // ---------------------------------------------------------------- through the cache

  ghost function FetchFlag(c: CacheView, db: Db, req: Request, now: Time, faults: Faults): (Result<Flag>, CacheView) {
    var hit := CachedFlag(c, Slot(req.projectId, req.environmentId, req.key), now);
    if hit.Some? then (Ok(hit.value), c)
    else if faults.flag then (Err(Storage), c)
    else
      var row := FindFlag(db, req.projectId, req.environmentId, req.key);
      if row.None? then (Err(NotFound), c) else (Ok(row.value), WithFlag(c, row.value, now, TTL))
  }

  function FetchRules(c: CacheView, flagId: Uuid, listing: seq<Rule>, now: Time, faults: Faults): (Result<seq<Rule>>, CacheView) {
    var hit := CachedRules(c, flagId, now);
    if hit.Some? then (Ok(hit.value), c)
    else if faults.rules then (Err(Storage), c)
    else (Ok(listing), WithRules(c, flagId, listing, now, TTL))
  }

  function FetchSegment(c: CacheView, db: Db, id: Option<Uuid>, now: Time, faults: Faults): (Option<Segment>, CacheView) {
    if id.None? then (None, c)
    else
      var hit := CachedSegment(c, id.value, now);
      if hit.Some? then (hit, c)
      else if id.value in faults.segments || id.value !in db.segments then (None, c)
      else (Some(db.segments[id.value]), WithSegment(c, db.segments[id.value], now, TTL))
  }

  /** One round of the rule loop: does the rule take the request, and what did asking leave in the cache? */
  function TryRule(px: Platform, c: CacheView, db: Db, r: Rule, active: set<Uuid>, ctx: EvalContext, flagKey: string,
                   now: Time, faults: Faults): (bool, CacheView)
  {
    if r.id !in active then (false, c)
    else if r.ruleType.SegmentMember? then
      var (segment, c1) := FetchSegment(c, db, r.segmentId, now, faults);
      (MatchesRule(px, r, segment, ctx, flagKey, now), c1)
    else (MatchesRule(px, r, None, ctx, flagKey, now), c)
  }

  function Scan(px: Platform, c: CacheView, db: Db, rs: seq<Rule>, active: set<Uuid>, ctx: EvalContext, flagKey: string,
                now: Time, faults: Faults): (Option<Rule>, CacheView)
    decreases |rs|
  {
    if rs == [] then (None, c)
    else
      var (taken, c1) := TryRule(px, c, db, rs[0], active, ctx, flagKey, now, faults);
      if taken then (Some(rs[0]), c1) else Scan(px, c1, db, rs[1..], active, ctx, flagKey, now, faults)
  }

  /** listing is what ListRules would return during this call. */
  ghost function EvaluateCached(px: Platform, c: CacheView, db: Db, req: Request, listing: seq<Rule>, now: Time, faults: Faults)
    : (Result<EvalResult>, CacheView)
  {
    var (flag, c1) := FetchFlag(c, db, req, now, faults);
    if flag.Err? then (Err(flag.error), c1)
    else
      var f := flag.value;
      var env := EnvRead(db, f.id, req.environmentId, faults);
      if !SwitchedOn(f, env) then (Ok(Off(f)), c1)
      else
        var (rules, c2) := FetchRules(c1, f.id, listing, now, faults);
        if rules.Err? then (Err(rules.error), c2)
        else
          var (hit, c3) := Scan(px, c2, db, rules.value, ActiveRead(db, f.id, req.environmentId, faults), req.ctx, f.key, now, faults);
          (Ok(if hit.Some? then Matched(f, hit.value) else Defaulted(f, env)), c3)
  }

  // ---------------------------------------------------------------- coherence

  /** ScheduleRemoval, CancelScheduledRemoval, MarkIterationExhausted and MarkFlagRemovalFired write lifecycle
      columns without invalidating, so a cached flag may be behind in those. */
  predicate SameView(cached: Flag, row: Flag) { cached.(life := row.life) == row }

  ghost predicate FlagEntryOk(db: Db, c: CacheView, s: Slot) {
    s in c.flagAt &&
    var e := c.flagAt[s];
    && e.value.id in db.flags && SameView(e.value, db.flags[e.value.id]) && SlotFor(e.value) == s
    && e.value.id in c.slotOf && c.slotOf[e.value.id].value == s && e.expiresAt <= c.slotOf[e.value.id].expiresAt
  }

  ghost predicate FlagsCoherent(db: Db, c: CacheView, now: Time) {
    forall s :: Live(c.flagAt, s, now) ==> FlagEntryOk(db, c, s)
  }

  ghost predicate RulesCoherent(db: Db, c: CacheView, now: Time) {
    forall id :: Live(c.rulesOf, id, now) ==> id in db.flags && Listing(db, id, c.rulesOf[id].value)
  }

  ghost predicate SegmentsCoherent(db: Db, c: CacheView, now: Time) {
    forall id :: Live(c.segmentAt, id, now) ==> id in db.segments && c.segmentAt[id].value == db.segments[id]
  }

  /** Every entry that can still be read says what the rows say, and can still be found by its id. */
  ghost predicate Coherent(db: Db, c: CacheView, now: Time) {
    FlagsCoherent(db, c, now) && RulesCoherent(db, c, now) && SegmentsCoherent(db, c, now)
  }

  lemma CoherentLater(db: Db, c: CacheView, now: Time, later: Time)
    requires Coherent(db, c, now) && now <= later
    ensures Coherent(db, c, later)
  {
  }

  lemma FillFlag(db: Db, c: CacheView, f: Flag, now: Time)
    requires Coherent(db, c, now) && f.id in db.flags && db.flags[f.id] == f
    ensures Coherent(db, WithFlag(c, f, now, TTL), now)
  {
    var c1 := WithFlag(c, f, now, TTL);
    forall s | Live(c1.flagAt, s, now) ensures FlagEntryOk(db, c1, s) {
      if s != SlotFor(f) {
        assert Live(c.flagAt, s, now) && FlagEntryOk(db, c, s);
        assert SlotFor(c.flagAt[s].value) == s;
      }
    }
    forall id | Live(c1.rulesOf, id, now) ensures id in db.flags && Listing(db, id, c1.rulesOf[id].value) {
      assert Live(c.rulesOf, id, now);
    }
    forall id | Live(c1.segmentAt, id, now) ensures id in db.segments && c1.segmentAt[id].value == db.segments[id] {
      assert Live(c.segmentAt, id, now);
    }
  }

  lemma FillRules(db: Db, c: CacheView, flagId: Uuid, rs: seq<Rule>, now: Time)
    requires Coherent(db, c, now) && flagId in db.flags && Listing(db, flagId, rs)
    ensures Coherent(db, WithRules(c, flagId, rs, now, TTL), now)
  {
  }

  lemma FillSegment(px: Platform, db: Db, c: CacheView, id: Uuid, now: Time)
    requires Valid(px, db) && Coherent(db, c, now) && id in db.segments
    ensures Coherent(db, WithSegment(c, db.segments[id], now, TTL), now)
  {
  }

  // ---------------------------------------------------------------- transparency

  /** The reads the cache can spare a call; when one of them fails, a warm cache answers and a cold one does not. */
  predicate CachedReadsWork(faults: Faults) { !faults.flag && !faults.rules && faults.segments == {} }

  lemma FetchFlagTransparent(px: Platform, db: Db, c: CacheView, req: Request, now: Time, faults: Faults)
    requires Valid(px, db) && Coherent(db, c, now)
    ensures var (flag, c1) := FetchFlag(c, db, req, now, faults);
            var row := FindFlag(db, req.projectId, req.environmentId, req.key);
            && Coherent(db, c1, now)
            && (flag.Ok? ==> row.Some? && flag.value.id in db.flags && db.flags[flag.value.id] == row.value && SameView(flag.value, row.value))
            && (flag.Err? ==> (flag.error == Storage && faults.flag) || (flag.error == NotFound && row.None?))
  {
    var slot := Slot(req.projectId, req.environmentId, req.key);
    if Live(c.flagAt, slot, now) {
      assert FlagEntryOk(db, c, slot);
      var f := db.flags[c.flagAt[slot].value.id];
      assert SlotFor(f) == slot;
      OneAnswerBySlot(px, db, slot, f.id);
    } else {
      var row := FindFlag(db, req.projectId, req.environmentId, req.key);
      if row.Some? {
        assert row.value.id in db.flags && db.flags[row.value.id] == row.value;
        FillFlag(db, c, row.value, now);
      }
    }
  }

  /** A flag filed in the slot a request asks for is the flag the lookup finds. */
  lemma OneAnswerBySlot(px: Platform, db: Db, s: Slot, id: Uuid)
    requires Valid(px, db) && id in db.flags && SlotFor(db.flags[id]) == s
    ensures FindFlag(db, s.projectId, s.environmentId, s.key) == Some(db.flags[id])
  {
  }

  lemma TryRuleTransparent(px: Platform, db: Db, c: CacheView, r: Rule, active: set<Uuid>, ctx: EvalContext, flagKey: string,
                           now: Time, faults: Faults)
    requires Valid(px, db) && Coherent(db, c, now)
    ensures var (taken, c1) := TryRule(px, c, db, r, active, ctx, flagKey, now, faults);
            && Coherent(db, c1, now)
            && (taken ==> Takes(px, db.segments, r, active, ctx, flagKey, now))
            && (!taken ==> Unreadable(r, faults) || !Takes(px, db.segments, r, active, ctx, flagKey, now))
  {
    if r.id in active && r.ruleType.SegmentMember? && r.segmentId.Some? {
      var id := r.segmentId.value;
      if !Live(c.segmentAt, id, now) && id in db.segments {
        FillSegment(px, db, c, id, now);
      }
    }
  }

  ghost predicate DistinctIds(rs: seq<Rule>) { forall i, j :: 0 <= i < j < |rs| ==> rs[i].id != rs[j].id }

  /** The first match depends on the active set only through the rules looked at. */
  lemma {:induction false} SameActivity(px: Platform, segments: map<Uuid, Segment>, rs: seq<Rule>, a: set<Uuid>, b: set<Uuid>,
                                        ctx: EvalContext, flagKey: string, now: Time)
    requires forall i :: 0 <= i < |rs| ==> (rs[i].id in a <==> rs[i].id in b)
    ensures FirstMatch(px, segments, rs, a, ctx, flagKey, now) == FirstMatch(px, segments, rs, b, ctx, flagKey, now)
  {
    if rs != [] {
      SameActivity(px, segments, rs[1..], a, b, ctx, flagKey, now);
    }
  }

  /** skipped: the rules the scan could not read the segment of. */
  lemma {:induction false} ScanTransparent(px: Platform, db: Db, c: CacheView, rs: seq<Rule>, active: set<Uuid>, ctx: EvalContext,
                                           flagKey: string, now: Time, faults: Faults) returns (skipped: set<Uuid>)
    requires Valid(px, db) && Coherent(db, c, now) && DistinctIds(rs)
    ensures var (hit, c1) := Scan(px, c, db, rs, active, ctx, flagKey, now, faults);
            && hit == FirstMatch(px, db.segments, rs, active - skipped, ctx, flagKey, now)
            && Coherent(db, c1, now) && Skippable(rs, faults, skipped)
    decreases |rs|
  {
    skipped := {};
    if rs != [] {
      TryRuleTransparent(px, db, c, rs[0], active, ctx, flagKey, now, faults);
      var (taken, c1) := TryRule(px, c, db, rs[0], active, ctx, flagKey, now, faults);
      if !taken {
        var rest := rs[1..];
        var later := ScanTransparent(px, db, c1, rest, active, ctx, flagKey, now, faults);
        SkippedElsewhere(rs, faults, later);
        skipped := if Takes(px, db.segments, rs[0], active, ctx, flagKey, now) then later + {rs[0].id} else later;
        SameActivity(px, db.segments, rest, active - later, active - skipped, ctx, flagKey, now);
      }
    }
  }

  lemma SkippedElsewhere(rs: seq<Rule>, faults: Faults, skipped: set<Uuid>)
    requires rs != [] && DistinctIds(rs) && Skippable(rs[1..], faults, skipped)
    ensures Skippable(rs, faults, skipped) && rs[0].id !in skipped
  {
    forall id | id in skipped ensures exists i :: 1 <= i < |rs| && rs[i].id == id && Unreadable(rs[i], faults) {
      var i :| 0 <= i < |rs[1..]| && rs[1..][i].id == id && Unreadable(rs[1..][i], faults);
      assert rs[i + 1] == rs[1..][i];
    }
  }

  lemma FetchRulesTransparent(px: Platform, db: Db, c: CacheView, flagId: Uuid, listing: seq<Rule>, now: Time, faults: Faults)
    requires Valid(px, db) && Coherent(db, c, now) && flagId in db.flags && Listing(db, flagId, listing)
    ensures var (rules, c1) := FetchRules(c, flagId, listing, now, faults);
            && Coherent(db, c1, now)
            && if rules.Ok? then Listing(db, flagId, rules.value) else rules.error == Storage && faults.rules
  {
    if CachedRules(c, flagId, now).None? {
      FillRules(db, c, flagId, listing, now);
    }
  }

  /** Through a coherent cache, whatever reads fail, an evaluation comes to what the rows allow it to, and leaves the
      cache coherent. */
  lemma EvaluateTransparent(px: Platform, db: Db, c: CacheView, req: Request, listing: seq<Rule>, now: Time, faults: Faults)
    requires Valid(px, db) && Coherent(db, c, now) && MayReturn(db, req, listing)
    ensures var (r, c1) := EvaluateCached(px, c, db, req, listing, now, faults);
            MayAnswer(px, db, req, now, faults, r) && Coherent(db, c1, now)
  {
    FetchFlagTransparent(px, db, c, req, now, faults);
    var (flag, c1) := FetchFlag(c, db, req, now, faults);
    var r := EvaluateCached(px, c, db, req, listing, now, faults).0;
    if flag.Err? || !SwitchedOn(flag.value, EnvRead(db, flag.value.id, req.environmentId, faults)) {
      assert r != Err(Storage) ==> Explained(px, db, req, now, faults, r, listing, {});
    } else {
      var f := flag.value;
      FetchRulesTransparent(px, db, c1, f.id, listing, now, faults);
      var (rules, c2) := FetchRules(c1, f.id, listing, now, faults);
      if rules.Ok? {
        var active := ActiveRead(db, f.id, req.environmentId, faults);
        var skipped := ScanTransparent(px, db, c2, rules.value, active, req.ctx, f.key, now, faults);
        MatchExplained(px, db, req, f, rules.value, skipped, now, faults);
      }
    }
  }

  lemma MatchExplained(px: Platform, db: Db, req: Request, f: Flag, rs: seq<Rule>, skipped: set<Uuid>, now: Time, faults: Faults)
    requires var row := FindFlag(db, req.projectId, req.environmentId, req.key); row.Some? && SameView(f, row.value)
    requires SwitchedOn(f, EnvRead(db, f.id, req.environmentId, faults)) && Listing(db, f.id, rs) && Skippable(rs, faults, skipped)
    ensures var hit := FirstMatch(px, db.segments, rs, ActiveRead(db, f.id, req.environmentId, faults) - skipped, req.ctx, f.key, now);
            MayAnswer(px, db, req, now, faults,
                      Ok(if hit.Some? then Matched(f, hit.value) else Defaulted(f, EnvRead(db, f.id, req.environmentId, faults))))
  {
    var env := EnvRead(db, f.id, req.environmentId, faults);
    var hit := FirstMatch(px, db.segments, rs, ActiveRead(db, f.id, req.environmentId, faults) - skipped, req.ctx, f.key, now);
    assert Explained(px, db, req, now, faults, Ok(if hit.Some? then Matched(f, hit.value) else Defaulted(f, env)), rs, skipped);
  }

  /** With working reads and distinct priorities there is one order, so the answer is the stored one outright. */
  lemma EvaluateTransparentExactly(px: Platform, db: Db, c: CacheView, req: Request, listing: seq<Rule>, now: Time, faults: Faults)
    requires Valid(px, db) && Coherent(db, c, now) && CachedReadsWork(faults) && MayReturn(db, req, listing)
    requires var row := FindFlag(db, req.projectId, req.environmentId, req.key);
             row.Some? ==> DistinctPriorities(db, row.value.id)
    ensures EvaluateCached(px, c, db, req, listing, now, faults).0 == EvaluateStored(px, db, req, listing, now, faults)
  {
    EvaluateTransparent(px, db, c, req, listing, now, faults);
    var used := MayAnswerStored(px, db, req, now, faults, EvaluateCached(px, c, db, req, listing, now, faults).0);
    var row := FindFlag(db, req.projectId, req.environmentId, req.key);
    if row.Some? {
      ListingUnique(px, db, row.value.id, used, listing);
    }
  }
}
