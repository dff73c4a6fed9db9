/** BatchEvaluate of internal/flags/service.go: up to ten workers, each an Evaluate cut into its cache and database
    accesses, in any interleaving over one shared cache. The rows do not change meanwhile. */
module Batches {
  import opened Model
  import opened Store
  import opened Cache
  import opened Targeting
  import opened Evaluation
  import opened Repository
  import opened Machines

  const LIMIT: nat := 10

  /** One call. faults[i] are the read failures the evaluation of keys[i] meets; now is the clock of the rule schedules. */
  datatype Batch = Batch(px: Platform, db: Db, projectId: Uuid, environmentId: Uuid, keys: seq<string>, ctx: EvalContext,
                         now: Time, faults: seq<Faults>)

  function RequestOf(b: Batch, i: nat): Request
    requires i < |b.keys|
  {
    Request(b.projectId, b.environmentId, b.keys[i], b.ctx)
  }

  /** Where a worker stands: what it holds, and which access comes next. */
  datatype Phase =
    | Begun                                                                          // ask the cache for the flag
    | FlagMissed                                                                     // read it
    | FlagLoaded(flag: Flag)                                                         // file it
    | HasFlag(flag: Flag)                                                            // read the environment state
    | SwitchedOnWith(flag: Flag, env: Option<EnvState>)                              // ask the cache for the rules
    | RulesMissed(flag: Flag, env: Option<EnvState>)                                 // read them
    | RulesLoaded(flag: Flag, env: Option<EnvState>, rules: seq<Rule>)               // file them
    | HasRules(flag: Flag, env: Option<EnvState>, rules: seq<Rule>)                  // read the active rules
    | Looping(flag: Flag, env: Option<EnvState>, rest: seq<Rule>, active: set<Uuid>) // try rest[0]
    | SegmentMissed(loop: Phase)                                                     // read its segment
    | SegmentLoaded(loop: Phase, segment: Segment)                                   // file it
    | Done(result: Result<EvalResult>)                                               // write the slot

  datatype Item = Evaluated(result: EvalResult) | Failed(flagKey: string, error: Error)

  function ItemOf(key: string, r: Result<EvalResult>): Item { if r.Ok? then Evaluated(r.value) else Failed(key, r.error) }

  datatype Shared = Shared(
    next: nat,                      // keys before it have a worker
    workers: map<nat, Phase>,       // running, by key index
    cache: CacheView,
    results: seq<Option<Item>>,
    writes: seq<nat>)               // the slots written, in order

  datatype Move =
    | Spawn                         // g.Go, which waits for a free place
    | Access(i: nat, listing: seq<Rule>)   // the worker's next access; listing is what ListRules returns if that is it
    | Write(i: nat)
    | Drop(cache: CacheView)        // entries expire or are invalidated

  function FlagRead(b: Batch, i: nat, row: Option<Flag>): Phase
    requires i < |b.faults|
  {
    if b.faults[i].flag then Done(Err(Storage)) else if row.None? then Done(Err(NotFound)) else FlagLoaded(row.value)
  }

  function Switched(b: Batch, i: nat, f: Flag): Phase
    requires i < |b.faults|
  {
    var env := EnvRead(b.db, f.id, b.environmentId, b.faults[i]);
    if SwitchedOn(f, env) then SwitchedOnWith(f, env) else Done(Ok(Off(f)))
  }

  /** The rule is decided, with the segment if it names one. */
  function Tried(b: Batch, p: Phase, segment: Option<Segment>): Phase
    requires p.Looping? && p.rest != []
  {
    if MatchesRule(b.px, p.rest[0], segment, b.ctx, p.flag.key, b.now) then Done(Ok(Matched(p.flag, p.rest[0])))
    else p.(rest := p.rest[1..])
  }

  function Looped(b: Batch, c: CacheView, p: Phase): Phase
    requires p.Looping?
  {
    if p.rest == [] then Done(Ok(Defaulted(p.flag, p.env)))
    else
      var r := p.rest[0];
      if r.id !in p.active then p.(rest := p.rest[1..])
      else if !r.ruleType.SegmentMember? || r.segmentId.None? then Tried(b, p, None)
      else
        var hit := CachedSegment(c, r.segmentId.value, b.now);
        if hit.Some? then Tried(b, p, hit) else SegmentMissed(p)
  }

  predicate AtSegment(p: Phase) { p.Looping? && p.rest != [] && p.rest[0].segmentId.Some? }

  function SegmentRead(b: Batch, i: nat, p: Phase): Phase
    requires i < |b.faults| && AtSegment(p)
  {
    var id := p.rest[0].segmentId.value;
    if id in b.faults[i].segments || id !in b.db.segments then Tried(b, p, None) else SegmentLoaded(p, b.db.segments[id])
  }

  /** One access of worker i: its next phase and the cache it leaves. */
  ghost function Next(b: Batch, c: CacheView, i: nat, p: Phase, listing: seq<Rule>): (Phase, CacheView)
    requires i < |b.keys| == |b.faults|
  {
    match p
    case Begun =>
      var hit := CachedFlag(c, Slot(b.projectId, b.environmentId, b.keys[i]), b.now);
      (if hit.Some? then HasFlag(hit.value) else FlagMissed, c)
    case FlagMissed => (FlagRead(b, i, FindFlag(b.db, b.projectId, b.environmentId, b.keys[i])), c)
    case FlagLoaded(f) => (HasFlag(f), WithFlag(c, f, b.now, TTL))
    case HasFlag(f) => (Switched(b, i, f), c)
    case SwitchedOnWith(f, env) =>
      var hit := CachedRules(c, f.id, b.now);
      (if hit.Some? then HasRules(f, env, hit.value) else RulesMissed(f, env), c)
    case RulesMissed(f, env) => (if b.faults[i].rules then Done(Err(Storage)) else RulesLoaded(f, env, listing), c)
    case RulesLoaded(f, env, rs) => (HasRules(f, env, rs), WithRules(c, f.id, rs, b.now, TTL))
    case HasRules(f, env, rs) => (Looping(f, env, rs, ActiveRead(b.db, f.id, b.environmentId, b.faults[i])), c)
    case Looping(_, _, _, _) => (Looped(b, c, p), c)
    case SegmentMissed(l) => (if AtSegment(l) then SegmentRead(b, i, l) else l, c)
    case SegmentLoaded(l, s) => (if AtSegment(l) then Tried(b, l, Some(s)) else l, WithSegment(c, s, b.now, TTL))
    case Done(_) => (p, c)
  }

  predicate Indexed(b: Batch, sh: Shared, i: nat) { i < |b.keys| == |b.faults| == |sh.results| }

  ghost predicate Enabled(b: Batch, sh: Shared, m: Move) {
    match m
    case Spawn => sh.next < |b.keys| && |sh.workers| < LIMIT
    case Access(i, listing) =>
      && Indexed(b, sh, i) && i in sh.workers && !sh.workers[i].Done?
      && (sh.workers[i].RulesMissed? ==> Listing(b.db, sh.workers[i].flag.id, listing))
    case Write(i) => Indexed(b, sh, i) && i in sh.workers && sh.workers[i].Done?
    case Drop(cache) => Subview(cache, sh.cache)
  }

  ghost function After(b: Batch, sh: Shared, m: Move): Shared
    requires Enabled(b, sh, m)
  {
    match m
    case Spawn => sh.(workers := sh.workers[sh.next := Begun], next := sh.next + 1)
    case Access(i, listing) =>
      var (p, c) := Next(b, sh.cache, i, sh.workers[i], listing);
      sh.(workers := sh.workers[i := p], cache := c)
    case Write(i) =>
      sh.(workers := map k | k in sh.workers && k != i :: sh.workers[k],
          results := sh.results[i := Some(ItemOf(b.keys[i], sh.workers[i].result))],
          writes := sh.writes + [i])
    case Drop(cache) => sh.(cache := cache)
  }

  // ---------------------------------------------------------------- the invariant

  /** What holds of the call itself; any reads may fail. */
  ghost predicate Sound(b: Batch) { Store.Valid(b.px, b.db) && |b.faults| == |b.keys| }

  /** Every readable entry says what the rows say; weaker than coherence, which also speaks of invalidation. */
  ghost predicate Truthful(b: Batch, c: CacheView) {
    && (forall s :: Live(c.flagAt, s, b.now) ==> FlagTrue(b.db, c.flagAt[s].value) && SlotFor(c.flagAt[s].value) == s)
    && (forall f :: Live(c.rulesOf, f, b.now) ==> Listing(b.db, f, c.rulesOf[f].value))
    && (forall id :: Live(c.segmentAt, id, b.now) ==> id in b.db.segments && c.segmentAt[id].value == b.db.segments[id])
  }

  ghost predicate FlagTrue(db: Db, f: Flag) { f.id in db.flags && SameView(f, db.flags[f.id]) }

  /** The answer to key i asked alone, given the reads that fail for it. */
  ghost predicate Alone(b: Batch, i: nat, r: Result<EvalResult>)
    requires i < |b.keys| == |b.faults|
  {
    MayAnswer(b.px, b.db, RequestOf(b, i), b.now, b.faults[i], r)
  }

  /** f is the found flag, up to columns an evaluation does not read. */
  ghost predicate Found(b: Batch, i: nat, f: Flag)
    requires i < |b.keys|
  {
    var row := FindFlag(b.db, b.projectId, b.environmentId, b.keys[i]);
    row.Some? && SameView(f, row.value) && f.id in b.db.flags && b.db.flags[f.id] == row.value
  }

  ghost predicate On(b: Batch, i: nat, f: Flag, env: Option<EnvState>)
    requires i < |b.keys| == |b.faults|
  {
    Found(b, i, f) && env == EnvRead(b.db, f.id, b.environmentId, b.faults[i]) && SwitchedOn(f, env)
  }

  /** k rules are behind: each of them was skipped or does not take the request. */
  ghost predicate Passed(b: Batch, i: nat, p: Phase, rs: seq<Rule>, k: nat, skipped: set<Uuid>)
    requires i < |b.keys| == |b.faults| && p.Looping?
  {
    && k <= |rs| && p.rest == rs[k..] && Listing(b.db, p.flag.id, rs) && Skippable(rs, b.faults[i], skipped)
    && (forall j :: 0 <= j < k ==> rs[j].id in skipped || !Takes(b.px, b.db.segments, rs[j], p.active, b.ctx, p.flag.key, b.now))
    && (forall j :: k <= j < |rs| ==> rs[j].id !in skipped)
  }

  ghost predicate LoopOk(b: Batch, i: nat, p: Phase)
    requires i < |b.keys| == |b.faults|
  {
    && p.Looping? && On(b, i, p.flag, p.env)
    && p.active == ActiveRead(b.db, p.flag.id, b.environmentId, b.faults[i])
    && exists rs, k, skipped :: Passed(b, i, p, rs, k, skipped)
  }

  /** The loop stands at an active segment rule. */
  ghost predicate SegmentLoopOk(b: Batch, i: nat, p: Phase)
    requires i < |b.keys| == |b.faults|
  {
    LoopOk(b, i, p) && AtSegment(p) && p.rest[0].id in p.active && p.rest[0].ruleType.SegmentMember?
  }

  ghost predicate PhaseOk(b: Batch, i: nat, p: Phase)
    requires i < |b.keys| == |b.faults|
  {
    match p
    case Begun => true
    case FlagMissed => true
    case FlagLoaded(f) => FindFlag(b.db, b.projectId, b.environmentId, b.keys[i]) == Some(f)
    case HasFlag(f) => Found(b, i, f)
    case SwitchedOnWith(f, env) => On(b, i, f, env)
    case RulesMissed(f, env) => On(b, i, f, env)
    case RulesLoaded(f, env, rs) => On(b, i, f, env) && Listing(b.db, f.id, rs)
    case HasRules(f, env, rs) => On(b, i, f, env) && Listing(b.db, f.id, rs)
    case Looping(_, _, _, _) => LoopOk(b, i, p)
    case SegmentMissed(l) => SegmentLoopOk(b, i, l)
    case SegmentLoaded(l, s) => SegmentLoopOk(b, i, l) && s.id in b.db.segments && b.db.segments[s.id] == s && l.rest[0].segmentId == Some(s.id)
    case Done(r) => Alone(b, i, r)
  }

  ghost predicate SlotsOk(b: Batch, sh: Shared) {
    && sh.next <= |b.keys| == |sh.results| && |sh.workers| <= LIMIT
    && (forall i :: i in sh.workers ==> i < sh.next)
    && (forall i :: 0 <= i < |sh.results| ==> (sh.results[i].Some? <==> i in sh.writes))
    && (forall i :: i in sh.writes ==> i < sh.next && i !in sh.workers)
    && (forall i :: 0 <= i < sh.next ==> i in sh.workers || i in sh.writes)
    && (forall j, k :: 0 <= j < k < |sh.writes| ==> sh.writes[j] != sh.writes[k])
  }

  ghost predicate ResultsOk(b: Batch, sh: Shared)
    requires |b.keys| == |b.faults| == |sh.results|
  {
    forall i :: 0 <= i < |sh.results| && sh.results[i].Some? ==> Reported(b, i, sh.results[i].value)
  }

  ghost predicate Reported(b: Batch, i: nat, item: Item)
    requires i < |b.keys| == |b.faults|
  {
    exists r :: Alone(b, i, r) && item == ItemOf(b.keys[i], r)
  }

  ghost predicate Inv(b: Batch, sh: Shared) {
    && Sound(b) && Truthful(b, sh.cache) && SlotsOk(b, sh) && ResultsOk(b, sh)
    && forall i :: i in sh.workers ==> PhaseOk(b, i, sh.workers[i])
  }

  // ---------------------------------------------------------------- one access

  lemma WithFlagTruthful(b: Batch, c: CacheView, f: Flag)
    requires Truthful(b, c) && FlagTrue(b.db, f)
    ensures Truthful(b, WithFlag(c, f, b.now, TTL))
  {
  }

  lemma WithRulesTruthful(b: Batch, c: CacheView, id: Uuid, rs: seq<Rule>)
    requires Truthful(b, c) && Listing(b.db, id, rs)
    ensures Truthful(b, WithRules(c, id, rs, b.now, TTL))
  {
  }

  lemma WithSegmentTruthful(b: Batch, c: CacheView, s: Segment)
    requires Truthful(b, c) && s.id in b.db.segments && b.db.segments[s.id] == s
    ensures Truthful(b, WithSegment(c, s, b.now, TTL))
  {
  }

  lemma AccessFlag(b: Batch, c: CacheView, i: nat, p: Phase, listing: seq<Rule>)
    requires Sound(b) && Truthful(b, c) && i < |b.keys| && PhaseOk(b, i, p)
    requires p.Begun? || p.FlagMissed? || p.FlagLoaded?
    ensures var (p1, c1) := Next(b, c, i, p, listing); PhaseOk(b, i, p1) && Truthful(b, c1)
  {
    var s := Slot(b.projectId, b.environmentId, b.keys[i]);
    match p
    case Begun =>
      if Live(c.flagAt, s, b.now) {
        var f := c.flagAt[s].value;
        OneAnswerBySlot(b.px, b.db, s, f.id);
      }
    case FlagMissed =>
      if FindFlag(b.db, b.projectId, b.environmentId, b.keys[i]).None? {
        assert Explained(b.px, b.db, RequestOf(b, i), b.now, b.faults[i], Err(NotFound), [], {});
      }
    case FlagLoaded(f) =>
      WithFlagTruthful(b, c, f);
  }

  lemma AccessState(b: Batch, c: CacheView, i: nat, p: Phase, listing: seq<Rule>)
    requires Sound(b) && Truthful(b, c) && i < |b.keys| && PhaseOk(b, i, p) && p.HasFlag?
    ensures var (p1, c1) := Next(b, c, i, p, listing); PhaseOk(b, i, p1) && Truthful(b, c1)
  {
    var used := ListingExists(b.px, b.db, p.flag.id);
    assert MayReturn(b.db, RequestOf(b, i), used);
    var p1 := Next(b, c, i, p, listing).0;
    if p1.Done? {
      assert Explained(b.px, b.db, RequestOf(b, i), b.now, b.faults[i], p1.result, used, {});
    }
  }

  lemma AccessRules(b: Batch, c: CacheView, i: nat, p: Phase, listing: seq<Rule>)
    requires Sound(b) && Truthful(b, c) && i < |b.keys| && PhaseOk(b, i, p)
    requires p.SwitchedOnWith? || p.RulesMissed? || p.RulesLoaded? || p.HasRules?
    requires p.RulesMissed? ==> Listing(b.db, p.flag.id, listing)
    ensures var (p1, c1) := Next(b, c, i, p, listing); PhaseOk(b, i, p1) && Truthful(b, c1)
  {
    match p
    case RulesLoaded(f, env, rs) => WithRulesTruthful(b, c, f.id, rs);
    case HasRules(f, env, rs) =>
      var p1 := Looping(f, env, rs, ActiveRead(b.db, f.id, b.environmentId, b.faults[i]));
      assert Passed(b, i, p1, rs, 0, {});
    case _ =>
  }

  lemma {:induction false} RestDecides(b: Batch, i: nat, p: Phase, rs: seq<Rule>, k: nat, skipped: set<Uuid>, n: nat)
    requires i < |b.keys| == |b.faults| && p.Looping? && Passed(b, i, p, rs, k, skipped) && n <= k
    ensures FirstMatch(b.px, b.db.segments, rs[n..], p.active - skipped, b.ctx, p.flag.key, b.now)
         == FirstMatch(b.px, b.db.segments, p.rest, p.active, b.ctx, p.flag.key, b.now)
    decreases k - n
  {
    if n == k {
      SameActivity(b.px, b.db.segments, p.rest, p.active - skipped, p.active, b.ctx, p.flag.key, b.now);
    } else {
      RestDecides(b, i, p, rs, k, skipped, n + 1);
      assert rs[n..][0] == rs[n] && rs[n..][1..] == rs[n + 1..];
    }
  }

  lemma LoopEnds(b: Batch, i: nat, p: Phase, hit: Option<Rule>)
    requires Sound(b) && i < |b.keys| && LoopOk(b, i, p)
    requires hit == FirstMatch(b.px, b.db.segments, p.rest, p.active, b.ctx, p.flag.key, b.now)
    ensures Alone(b, i, Ok(if hit.Some? then Matched(p.flag, hit.value) else Defaulted(p.flag, p.env)))
  {
    var rs: seq<Rule>, k: nat, skipped: set<Uuid> :| Passed(b, i, p, rs, k, skipped);
    RestDecides(b, i, p, rs, k, skipped, 0);
    assert rs[0..] == rs;
    DecidedAlone(b, i, p, rs, skipped, hit);
  }

  lemma DecidedAlone(b: Batch, i: nat, p: Phase, rs: seq<Rule>, skipped: set<Uuid>, hit: Option<Rule>)
    requires i < |b.keys| == |b.faults| && p.Looping? && On(b, i, p.flag, p.env)
    requires p.active == ActiveRead(b.db, p.flag.id, b.environmentId, b.faults[i])
    requires Listing(b.db, p.flag.id, rs) && Skippable(rs, b.faults[i], skipped)
    requires hit == FirstMatch(b.px, b.db.segments, rs, p.active - skipped, b.ctx, p.flag.key, b.now)
    ensures Alone(b, i, Ok(if hit.Some? then Matched(p.flag, hit.value) else Defaulted(p.flag, p.env)))
  {
    var r := Ok(if hit.Some? then Matched(p.flag, hit.value) else Defaulted(p.flag, p.env));
    assert Explained(b.px, b.db, RequestOf(b, i), b.now, b.faults[i], r, rs, skipped);
  }

  /** A rule may be decided without its segment only if the segment could not be read. */
  lemma TriedOk(b: Batch, i: nat, p: Phase, segment: Option<Segment>)
    requires Sound(b) && i < |b.keys| && LoopOk(b, i, p) && p.rest != [] && p.rest[0].id in p.active
    requires var truly := MatchesRule(b.px, p.rest[0], SegmentFor(b.db.segments, p.rest[0]), b.ctx, p.flag.key, b.now);
             MatchesRule(b.px, p.rest[0], segment, b.ctx, p.flag.key, b.now) == truly
             || (segment.None? && Unreadable(p.rest[0], b.faults[i]))
    ensures PhaseOk(b, i, Tried(b, p, segment))
  {
    if MatchesRule(b.px, p.rest[0], segment, b.ctx, p.flag.key, b.now) {
      LoopEnds(b, i, p, Some(p.rest[0]));
    } else {
      SkipOk(b, i, p);
    }
  }

  lemma SkipOk(b: Batch, i: nat, p: Phase)
    requires Sound(b) && i < |b.keys| && LoopOk(b, i, p) && p.rest != []
    requires Unreadable(p.rest[0], b.faults[i]) || !Takes(b.px, b.db.segments, p.rest[0], p.active, b.ctx, p.flag.key, b.now)
    ensures LoopOk(b, i, p.(rest := p.rest[1..]))
  {
    var rs: seq<Rule>, k: nat, skipped: set<Uuid> :| Passed(b, i, p, rs, k, skipped);
    var skipped1 := PassOne(b, i, p, rs, k, skipped);
  }

  lemma PassOne(b: Batch, i: nat, p: Phase, rs: seq<Rule>, k: nat, skipped: set<Uuid>) returns (skipped1: set<Uuid>)
    requires i < |b.keys| == |b.faults| && p.Looping? && p.rest != [] && Passed(b, i, p, rs, k, skipped)
    requires Unreadable(p.rest[0], b.faults[i]) || !Takes(b.px, b.db.segments, p.rest[0], p.active, b.ctx, p.flag.key, b.now)
    ensures Passed(b, i, p.(rest := p.rest[1..]), rs, k + 1, skipped1)
  {
    assert rs[k] == p.rest[0] && p.rest[1..] == rs[k + 1..];
    var takes := Takes(b.px, b.db.segments, p.rest[0], p.active, b.ctx, p.flag.key, b.now);
    skipped1 := if takes then skipped + {rs[k].id} else skipped;
  }

  lemma AccessLoop(b: Batch, c: CacheView, i: nat, p: Phase)
    requires Sound(b) && Truthful(b, c) && i < |b.keys| && LoopOk(b, i, p)
    ensures PhaseOk(b, i, Looped(b, c, p))
  {
    if p.rest == [] {
      LoopEnds(b, i, p, None);
    } else if p.rest[0].id !in p.active {
      SkipOk(b, i, p);
    } else if !p.rest[0].ruleType.SegmentMember? || p.rest[0].segmentId.None? {
      TriedOk(b, i, p, None);
    } else {
      AskSegment(b, c, i, p);
    }
  }

  lemma AskSegment(b: Batch, c: CacheView, i: nat, p: Phase)
    requires Sound(b) && Truthful(b, c) && i < |b.keys| && SegmentLoopOk(b, i, p)
    ensures PhaseOk(b, i, Looped(b, c, p))
  {
    var id := p.rest[0].segmentId.value;
    var hit := CachedSegment(c, id, b.now);
    if hit.Some? {
      assert Live(c.segmentAt, id, b.now);
      TriedOk(b, i, p, hit);
    }
  }

  lemma ReadSegment(b: Batch, i: nat, l: Phase)
    requires Sound(b) && i < |b.keys| && SegmentLoopOk(b, i, l)
    ensures PhaseOk(b, i, SegmentRead(b, i, l))
  {
    var id := l.rest[0].segmentId.value;
    if id in b.faults[i].segments || id !in b.db.segments {
      TriedOk(b, i, l, None);
    } else {
      assert b.db.segments[id].id == id;
    }
  }

  lemma AccessSegment(b: Batch, c: CacheView, i: nat, p: Phase, listing: seq<Rule>)
    requires Sound(b) && Truthful(b, c) && i < |b.keys| && PhaseOk(b, i, p)
    requires p.SegmentMissed? || p.SegmentLoaded?
    ensures var (p1, c1) := Next(b, c, i, p, listing); PhaseOk(b, i, p1) && Truthful(b, c1)
  {
    if p.SegmentLoaded? {
      TriedOk(b, i, p.loop, Some(p.segment));
      WithSegmentTruthful(b, c, p.segment);
    } else {
      ReadSegment(b, i, p.loop);
    }
  }

  // ---------------------------------------------------------------- one move

  lemma AccessKeeps(b: Batch, sh: Shared, i: nat, listing: seq<Rule>)
    requires Inv(b, sh) && Enabled(b, sh, Access(i, listing))
    ensures Inv(b, After(b, sh, Access(i, listing)))
  {
    var p := sh.workers[i];
    if p.Begun? || p.FlagMissed? || p.FlagLoaded? {
      AccessFlag(b, sh.cache, i, p, listing);
    } else if p.HasFlag? {
      AccessState(b, sh.cache, i, p, listing);
    } else if p.Looping? {
      AccessLoop(b, sh.cache, i, p);
    } else if p.SegmentMissed? || p.SegmentLoaded? {
      AccessSegment(b, sh.cache, i, p, listing);
    } else {
      AccessRules(b, sh.cache, i, p, listing);
    }
    StepKeeps(b, sh, i, listing);
  }

  lemma StepKeeps(b: Batch, sh: Shared, i: nat, listing: seq<Rule>)
    requires Inv(b, sh) && Enabled(b, sh, Access(i, listing))
    requires var (p, c) := Next(b, sh.cache, i, sh.workers[i], listing); PhaseOk(b, i, p) && Truthful(b, c)
    ensures Inv(b, After(b, sh, Access(i, listing)))
  {
    var sh1 := After(b, sh, Access(i, listing));
    assert sh1.workers.Keys == sh.workers.Keys;
    assert |sh1.workers| == |sh1.workers.Keys| == |sh.workers.Keys| == |sh.workers|;
  }

  lemma SpawnKeeps(b: Batch, sh: Shared)
    requires Inv(b, sh) && Enabled(b, sh, Spawn)
    ensures Inv(b, After(b, sh, Spawn))
  {
    SpawnSlots(b, sh);
    var sh1 := After(b, sh, Spawn);
    forall i | i in sh1.workers ensures PhaseOk(b, i, sh1.workers[i]) {
      assert i != sh.next ==> PhaseOk(b, i, sh.workers[i]);
    }
  }

  lemma SpawnSlots(b: Batch, sh: Shared)
    requires SlotsOk(b, sh) && Enabled(b, sh, Spawn)
    ensures SlotsOk(b, After(b, sh, Spawn))
  {
    var sh1 := After(b, sh, Spawn);
    assert sh1.workers.Keys == sh.workers.Keys + {sh.next};
    assert |sh1.workers| == |sh1.workers.Keys| == |sh.workers.Keys| + 1 == |sh.workers| + 1;
  }

  lemma WriteKeeps(b: Batch, sh: Shared, i: nat)
    requires Inv(b, sh) && Enabled(b, sh, Write(i))
    ensures Inv(b, After(b, sh, Write(i)))
  {
    var sh1 := After(b, sh, Write(i));
    WriteSlots(b, sh, i);
    assert PhaseOk(b, i, sh.workers[i]);
    assert Reported(b, i, sh1.results[i].value);
    forall k | 0 <= k < |sh1.results| && sh1.results[k].Some? ensures Reported(b, k, sh1.results[k].value) {
      assert k != i ==> sh1.results[k] == sh.results[k];
    }
  }

  lemma WriteSlots(b: Batch, sh: Shared, i: nat)
    requires SlotsOk(b, sh) && Enabled(b, sh, Write(i))
    ensures SlotsOk(b, After(b, sh, Write(i)))
  {
    var sh1 := After(b, sh, Write(i));
    assert sh1.workers.Keys == sh.workers.Keys - {i};
    assert |sh1.workers| == |sh1.workers.Keys| == |sh.workers.Keys| - 1 == |sh.workers| - 1;
  }

  lemma DropKeeps(b: Batch, sh: Shared, cache: CacheView)
    requires Inv(b, sh) && Subview(cache, sh.cache)
    ensures Inv(b, After(b, sh, Drop(cache)))
  {
    assert forall x :: Live(cache.flagAt, x, b.now) ==> Live(sh.cache.flagAt, x, b.now);
    assert forall x :: Live(cache.rulesOf, x, b.now) ==> Live(sh.cache.rulesOf, x, b.now);
    assert forall x :: Live(cache.segmentAt, x, b.now) ==> Live(sh.cache.segmentAt, x, b.now);
  }

  lemma MoveKeeps(b: Batch, sh: Shared, m: Move)
    requires Inv(b, sh) && Enabled(b, sh, m)
    ensures Inv(b, After(b, sh, m))
  {
    match m
    case Spawn => SpawnKeeps(b, sh);
    case Access(i, listing) => AccessKeeps(b, sh, i, listing);
    case Write(i) => WriteKeeps(b, sh, i);
    case Drop(cache) => DropKeeps(b, sh, cache);
  }

  // ---------------------------------------------------------------- the accesses of one worker make up Evaluate

  function Concluded(b: Batch, c: CacheView, i: nat, l: Phase): (Result<EvalResult>, CacheView)
    requires i < |b.faults| && l.Looping?
  {
    var (hit, c1) := Scan(b.px, c, b.db, l.rest, l.active, b.ctx, l.flag.key, b.now, b.faults[i]);
    (Ok(if hit.Some? then Matched(l.flag, hit.value) else Defaulted(l.flag, l.env)), c1)
  }

  function WithTheRules(b: Batch, c: CacheView, i: nat, f: Flag, env: Option<EnvState>, rs: seq<Rule>): (Result<EvalResult>, CacheView)
    requires i < |b.faults|
  {
    Concluded(b, c, i, Looping(f, env, rs, ActiveRead(b.db, f.id, b.environmentId, b.faults[i])))
  }

  function WithTheFlag(b: Batch, c: CacheView, i: nat, f: Flag, listing: seq<Rule>): (Result<EvalResult>, CacheView)
    requires i < |b.faults|
  {
    var env := EnvRead(b.db, f.id, b.environmentId, b.faults[i]);
    if !SwitchedOn(f, env) then (Ok(Off(f)), c)
    else
      var (rules, c1) := FetchRules(c, f.id, listing, b.now, b.faults[i]);
      if rules.Err? then (Err(rules.error), c1) else WithTheRules(b, c1, i, f, env, rules.value)
  }

  function AfterTry(b: Batch, c: CacheView, i: nat, l: Phase, segment: Option<Segment>): (Result<EvalResult>, CacheView)
    requires i < |b.faults| && l.Looping? && l.rest != []
  {
    var p := Tried(b, l, segment);
    if p.Done? then (p.result, c) else Concluded(b, c, i, p)
  }

  /** What a worker in phase p would return, and leave in the cache, if nobody interfered any more. */
  ghost function Remaining(b: Batch, c: CacheView, i: nat, p: Phase, listing: seq<Rule>): (Result<EvalResult>, CacheView)
    requires i < |b.keys| == |b.faults|
  {
    match p
    case Begun => EvaluateCached(b.px, c, b.db, RequestOf(b, i), listing, b.now, b.faults[i])
    case FlagMissed =>
      var p1 := FlagRead(b, i, FindFlag(b.db, b.projectId, b.environmentId, b.keys[i]));
      if p1.Done? then (p1.result, c) else WithTheFlag(b, WithFlag(c, p1.flag, b.now, TTL), i, p1.flag, listing)
    case FlagLoaded(f) => WithTheFlag(b, WithFlag(c, f, b.now, TTL), i, f, listing)
    case HasFlag(f) => WithTheFlag(b, c, i, f, listing)
    case SwitchedOnWith(f, env) =>
      var (rules, c1) := FetchRules(c, f.id, listing, b.now, b.faults[i]);
      if rules.Err? then (Err(rules.error), c1) else WithTheRules(b, c1, i, f, env, rules.value)
    case RulesMissed(f, env) =>
      if b.faults[i].rules then (Err(Storage), c)
      else WithTheRules(b, WithRules(c, f.id, listing, b.now, TTL), i, f, env, listing)
    case RulesLoaded(f, env, rs) => WithTheRules(b, WithRules(c, f.id, rs, b.now, TTL), i, f, env, rs)
    case HasRules(f, env, rs) => WithTheRules(b, c, i, f, env, rs)
    case Looping(_, _, _, _) => Concluded(b, c, i, p)
    case SegmentMissed(l) =>
      if !AtSegment(l) then (Err(Storage), c)
      else
        var p1 := SegmentRead(b, i, l);
        if p1.SegmentLoaded? then AfterTry(b, WithSegment(c, p1.segment, b.now, TTL), i, l, Some(p1.segment))
        else AfterTry(b, c, i, l, None)
    case SegmentLoaded(l, s) =>
      if !AtSegment(l) then (Err(Storage), c) else AfterTry(b, WithSegment(c, s, b.now, TTL), i, l, Some(s))
    case Done(r) => (r, c)
  }

  /** The rule under the loop is an active segment rule, when a segment is being fetched. */
  predicate WellPlaced(p: Phase) {
    p.SegmentMissed? || p.SegmentLoaded? ==>
      AtSegment(p.loop) && p.loop.rest[0].id in p.loop.active && p.loop.rest[0].ruleType.SegmentMember?
  }

  lemma LoopAccess(b: Batch, c: CacheView, i: nat, p: Phase, listing: seq<Rule>)
    requires i < |b.keys| == |b.faults| && p.Looping?
    ensures WellPlaced(Looped(b, c, p)) && Remaining(b, c, i, Looped(b, c, p), listing) == Concluded(b, c, i, p)
  {
    if p.rest != [] {
      var r := p.rest[0];
      var (taken, c1) := TryRule(b.px, c, b.db, r, p.active, b.ctx, p.flag.key, b.now, b.faults[i]);
      assert Concluded(b, c, i, p) == if taken then (Ok(Matched(p.flag, r)), c1) else Concluded(b, c1, i, p.(rest := p.rest[1..]));
    }
  }

  lemma SegmentAccess(b: Batch, c: CacheView, i: nat, p: Phase, listing: seq<Rule>)
    requires i < |b.keys| == |b.faults| && WellPlaced(p) && (p.SegmentMissed? || p.SegmentLoaded?)
    ensures var (p1, c1) := Next(b, c, i, p, listing);
            WellPlaced(p1) && Remaining(b, c1, i, p1, listing) == Remaining(b, c, i, p, listing)
  {
  }

  /** No access changes what the worker is heading for, which at the start is Evaluate through the cache. */
  lemma AccessesMakeEvaluate(b: Batch, c: CacheView, i: nat, p: Phase, listing: seq<Rule>)
    requires i < |b.keys| == |b.faults| && WellPlaced(p)
    ensures var (p1, c1) := Next(b, c, i, p, listing);
            WellPlaced(p1) && Remaining(b, c1, i, p1, listing) == Remaining(b, c, i, p, listing)
    ensures p.Begun? ==> Remaining(b, c, i, p, listing) == EvaluateCached(b.px, c, b.db, RequestOf(b, i), listing, b.now, b.faults[i])
    ensures p.Done? ==> Remaining(b, c, i, p, listing) == (p.result, c)
  {
    if p.Looping? {
      LoopAccess(b, c, i, p, listing);
    } else if p.SegmentMissed? || p.SegmentLoaded? {
      SegmentAccess(b, c, i, p, listing);
    }
  }

  // ---------------------------------------------------------------- whole batches

  function Start(b: Batch, cache: CacheView): Shared {
    Shared(0, map[], cache, seq(|b.keys|, _ => None), [])
  }

  lemma StartOk(b: Batch, cache: CacheView)
    requires Sound(b) && Coherent(b.db, cache, b.now)
    ensures Inv(b, Start(b, cache))
  {
  }

  ghost function System(b: Batch): Machine<Shared, Move> {
    Machine((sh, m) => Enabled(b, sh, m), (sh, m) => if Enabled(b, sh, m) then After(b, sh, m) else sh)
  }

  lemma InvAlways(b: Batch, sh: Shared, moves: seq<Move>)
    requires Inv(b, sh) && Run(System(b), sh, moves)
    ensures Inv(b, End(System(b), sh, moves))
  {
    forall x, m | Inv(b, x) && Enabled(b, x, m) ensures Inv(b, After(b, x, m)) {
      MoveKeeps(b, x, m);
    }
    Always(System(b), x => Inv(b, x), sh, moves);
  }

  /** g.Wait has returned. */
  predicate Finished(b: Batch, sh: Shared) { sh.next == |b.keys| && sh.workers == map[] }

  /** No schedule gets stuck: an unfinished batch has a worker that can go on, or a key that can start. */
  lemma NeverStuck(b: Batch, sh: Shared) returns (m: Move)
    requires Inv(b, sh) && !Finished(b, sh)
    ensures Enabled(b, sh, m) && !m.Drop?
  {
    if sh.workers == map[] {
      m := Spawn;
    } else {
      var i :| i in sh.workers;
      var p := sh.workers[i];
      if p.Done? {
        m := Write(i);
      } else {
        var listing := [];
        if p.RulesMissed? {
          assert PhaseOk(b, i, p);
          listing := ListingExists(b.px, b.db, p.flag.id);
        }
        m := Access(i, listing);
      }
    }
  }

  // ---------------------------------------------------------------- every schedule ends

  function LoopRank(l: Phase): nat { if l.Looping? then 3 * |l.rest| else 0 }

  /** An upper bound on the accesses before a worker is done; n bounds the length of a rule list. */
  function Rank(p: Phase, n: nat): nat {
    match p
    case Begun => 3 * n + 11
    case FlagMissed => 3 * n + 10
    case FlagLoaded(_) => 3 * n + 9
    case HasFlag(_) => 3 * n + 8
    case SwitchedOnWith(_, _) => 3 * n + 7
    case RulesMissed(_, _) => 3 * n + 6
    case RulesLoaded(_, _, rs) => 3 * |rs| + 5
    case HasRules(_, _, rs) => 3 * |rs| + 4
    case Looping(_, _, rest, _) => 3 * |rest| + 3
    case SegmentMissed(l) => LoopRank(l) + 2
    case SegmentLoaded(l, _) => LoopRank(l) + 1
    case Done(_) => 0
  }

  function SlotRank(b: Batch, sh: Shared, i: nat): nat {
    var n := |b.db.rules|;
    if i >= sh.next then 3 * n + 13 else if i in sh.workers then Rank(sh.workers[i], n) + 1 else 0
  }

  /** The moves the first m keys may still take. */
  function Left(b: Batch, sh: Shared, m: nat): nat { if m == 0 then 0 else Left(b, sh, m - 1) + SlotRank(b, sh, m - 1) }

  lemma {:induction false} LeftShrinks(b: Batch, sh: Shared, sh1: Shared, i: nat, m: nat)
    requires forall j: nat :: j != i ==> SlotRank(b, sh1, j) == SlotRank(b, sh, j)
    requires SlotRank(b, sh1, i) < SlotRank(b, sh, i)
    ensures if i < m then Left(b, sh1, m) < Left(b, sh, m) else Left(b, sh1, m) == Left(b, sh, m)
    decreases m
  {
    if m > 0 {
      LeftShrinks(b, sh, sh1, i, m - 1);
    }
  }

  lemma {:induction false} SameLeft(b: Batch, sh: Shared, sh1: Shared, m: nat)
    requires sh1.next == sh.next && sh1.workers == sh.workers
    ensures Left(b, sh1, m) == Left(b, sh, m)
    decreases m
  {
    if m > 0 {
      SameLeft(b, sh, sh1, m - 1);
    }
  }

  lemma {:induction false} NoLongerThan(rs: seq<Rule>, ids: set<Uuid>)
    requires DistinctIds(rs) && forall i :: 0 <= i < |rs| ==> rs[i].id in ids
    ensures |rs| <= |ids|
    decreases |rs|
  {
    if rs != [] {
      NoLongerThan(rs[1..], ids - {rs[0].id});
    }
  }

  lemma ListingFits(b: Batch, flagId: Uuid, rs: seq<Rule>)
    requires Listing(b.db, flagId, rs)
    ensures |rs| <= |b.db.rules|
  {
    NoLongerThan(rs, b.db.rules.Keys);
    assert |b.db.rules.Keys| == |b.db.rules|;
  }

  predicate InLoop(p: Phase) { p.Looping? || p.SegmentMissed? || p.SegmentLoaded? }

  lemma LoopShrinks(b: Batch, c: CacheView, i: nat, p: Phase, listing: seq<Rule>)
    requires i < |b.keys| == |b.faults| && InLoop(p) && (p.Looping? || AtSegment(p.loop))
    ensures Rank(Next(b, c, i, p, listing).0, |b.db.rules|) < Rank(p, |b.db.rules|)
  {
  }

  lemma OtherShrinks(b: Batch, c: CacheView, i: nat, p: Phase, listing: seq<Rule>)
    requires i < |b.keys| == |b.faults| && !InLoop(p) && !p.Done?
    requires p.RulesMissed? ==> |listing| <= |b.db.rules|
    requires p.SwitchedOnWith? && CachedRules(c, p.flag.id, b.now).Some? ==> |CachedRules(c, p.flag.id, b.now).value| <= |b.db.rules|
    ensures Rank(Next(b, c, i, p, listing).0, |b.db.rules|) < Rank(p, |b.db.rules|)
  {
  }

  lemma AccessShrinks(b: Batch, sh: Shared, i: nat, listing: seq<Rule>)
    requires Sound(b) && Truthful(b, sh.cache) && Enabled(b, sh, Access(i, listing)) && PhaseOk(b, i, sh.workers[i])
    ensures Rank(Next(b, sh.cache, i, sh.workers[i], listing).0, |b.db.rules|) < Rank(sh.workers[i], |b.db.rules|)
  {
    var p := sh.workers[i];
    if InLoop(p) {
      LoopShrinks(b, sh.cache, i, p, listing);
    } else {
      if p.RulesMissed? {
        ListingFits(b, p.flag.id, listing);
      } else if p.SwitchedOnWith? && Live(sh.cache.rulesOf, p.flag.id, b.now) {
        ListingFits(b, p.flag.id, sh.cache.rulesOf[p.flag.id].value);
      }
      OtherShrinks(b, sh.cache, i, p, listing);
    }
  }

  lemma MoveShrinks(b: Batch, sh: Shared, m: Move)
    requires Inv(b, sh) && Enabled(b, sh, m)
    ensures var before, after := Left(b, sh, |b.keys|), Left(b, After(b, sh, m), |b.keys|);
            if m.Drop? then after == before else after < before
  {
    match m
    case Spawn => LeftShrinks(b, sh, After(b, sh, m), sh.next, |b.keys|);
    case Access(i, listing) =>
      assert PhaseOk(b, i, sh.workers[i]);
      AccessLeft(b, sh, i, listing);
    case Write(i) => LeftShrinks(b, sh, After(b, sh, m), i, |b.keys|);
    case Drop(_) => SameLeft(b, sh, After(b, sh, m), |b.keys|);
  }

  lemma AccessLeft(b: Batch, sh: Shared, i: nat, listing: seq<Rule>)
    requires Sound(b) && Truthful(b, sh.cache) && Enabled(b, sh, Access(i, listing)) && PhaseOk(b, i, sh.workers[i]) && i < sh.next
    ensures Left(b, After(b, sh, Access(i, listing)), |b.keys|) < Left(b, sh, |b.keys|)
  {
    AccessShrinks(b, sh, i, listing);
    LeftShrinks(b, sh, After(b, sh, Access(i, listing)), i, |b.keys|);
  }

  /** The moves of the workers, evictions not counted. */
  function Steps(moves: seq<Move>): nat {
    if moves == [] then 0 else Steps(moves[1..]) + if moves[0].Drop? then 0 else 1
  }

  lemma {:induction false} StepsBounded(b: Batch, sh: Shared, moves: seq<Move>)
    requires Inv(b, sh) && Run(System(b), sh, moves)
    ensures Steps(moves) + Left(b, End(System(b), sh, moves), |b.keys|) <= Left(b, sh, |b.keys|)
    decreases |moves|
  {
    if moves != [] {
      MoveKeeps(b, sh, moves[0]);
      MoveShrinks(b, sh, moves[0]);
      StepsBounded(b, After(b, sh, moves[0]), moves[1..]);
    }
  }

  lemma {:induction false} LeftAtStart(b: Batch, cache: CacheView, m: nat)
    ensures Left(b, Start(b, cache), m) == m * (3 * |b.db.rules| + 13)
    decreases m
  {
    if m > 0 {
      LeftAtStart(b, cache, m - 1);
    }
  }

  /** So every schedule ends: no run has more than a fixed number of moves for each key, and a run that cannot go on has
      finished. */
  lemma BatchEnds(b: Batch, cache: CacheView, moves: seq<Move>)
    requires Sound(b) && Coherent(b.db, cache, b.now) && Run(System(b), Start(b, cache), moves)
    ensures Steps(moves) <= |b.keys| * (3 * |b.db.rules| + 13)
    ensures (forall m :: Enabled(b, End(System(b), Start(b, cache), moves), m) ==> m.Drop?) ==>
              Finished(b, End(System(b), Start(b, cache), moves))
  {
    StartOk(b, cache);
    StepsBounded(b, Start(b, cache), moves);
    LeftAtStart(b, cache, |b.keys|);
    InvAlways(b, Start(b, cache), moves);
    var end := End(System(b), Start(b, cache), moves);
    if !Finished(b, end) {
      var m := NeverStuck(b, end);
    }
  }

  // ---------------------------------------------------------------- what a finished batch holds

  lemma {:induction false} NoRepeats(s: seq<nat>, n: nat)
    requires forall j, k :: 0 <= j < k < |s| ==> s[j] != s[k]
    requires forall i: nat :: i < n <==> i in s
    ensures |s| == n
    decreases n
  {
    if n == 0 {
      assert forall k :: 0 <= k < |s| ==> s[k] in s;
    } else {
      assert n - 1 in s;
      var k :| 0 <= k < |s| && s[k] == n - 1;
      var rest := s[..k] + s[k + 1..];
      forall i: nat ensures i < n - 1 <==> i in rest {
        if i in rest { assert i in s && i != n - 1; }
        if i < n - 1 {
          assert i in s;
          var j :| 0 <= j < |s| && s[j] == i;
          assert if j < k then rest[j] == i else rest[j - 1] == i;
        }
      }
      NoRepeats(rest, n - 1);
    }
  }

  /** Under every schedule of at most ten workers over a coherent cache, whatever reads fail for whatever keys: each slot
      is written exactly once, and holds what its key asked alone may come to with the failures of its own reads. */
  lemma BatchAnswersEachAlone(b: Batch, cache: CacheView, moves: seq<Move>)
    requires Sound(b) && Coherent(b.db, cache, b.now)
    requires Run(System(b), Start(b, cache), moves) && Finished(b, End(System(b), Start(b, cache), moves))
    ensures var end := End(System(b), Start(b, cache), moves);
            && |end.writes| == |b.keys| == |end.results|
            && (forall j, k :: 0 <= j < k < |end.writes| ==> end.writes[j] != end.writes[k])
            && (forall i :: 0 <= i < |b.keys| ==> i in end.writes && end.results[i].Some? && Reported(b, i, end.results[i].value))
  {
    StartOk(b, cache);
    InvAlways(b, Start(b, cache), moves);
    NoRepeats(End(System(b), Start(b, cache), moves).writes, |b.keys|);
  }

  /** The rules of the flag key i finds have distinct priorities. */
  ghost predicate Unambiguous(b: Batch, i: nat)
    requires i < |b.keys|
  {
    var row := FindFlag(b.db, b.projectId, b.environmentId, b.keys[i]);
    row.Some? ==> DistinctPriorities(b.db, row.value.id)
  }

  lemma AloneUnique(b: Batch, i: nat, r1: Result<EvalResult>, r2: Result<EvalResult>)
    requires Sound(b) && i < |b.keys| && CachedReadsWork(b.faults[i]) && Unambiguous(b, i) && Alone(b, i, r1) && Alone(b, i, r2)
    ensures r1 == r2
  {
    var a := MayAnswerStored(b.px, b.db, RequestOf(b, i), b.now, b.faults[i], r1);
    var c := MayAnswerStored(b.px, b.db, RequestOf(b, i), b.now, b.faults[i], r2);
    var row := FindFlag(b.db, b.projectId, b.environmentId, b.keys[i]);
    if row.Some? {
      ListingUnique(b.px, b.db, row.value.id, a, c);
    }
  }

  /** For a key whose own reads work and whose rules are unambiguous the schedule does not matter, nor do the failures of
      the other keys: any two runs, from any two coherent caches, end with the same result in its slot. */
  lemma ScheduleIrrelevant(b: Batch, cache1: CacheView, moves1: seq<Move>, cache2: CacheView, moves2: seq<Move>, i: nat)
    requires Sound(b) && Coherent(b.db, cache1, b.now) && Coherent(b.db, cache2, b.now)
    requires Run(System(b), Start(b, cache1), moves1) && Finished(b, End(System(b), Start(b, cache1), moves1))
    requires Run(System(b), Start(b, cache2), moves2) && Finished(b, End(System(b), Start(b, cache2), moves2))
    requires i < |b.keys| && CachedReadsWork(b.faults[i]) && Unambiguous(b, i)
    ensures var end1, end2 := End(System(b), Start(b, cache1), moves1), End(System(b), Start(b, cache2), moves2);
            i < |end1.results| && i < |end2.results| && end1.results[i] == end2.results[i]
  {
    BatchAnswersEachAlone(b, cache1, moves1);
    BatchAnswersEachAlone(b, cache2, moves2);
    var end1, end2 := End(System(b), Start(b, cache1), moves1), End(System(b), Start(b, cache2), moves2);
    var r1 :| Alone(b, i, r1) && end1.results[i].value == ItemOf(b.keys[i], r1);
    var r2 :| Alone(b, i, r2) && end2.results[i].value == ItemOf(b.keys[i], r2);
    AloneUnique(b, i, r1, r2);
  }
}
