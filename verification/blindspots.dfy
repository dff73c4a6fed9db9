/** The two kinds of call the cache is not told about, and exactly when that shows. */
module BlindSpots {
  import opened Model
  import opened Cache
  import opened Targeting
  import opened Evaluation
  import opened Service
  import opened Runs
  import Sql = Store

  lemma StillListed(db: Sql.Db, c: CacheView, x: Uuid, now: Time)
    requires Coherent(db, c, now)
    ensures Coherent(db, Invalidated(c, x, now), now)
  {
    InvalidateCoherent(db, db, c, x, now);
  }

  lemma OldRowListed(db: Sql.Db, db1: Sql.Db, c: CacheView, id: Uuid, owner: Uuid, now: Time)
    requires Coherent(db, c, now) && Live(c.rulesOf, owner, now)
    requires id in db.rules && db.rules[id].flagId == owner && db.rules[id].id == id
    requires id in db1.rules && db1.rules[id] != db.rules[id]
    ensures !Sql.Listing(db1, owner, c.rulesOf[owner].value)
  {
  }

  /** A rule rewritten under the id of another flag (a staged row carries its own flag_id) leaves the owner's
      cached rules in place: the cache stays right exactly when the id was right after all, the owner's rules were
      not cached, or nothing changed. */
  lemma UpdateRuleCoherentIff(px: Platform, w: World, now: Time, r: Rule)
    requires Sql.Valid(px, w.rows) && Coherent(w.rows, w.cache, now)
    requires r.id in w.rows.rules && RuleStatement(px, w.rows, UpdateRule(r)).Ok?
    ensures var owner := w.rows.rules[r.id].flagId;
            var after := Serve(px, w, now, OnRules(UpdateRule(r)));
            Coherent(after.rows, after.cache, now) <==>
            || r.flagId == owner
            || !Live(w.cache.rulesOf, owner, now)
            || after.rows.rules[r.id] == w.rows.rules[r.id]
  {
    var owner := w.rows.rules[r.id].flagId;
    var after := Serve(px, w, now, OnRules(UpdateRule(r)));
    if r.flagId == owner {
      ServeCoherent(px, w, now, OnRules(UpdateRule(r)));
    } else {
      WrongOwnerCoherentIff(px, w, now, r, owner, after);
    }
  }

  lemma WrongOwnerCoherentIff(px: Platform, w: World, now: Time, r: Rule, owner: Uuid, after: World)
    requires Coherent(w.rows, w.cache, now) && r.id in w.rows.rules && w.rows.rules[r.id].id == r.id
    requires owner == w.rows.rules[r.id].flagId != r.flagId
    requires Sql.UpdateRule(w.rows, r) == Ok(after.rows) && after.cache == Invalidated(w.cache, r.flagId, now)
    ensures Coherent(after.rows, after.cache, now) <==>
            !Live(w.cache.rulesOf, owner, now) || after.rows.rules[r.id] == w.rows.rules[r.id]
  {
    StillListed(w.rows, w.cache, r.flagId, now);
    if after.rows.rules[r.id] == w.rows.rules[r.id] {
      assert after.rows.rules == w.rows.rules;
    } else if Live(w.cache.rulesOf, owner, now) {
      OldRowListed(w.rows, after.rows, w.cache, r.id, owner, now);
      assert Live(after.cache.rulesOf, owner, now);
    } else {
      OwnerNotCached(w.rows, after.rows, after.cache, owner, now);
    }
  }

  lemma OwnerNotCached(db: Sql.Db, db1: Sql.Db, c: CacheView, owner: Uuid, now: Time)
    requires Coherent(db, c, now) && OnlyFlag(db, db1, owner) && db1.flags == db.flags && !Live(c.rulesOf, owner, now)
    ensures Coherent(db1, c, now)
  {
  }

  /** Segment edits never reach the cache. */
  lemma SegmentEditCoherentIff(px: Platform, w: World, now: Time, call: SegmentCall)
    requires Sql.Valid(px, w.rows) && Coherent(w.rows, w.cache, now)
    requires !call.CreateSegment? && SegmentStatement(w.rows, call).Ok?
    ensures var id := if call.UpdateSegment? then call.segment.id else call.id;
            var after := Serve(px, w, now, OnSegments(call));
            Coherent(after.rows, after.cache, now) <==>
            !Live(w.cache.segmentAt, id, now) || (call.UpdateSegment? && call.segment == w.rows.segments[id])
  {
    var id := if call.UpdateSegment? then call.segment.id else call.id;
    var after := Serve(px, w, now, OnSegments(call));
    assert after.cache == w.cache;
    if Live(w.cache.segmentAt, id, now) {
      assert w.cache.segmentAt[id].value == w.rows.segments[id];
    }
    if !Live(w.cache.segmentAt, id, now) || (call.UpdateSegment? && call.segment == w.rows.segments[id]) {
      OtherSegmentsKept(w.rows, after.rows, w.cache, id, now);
    }
  }

  lemma OtherSegmentsKept(db: Sql.Db, db1: Sql.Db, c: CacheView, x: Uuid, now: Time)
    requires Coherent(db, c, now) && db1.flags == db.flags && db1.rules == db.rules
    requires forall id :: id in db.segments && (id != x || Live(c.segmentAt, x, now)) ==> id in db1.segments && db1.segments[id] == db.segments[id]
    ensures Coherent(db1, c, now)
  {
  }

  // ---------------------------------------------------------------- an input on which it shows

  const SHOWN := Flag(1, 1, None, None, "k", Settings("n", "", Boolean, Feature, "", Some([]), Some([]), true, None), true, "true",
                      None, None, FRESH_LIFECYCLE)
  const TARGET := Rule(7, 1, UserTarget, 1, "a", None, "", "", ["u"], None, [], "", None, None, true)
  const TABLES := Sql.Db(map[1 := SHOWN], map[7 := TARGET], map[], map[(7, 5) := true], map[])
  const FILLED := CacheView(map[], map[], map[1 := Entry([TARGET], TTL)], map[])
  const ASKED := Request(1, 5, "k", EvalContext("u", map[]))
  const STAGED := TARGET.(flagId := 2, value := "b")

  const REWRITTEN := TARGET.(value := "b")
  const AFTER := World(TABLES.(rules := map[7 := REWRITTEN]), FILLED)

  lemma TablesCoherent(px: Platform)
    requires px.jsonb("true") == Some("true")
    ensures Sql.Valid(px, TABLES) && Coherent(TABLES, FILLED, 0)
  {
    assert Sql.StoredFlag(px, SHOWN) && Sql.StoredRule(TARGET);
    assert Sql.Listing(TABLES, 1, [TARGET]);
  }

  lemma AfterUpdate(px: Platform)
    ensures Serve(px, World(TABLES, FILLED), 0, OnRules(UpdateRule(STAGED))) == AFTER
  {
  }

  lemma FirstOfOne(px: Platform, r: Rule)
    requires r == TARGET || r == REWRITTEN
    ensures FirstMatch(px, map[], [r], {7}, ASKED.ctx, "k", 0) == Some(r)
    ensures Scan(px, FILLED, AFTER.rows, [r], {7}, ASKED.ctx, "k", 0, NO_FAULTS).0 == Some(r)
  {
  }

  lemma ShownFound()
    ensures Sql.FindFlag(AFTER.rows, 1, 5, "k") == Some(SHOWN) && Sql.ActiveRules(AFTER.rows, 1, 5) == {7}
  {
    assert Sql.Answers(AFTER.rows.flags[1], 1, 5, "k");
  }

  /** Rule 7 of flag 1 is updated to serve "b" by a payload naming flag 2: evaluation goes on serving "a". */
  lemma StaleRuleServed(px: Platform)
    requires px.jsonb("true") == Some("true")
    ensures Sql.Valid(px, TABLES) && Coherent(TABLES, FILLED, 0)
    ensures Serve(px, World(TABLES, FILLED), 0, OnRules(UpdateRule(STAGED))) == AFTER && Sql.Listing(AFTER.rows, 1, [REWRITTEN])
    ensures EvaluateStored(px, AFTER.rows, ASKED, [REWRITTEN], 0, NO_FAULTS) == Ok(Matched(SHOWN, REWRITTEN))
    ensures EvaluateCached(px, AFTER.cache, AFTER.rows, ASKED, [REWRITTEN], 0, NO_FAULTS).0 == Ok(Matched(SHOWN, TARGET))
  {
    TablesCoherent(px);
    AfterUpdate(px);
    ShownFound();
    FirstOfOne(px, REWRITTEN);
    FirstOfOne(px, TARGET);
    var c1 := WithFlag(FILLED, SHOWN, 0, TTL);
    assert CachedRules(c1, 1, 0) == Some([TARGET]);
  }

  // ---------------------------------------------------------------- and one for segments

  const EVERYBODY := Segment(3, AND, [])
  const NOBODY := Segment(3, OR, [])
  const BY_SEGMENT := Rule(7, 1, SegmentMember, 1, "a", None, "", "", [], Some(3), [], "", None, None, true)
  const GROUPED := Sql.Db(map[1 := SHOWN], map[7 := BY_SEGMENT], map[], map[(7, 5) := true], map[3 := EVERYBODY])
  const REGROUPED := GROUPED.(segments := map[3 := NOBODY])
  const HELD := CacheView(map[], map[], map[], map[3 := Entry(EVERYBODY, TTL)])

  lemma GroupedCoherent(px: Platform)
    requires px.jsonb("true") == Some("true")
    ensures Sql.Valid(px, GROUPED) && Coherent(GROUPED, HELD, 0)
  {
    assert Sql.StoredFlag(px, SHOWN) && Sql.StoredRule(BY_SEGMENT);
  }

  lemma GroupedFound()
    ensures Sql.FindFlag(REGROUPED, 1, 5, "k") == Some(SHOWN) && Sql.ActiveRules(REGROUPED, 1, 5) == {7}
    ensures Sql.Listing(REGROUPED, 1, [BY_SEGMENT])
  {
    assert Sql.Answers(REGROUPED.flags[1], 1, 5, "k");
  }

  /** Segment 3 is edited from everybody to nobody: evaluation goes on counting the user in. */
  lemma StaleSegmentServed(px: Platform)
    requires px.jsonb("true") == Some("true")
    ensures Sql.Valid(px, GROUPED) && Coherent(GROUPED, HELD, 0)
    ensures Serve(px, World(GROUPED, HELD), 0, OnSegments(UpdateSegment(NOBODY))) == World(REGROUPED, HELD)
    ensures Sql.Listing(REGROUPED, 1, [BY_SEGMENT])
    ensures EvaluateStored(px, REGROUPED, ASKED, [BY_SEGMENT], 0, NO_FAULTS) == Ok(Defaulted(SHOWN, None))
    ensures EvaluateCached(px, HELD, REGROUPED, ASKED, [BY_SEGMENT], 0, NO_FAULTS).0 == Ok(Matched(SHOWN, BY_SEGMENT))
  {
    GroupedCoherent(px);
    GroupedFound();
    assert GROUPED.segments[3 := NOBODY] == map[3 := NOBODY];
    var c1 := WithFlag(HELD, SHOWN, 0, TTL);
    var c2 := WithRules(c1, 1, [BY_SEGMENT], 0, TTL);
    assert TryRule(px, c2, REGROUPED, BY_SEGMENT, {7}, ASKED.ctx, "k", 0, NO_FAULTS) == (true, c2);
    assert [BY_SEGMENT][1..] == [];
    assert !Takes(px, REGROUPED.segments, BY_SEGMENT, {7}, ASKED.ctx, "k", 0);
    assert FirstMatch(px, REGROUPED.segments, [BY_SEGMENT], {7}, ASKED.ctx, "k", 0) == None;
  }
}
