/** Which rule decides an evaluation, and what raising a rollout percentage can change. */
module Precedence {
  import opened Model
  import opened Store
  import opened Evaluation

  /** The moment of one evaluation: what Takes needs besides the rule. */
  datatype Moment = Moment(active: set<Uuid>, ctx: EvalContext, flagKey: string, now: Time)

  ghost predicate Wants(px: Platform, db: Db, m: Moment, r: Rule) {
    Takes(px, db.segments, r, m.active, m.ctx, m.flagKey, m.now)
  }

  ghost function Decided(px: Platform, db: Db, m: Moment, rs: seq<Rule>): Option<Rule> {
    FirstMatch(px, db.segments, rs, m.active, m.ctx, m.flagKey, m.now)
  }

  ghost predicate RuleOf(db: Db, flagId: Uuid, r: Rule) { r.id in db.rules && db.rules[r.id] == r && r.flagId == flagId }

  /** w has the lowest priority number among the flag's rules that are active and match; None: no rule does. */
  ghost predicate Wins(px: Platform, db: Db, flagId: Uuid, m: Moment, w: Option<Rule>) {
    && (w.Some? ==> RuleOf(db, flagId, w.value) && Wants(px, db, m, w.value))
    && (forall id | id in db.rules && db.rules[id].flagId == flagId && Wants(px, db, m, db.rules[id]) ::
          w.Some? && w.value.priority <= db.rules[id].priority)
  }

  lemma {:induction false} FirstMatchAt(px: Platform, db: Db, m: Moment, rs: seq<Rule>)
    ensures var w := Decided(px, db, m, rs);
            if w.None? then forall i :: 0 <= i < |rs| ==> !Wants(px, db, m, rs[i])
            else exists k :: 0 <= k < |rs| && rs[k] == w.value && Wants(px, db, m, rs[k])
                             && forall i :: 0 <= i < k ==> !Wants(px, db, m, rs[i])
  {
    if rs != [] && !Wants(px, db, m, rs[0]) {
      var rest := rs[1..];
      FirstMatchAt(px, db, m, rest);
      if Decided(px, db, m, rest).Some? {
        var k :| 0 <= k < |rest| && rest[k] == Decided(px, db, m, rest).value && Wants(px, db, m, rest[k])
                 && forall i :: 0 <= i < k ==> !Wants(px, db, m, rest[i]);
        assert rs[k + 1] == rest[k];
        assert forall i :: 1 <= i < k + 1 ==> rs[i] == rest[i - 1];
      } else {
        assert forall i :: 1 <= i < |rs| ==> rs[i] == rest[i - 1];
      }
    }
  }

  lemma FirstMatchWins(px: Platform, db: Db, flagId: Uuid, m: Moment, rs: seq<Rule>)
    requires Listing(db, flagId, rs)
    ensures Wins(px, db, flagId, m, Decided(px, db, m, rs))
  {
    FirstMatchAt(px, db, m, rs);
    var w := Decided(px, db, m, rs);
    forall id | id in db.rules && db.rules[id].flagId == flagId && Wants(px, db, m, db.rules[id])
      ensures w.Some? && w.value.priority <= db.rules[id].priority
    {
      var j :| 0 <= j < |rs| && rs[j] == db.rules[id];
      if w.Some? {
        var k :| 0 <= k < |rs| && rs[k] == w.value && forall i :: 0 <= i < k ==> !Wants(px, db, m, rs[i]);
        assert k <= j;
      }
    }
  }

  /** With distinct priorities the evaluator's rule is the winner and nothing else is, whatever the order of the rows. */
  lemma DecidedIffWins(px: Platform, db: Db, flagId: Uuid, m: Moment, rs: seq<Rule>, w: Option<Rule>)
    requires Valid(px, db) && Listing(db, flagId, rs) && DistinctPriorities(db, flagId)
    ensures Decided(px, db, m, rs) == w <==> Wins(px, db, flagId, m, w)
  {
    FirstMatchWins(px, db, flagId, m, rs);
    var d := Decided(px, db, m, rs);
    if Wins(px, db, flagId, m, w) {
      if d.Some? { assert db.rules[d.value.id] == d.value; }
      if w.Some? { assert db.rules[w.value.id] == w.value; }
    }
  }

  /** The rules of higher or equal precedence are the same ones in both databases, in the same states. */
  ghost predicate SameUpTo(px: Platform, db: Db, db2: Db, flagId: Uuid, m: Moment, m2: Moment, limit: int) {
    && (forall r: Rule | r.priority <= limit :: RuleOf(db, flagId, r) <==> RuleOf(db2, flagId, r))
    && (forall r: Rule | r.priority <= limit && RuleOf(db, flagId, r) :: Wants(px, db, m, r) <==> Wants(px, db2, m2, r))
  }

  /** Adding, removing or editing rules of lower precedence than the winner never changes the winner. */
  lemma LowerRulesIrrelevant(px: Platform, db: Db, db2: Db, flagId: Uuid, m: Moment, m2: Moment, rs: seq<Rule>, rs2: seq<Rule>)
    requires Valid(px, db) && Valid(px, db2) && DistinctPriorities(db2, flagId)
    requires Listing(db, flagId, rs) && Listing(db2, flagId, rs2)
    requires Decided(px, db, m, rs).Some?
    requires SameUpTo(px, db, db2, flagId, m, m2, Decided(px, db, m, rs).value.priority)
    ensures Decided(px, db2, m2, rs2) == Decided(px, db, m, rs)
  {
    FirstMatchWins(px, db, flagId, m, rs);
    var w := Decided(px, db, m, rs);
    assert RuleOf(db2, flagId, w.value) && Wants(px, db2, m2, w.value);
    forall id | id in db2.rules && db2.rules[id].flagId == flagId && Wants(px, db2, m2, db2.rules[id])
      ensures w.value.priority <= db2.rules[id].priority
    {
      var r := db2.rules[id];
      assert RuleOf(db2, flagId, r);
      assert r.priority < w.value.priority ==> RuleOf(db, flagId, r) && Wants(px, db, m, r);
    }
    DecidedIffWins(px, db2, flagId, m2, rs2, w);
  }

  // ---------------------------------------------------------------- rollouts

  /** UpdateRulePercentage: the rule read back, its percentage replaced, written whole. */
  function WithPercentage(r: Rule, p: int): Rule { r.(percentage := Some(p)) }

  ghost function RolledTo(db: Db, ruleId: Uuid, p: int): Db
    requires ruleId in db.rules
  {
    var w := UpdateRule(db, WithPercentage(db.rules[ruleId], p));
    if w.Ok? then w.value else db
  }

  lemma RolledToRows(px: Platform, db: Db, ruleId: Uuid, p: int)
    requires Valid(px, db) && ruleId in db.rules
    ensures RolledTo(db, ruleId, p) == db.(rules := db.rules[ruleId := WithPercentage(db.rules[ruleId], p)])
  {
  }

  lemma RolledToValid(px: Platform, db: Db, ruleId: Uuid, p: int)
    requires Valid(px, db) && ruleId in db.rules
    ensures Valid(px, RolledTo(db, ruleId, p))
    ensures DistinctPriorities(db, db.rules[ruleId].flagId) ==> DistinctPriorities(RolledTo(db, ruleId, p), db.rules[ruleId].flagId)
  {
  }

  /** Raising one percentage changes an answer only by moving the user onto that rule, and never moves one off it. */
  lemma RolloutMonotone(px: Platform, db: Db, ruleId: Uuid, p: int, q: int, m: Moment, rs: seq<Rule>, rs2: seq<Rule>)
    requires Valid(px, db) && ruleId in db.rules && db.rules[ruleId].ruleType.Percentage? && p <= q
    requires DistinctPriorities(db, db.rules[ruleId].flagId)
    requires Listing(RolledTo(db, ruleId, p), db.rules[ruleId].flagId, rs)
    requires Listing(RolledTo(db, ruleId, q), db.rules[ruleId].flagId, rs2)
    ensures var before := Decided(px, RolledTo(db, ruleId, p), m, rs);
            var after := Decided(px, RolledTo(db, ruleId, q), m, rs2);
            var onto := Some(WithPercentage(db.rules[ruleId], q));
            if before == Some(WithPercentage(db.rules[ruleId], p)) then after == onto else after == before || after == onto
  {
    var flagId := db.rules[ruleId].flagId;
    var db1, db2 := RolledTo(db, ruleId, p), RolledTo(db, ruleId, q);
    RolledToRows(px, db, ruleId, p);
    RolledToRows(px, db, ruleId, q);
    RolledToValid(px, db, ruleId, p);
    RolledToValid(px, db, ruleId, q);
    var r1, r2 := db1.rules[ruleId], db2.rules[ruleId];
    var before := Decided(px, db1, m, rs);
    FirstMatchWins(px, db1, flagId, m, rs);
    assert Wants(px, db1, m, r1) ==> Wants(px, db2, m, r2);
    var w := if Wants(px, db2, m, r2) && (before.None? || r2.priority <= before.value.priority) then Some(r2) else before;
    forall id | id in db2.rules && db2.rules[id].flagId == flagId && Wants(px, db2, m, db2.rules[id])
      ensures w.Some? && w.value.priority <= db2.rules[id].priority
    {
      if id != ruleId { assert db1.rules[id] == db2.rules[id] && Wants(px, db1, m, db1.rules[id]); }
    }
    assert Wins(px, db2, flagId, m, w);
    DecidedIffWins(px, db2, flagId, m, rs2, w);
  }

  /** The whole evaluation of a request while one percentage rule stands at p. */
  ghost function AnswerAt(px: Platform, db: Db, ruleId: Uuid, p: int, req: Request, rs: seq<Rule>, now: Time, faults: Faults): Result<EvalResult>
    requires ruleId in db.rules
  {
    EvaluateStored(px, RolledTo(db, ruleId, p), req, rs, now, faults)
  }

  ghost predicate RolloutStage(px: Platform, db: Db, ruleId: Uuid, req: Request, p: int, rs: seq<Rule>)
    requires ruleId in db.rules
  {
    Listing(RolledTo(db, ruleId, p), db.rules[ruleId].flagId, rs)
  }

  /** What a stage leaves to decide is the rule; everything else of the answer is fixed. */
  lemma AnswerParts(px: Platform, db: Db, ruleId: Uuid, p: int, req: Request, f: Flag, rs: seq<Rule>, now: Time, faults: Faults)
    requires Valid(px, db) && ruleId in db.rules
    requires f.id in db.flags && FindFlag(db, req.projectId, req.environmentId, req.key) == Some(db.flags[f.id]) == Some(f)
    ensures var env := EnvRead(db, f.id, req.environmentId, faults);
            var m := Moment(ActiveRead(db, f.id, req.environmentId, faults), req.ctx, f.key, now);
            var hit := Decided(px, RolledTo(db, ruleId, p), m, rs);
            AnswerAt(px, db, ruleId, p, req, rs, now, faults)
            == Ok(if !SwitchedOn(f, env) then Off(f) else if hit.Some? then Matched(f, hit.value) else Defaulted(f, env))
  {
    var db1 := RolledTo(db, ruleId, p);
    RolledToRows(px, db, ruleId, p);
    SameFlagsFound(px, db, db1, req.projectId, req.environmentId, req.key);
    SameActive(db, db1, f.id, req.environmentId);
  }

  lemma AnswerMonotone(px: Platform, db: Db, ruleId: Uuid, p: int, q: int, req: Request, f: Flag, rs: seq<Rule>, rs2: seq<Rule>,
                       now: Time, faults: Faults)
    requires Valid(px, db) && ruleId in db.rules && db.rules[ruleId].ruleType.Percentage? && p <= q
    requires DistinctPriorities(db, db.rules[ruleId].flagId)
    requires f.id == db.rules[ruleId].flagId && FindFlag(db, req.projectId, req.environmentId, req.key) == Some(f)
    requires RolloutStage(px, db, ruleId, req, p, rs) && RolloutStage(px, db, ruleId, req, q, rs2)
    ensures var before := AnswerAt(px, db, ruleId, p, req, rs, now, faults);
            var after := AnswerAt(px, db, ruleId, q, req, rs2, now, faults);
            var onto := Ok(Matched(f, db.rules[ruleId]));
            if before == onto then after == onto else after == before || after == onto
  {
    AnswerParts(px, db, ruleId, p, req, f, rs, now, faults);
    AnswerParts(px, db, ruleId, q, req, f, rs2, now, faults);
    var m := Moment(ActiveRead(db, f.id, req.environmentId, faults), req.ctx, f.key, now);
    RolloutMonotone(px, db, ruleId, p, q, m, rs, rs2);
    RolledToValid(px, db, ruleId, p);
    FirstMatchWins(px, RolledTo(db, ruleId, p), f.id, m, rs);
  }

  /** Along any non-decreasing rollout a user's answer changes at most once, and then to the rolled-out rule for good. */
  lemma SwitchesAtMostOnce(px: Platform, db: Db, ruleId: Uuid, stages: seq<int>, req: Request, f: Flag, orders: seq<seq<Rule>>,
                           now: Time, faults: Faults, i: nat, j: nat, k: nat)
    requires Valid(px, db) && ruleId in db.rules && db.rules[ruleId].ruleType.Percentage?
    requires DistinctPriorities(db, db.rules[ruleId].flagId)
    requires f.id == db.rules[ruleId].flagId && FindFlag(db, req.projectId, req.environmentId, req.key) == Some(f)
    requires |orders| == |stages| && forall a, b :: 0 <= a <= b < |stages| ==> stages[a] <= stages[b]
    requires forall a :: 0 <= a < |stages| ==> RolloutStage(px, db, ruleId, req, stages[a], orders[a])
    requires i <= j <= k < |stages|
    requires AnswerAt(px, db, ruleId, stages[i], req, orders[i], now, faults)
             != AnswerAt(px, db, ruleId, stages[j], req, orders[j], now, faults)
    ensures AnswerAt(px, db, ruleId, stages[k], req, orders[k], now, faults) == Ok(Matched(f, db.rules[ruleId]))
    ensures AnswerAt(px, db, ruleId, stages[i], req, orders[i], now, faults) != Ok(Matched(f, db.rules[ruleId]))
  {
    AnswerMonotone(px, db, ruleId, stages[i], stages[j], req, f, orders[i], orders[j], now, faults);
    AnswerMonotone(px, db, ruleId, stages[j], stages[k], req, f, orders[j], orders[k], now, faults);
  }
}
