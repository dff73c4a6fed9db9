/** internal/flags/targeting.go and the bucketing of evaluator.go. */
module Targeting {
  import opened Model

  const AND := "AND"
  const OR := "OR"

  // ---------------------------------------------------------------- buckets

  function HashPercentage(px: Platform, flagKey: string, userId: string): (bucket: int)
    ensures 0 <= bucket < 100
  {
    px.sha(flagKey + ":" + userId) % 100
  }

  function MatchesPercentage(px: Platform, rule: Rule, ctx: EvalContext, flagKey: string): bool {
    && rule.percentage.Some?
    && ctx.userId != ""
    && HashPercentage(px, flagKey, ctx.userId) < rule.percentage.value
  }

  /** How many of the words 0, ..., n - 1 fall into a p percent rollout. */
  function WordsIn(n: nat, p: int): nat {
    if n == 0 then 0 else WordsIn(n - 1, p) + (if (n - 1) % 100 < p then 1 else 0)
  }

  function Min(a: int, b: int): int { if a <= b then a else b }

  lemma {:induction false} WordsInCount(n: nat, p: nat)
    requires p <= 100
    ensures WordsIn(n, p) == n / 100 * p + Min(n % 100, p)
  {
    if n > 0 {
      WordsInCount(n - 1, p);
      var q, r := (n - 1) / 100, (n - 1) % 100;
      if r == 99 {
        assert n / 100 == q + 1 && n % 100 == 0;
        assert (q + 1) * p == q * p + p;
      } else {
        assert n / 100 == q && n % 100 == r + 1;
      }
    }
  }

  /** Of the 2^32 hash words, the share a rollout takes is off p/100 by less than one part in 10^9. */
  lemma RolloutShare(p: nat)
    requires p <= 100
    ensures WordsIn(0x1_0000_0000, p) == p * 42_949_672 + Min(p, 96)
    ensures var share := WordsIn(0x1_0000_0000, p) as real / 4_294_967_296.0;
            -0.000000001 < share - p as real / 100.0 < 0.000000001
  {
    WordsInCount(0x1_0000_0000, p);
    var words := WordsIn(0x1_0000_0000, p);
    assert -100 <= 100 * words - 4_294_967_296 * p <= 400;
    var share := words as real / 4_294_967_296.0;
    assert share * 4_294_967_296.0 == words as real;
    assert (100 * words - 4_294_967_296 * p) as real == (share - p as real / 100.0) * 429_496_729_600.0;
  }

  // ---------------------------------------------------------------- strings

  predicate Contains(s: string, part: string) {
    exists i :: 0 <= i <= |s| && part <= s[i..]
  }

  predicate HasPrefix(s: string, part: string) { part <= s }

  predicate HasSuffix(s: string, part: string) { |part| <= |s| && s[|s| - |part|..] == part }

  /** strings.Split on a comma */
  function SplitOnComma(s: string): (parts: seq<string>)
    ensures parts != []
  {
    if s == "" then [""]
    else
      var rest := SplitOnComma(s[1..]);
      if s[0] == ',' then [""] + rest else [[s[0]] + rest[0]] + rest[1..]
  }

  /** unicode.IsSpace */
  predicate IsSpace(c: char) {
    c in "\t\n\r " || c == 0x0B as char || c == 0x0C as char || c == 0x85 as char || c == 0xA0 as char ||
    c == 0x1680 as char || 0x2000 as char <= c <= 0x200A as char || c == 0x2028 as char || c == 0x2029 as char ||
    c == 0x202F as char || c == 0x205F as char || c == 0x3000 as char
  }

  function TrimSpace(s: string): string {
    if s == "" then s
    else if IsSpace(s[0]) then TrimSpace(s[1..])
    else if IsSpace(s[|s| - 1]) then TrimSpace(s[..|s| - 1])
    else s
  }

  predicate ListedIn(parts: seq<string>, v: string) {
    exists i :: 0 <= i < |parts| && TrimSpace(parts[i]) == v
  }

  predicate Below(a: Float, b: Float) {
    match (a, b)
    case (NaN, _) => false
    case (_, NaN) => false
    case (Finite(x), Finite(y)) => x < y
    case (NegInf, _) => !b.NegInf?
    case (_, PosInf) => !a.PosInf?
    case _ => false
  }

  function CompareNumeric(px: Platform, a: string, b: string): int {
    var x, y := px.parseFloat(a), px.parseFloat(b);
    if x.None? || y.None? then 0
    else if Below(x.value, y.value) then -1
    else if Below(y.value, x.value) then 1
    else 0
  }

  // ---------------------------------------------------------------- rules

  predicate MatchesUser(rule: Rule, ctx: EvalContext) {
    ctx.userId != "" && ctx.userId in rule.targetValues
  }

  /** evaluateAttributeRule, which reads only these three fields of its rule */
  predicate MatchesAttribute(px: Platform, c: Condition, ctx: EvalContext) {
    && c.attribute in ctx.attributes
    && var v := ctx.attributes[c.attribute];
       if c.operator == "eq" then v == c.value
       else if c.operator == "neq" then v != c.value
       else if c.operator == "contains" then Contains(v, c.value)
       else if c.operator == "starts_with" then HasPrefix(v, c.value)
       else if c.operator == "ends_with" then HasSuffix(v, c.value)
       else if c.operator == "in" then ListedIn(SplitOnComma(c.value), v)
       else if c.operator == "not_in" then !ListedIn(SplitOnComma(c.value), v)
       else if c.operator == "gt" then CompareNumeric(px, v, c.value) > 0
       else if c.operator == "gte" then CompareNumeric(px, v, c.value) >= 0
       else if c.operator == "lt" then CompareNumeric(px, v, c.value) < 0
       else if c.operator == "lte" then CompareNumeric(px, v, c.value) <= 0
       else false
  }

  predicate MatchesSchedule(rule: Rule, now: Time) {
    && (rule.startTime.Some? ==> rule.startTime.value <= now)
    && (rule.endTime.Some? ==> now <= rule.endTime.value)
  }

  /** evaluateConditions: left to right, stopping at the first decisive condition */
  predicate MatchesConditions(px: Platform, cs: seq<Condition>, op: string, ctx: EvalContext) {
    if cs == [] then op == AND
    else
      var hit := MatchesAttribute(px, cs[0], ctx);
      if op == AND && !hit then false
      else if op == OR && hit then true
      else MatchesConditions(px, cs[1..], op, ctx)
  }

  /** The short-circuiting walk decides conjunction or disjunction; under any other operator nothing matches. */
  lemma {:induction false} ConditionsMeaning(px: Platform, cs: seq<Condition>, op: string, ctx: EvalContext)
    ensures MatchesConditions(px, cs, op, ctx) <==>
            || (op == AND && forall i :: 0 <= i < |cs| ==> MatchesAttribute(px, cs[i], ctx))
            || (op == OR && exists i :: 0 <= i < |cs| && MatchesAttribute(px, cs[i], ctx))
  {
    if cs != [] {
      ConditionsMeaning(px, cs[1..], op, ctx);
      assert forall i :: 1 <= i < |cs| ==> cs[i] == cs[1..][i - 1];
      assert forall i :: 0 <= i < |cs[1..]| ==> cs[1..][i] == cs[i + 1];
    }
  }

  /** evaluateRule given what loadSegment returned; a segment that did not load is an error, so no match */
  predicate MatchesRule(px: Platform, rule: Rule, segment: Option<Segment>, ctx: EvalContext, flagKey: string, now: Time) {
    match rule.ruleType
    case Percentage => MatchesPercentage(px, rule, ctx, flagKey)
    case UserTarget => MatchesUser(rule, ctx)
    case Attribute => MatchesAttribute(px, Condition(rule.attribute, rule.operator, rule.value), ctx)
    case Schedule => MatchesSchedule(rule, now)
    case SegmentMember =>
      segment.Some? && MatchesConditions(px, segment.value.conditions, segment.value.combineOp, ctx)
    case Compound => MatchesConditions(px, rule.conditions, rule.combineOp, ctx)
    case OtherRule(_) => false
  }
}
