/** The evaluation engine of internal/flags/evaluator.go, which fills the cache as it reads. */
module Evaluators {
  import opened Model
  import opened Store
  import opened Cache
  import opened Targeting
  import opened Evaluation
  import opened Repository

  class Evaluator {
    const px: Platform
    const repo: FlagRepository
    const cache: FlagCache

    constructor (repo: FlagRepository, cache: FlagCache)
      ensures this.repo == repo && this.cache == cache && px == repo.px
    {
      this.repo, this.cache, this.px := repo, cache, repo.px;
    }

    ghost predicate Ready()
      reads this, repo
    {
      px == repo.px && Store.Valid(px, repo.rows)
    }

    method ResolveFlag(req: Request, now: Time, faults: Faults) returns (r: Result<Flag>)
      requires Ready()
      modifies cache
      ensures (r, cache.View()) == FetchFlag(old(cache.View()), repo.rows, req, now, faults)
    {
      var hit := cache.GetFlag(req.projectId, req.environmentId, req.key, now);
      if hit.Some? {
        return Ok(hit.value);
      }
      if faults.flag {
        return Err(Storage);
      }
      var row := repo.GetFlagByKey(req.projectId, req.environmentId, req.key);
      if row.None? {
        return Err(NotFound);
      }
      cache.SetFlag(row.value, TTL, now);
      r := Ok(row.value);
    }

    method LoadRules(flagId: Uuid, now: Time, faults: Faults) returns (r: Result<seq<Rule>>, ghost listing: seq<Rule>)
      requires Ready()
      modifies cache
      ensures Listing(repo.rows, flagId, listing)
      ensures (r, cache.View()) == FetchRules(old(cache.View()), flagId, listing, now, faults)
    {
      listing := ListingExists(px, repo.rows, flagId);
      var hit := cache.GetRules(flagId, now);
      if hit.Some? {
        r := Ok(hit.value);
      } else if faults.rules {
        r := Err(Storage);
      } else {
        var rows := repo.ListRules(flagId);
        listing := rows;
        cache.SetRules(flagId, rows, TTL, now);
        r := Ok(rows);
      }
    }

    method LoadSegment(id: Option<Uuid>, now: Time, faults: Faults) returns (r: Option<Segment>)
      requires Ready()
      modifies cache
      ensures (r, cache.View()) == FetchSegment(old(cache.View()), repo.rows, id, now, faults)
    {
      if id.None? {
        return None;
      }
      r := cache.GetSegment(id.value, now);
      if r.None? && id.value !in faults.segments && id.value in repo.rows.segments {
        r := Some(repo.rows.segments[id.value]);
        cache.SetSegment(r.value, TTL, now);
      }
    }

    method EvaluateRule(rule: Rule, active: set<Uuid>, ctx: EvalContext, flagKey: string, now: Time, faults: Faults)
      returns (taken: bool)
      requires Ready()
      modifies cache
      ensures (taken, cache.View()) == TryRule(px, old(cache.View()), repo.rows, rule, active, ctx, flagKey, now, faults)
    {
      if rule.id !in active {
        return false;
      }
      var segment := None;
      if rule.ruleType.SegmentMember? {
        segment := LoadSegment(rule.segmentId, now, faults);
      }
      taken := MatchesRule(px, rule, segment, ctx, flagKey, now);
    }

    /** The rule loop: first match wins. */
    method MatchRules(rules: seq<Rule>, active: set<Uuid>, ctx: EvalContext, flagKey: string, now: Time, faults: Faults)
      returns (hit: Option<Rule>)
      requires Ready()
      modifies cache
      ensures (hit, cache.View()) == Scan(px, old(cache.View()), repo.rows, rules, active, ctx, flagKey, now, faults)
    {
      for i := 0 to |rules|
        invariant Scan(px, old(cache.View()), repo.rows, rules, active, ctx, flagKey, now, faults)
                  == Scan(px, cache.View(), repo.rows, rules[i..], active, ctx, flagKey, now, faults)
      {
        assert rules[i..][0] == rules[i] && rules[i..][1..] == rules[i + 1..];
        var taken := EvaluateRule(rules[i], active, ctx, flagKey, now, faults);
        if taken {
          return Some(rules[i]);
        }
      }
      hit := None;
    }

    method Evaluate(req: Request, now: Time, faults: Faults) returns (r: Result<EvalResult>, ghost listing: seq<Rule>)
      requires Ready()
      modifies cache
      ensures var flag := FetchFlag(old(cache.View()), repo.rows, req, now, faults).0;
              flag.Ok? ==> Listing(repo.rows, flag.value.id, listing)
      ensures (r, cache.View()) == EvaluateCached(px, old(cache.View()), repo.rows, req, listing, now, faults)
    {
      listing := [];
      var flag := ResolveFlag(req, now, faults);
      if flag.Err? {
        return Err(flag.error), listing;
      }
      var f := flag.value;
      listing := ListingExists(px, repo.rows, f.id);
      if f.IsArchived() {
        return Ok(Off(f)), listing;
      }
      var env := EnvRead(repo.rows, f.id, req.environmentId, faults);
      var enabled := if env.Some? then env.value.enabled else f.enabled;
      if !enabled {
        return Ok(Off(f)), listing;
      }
      var rules;
      rules, listing := LoadRules(f.id, now, faults);
      if rules.Err? {
        return Err(rules.error), listing;
      }
      var hit := MatchRules(rules.value, ActiveRead(repo.rows, f.id, req.environmentId, faults), req.ctx, f.key, now, faults);
      if hit.Some? {
        r := Ok(Matched(f, hit.value));
      } else {
        r := Ok(Defaulted(f, env));
      }
    }
  }
}
