/** The Redis-backed cache of internal/platform/cache/flagcache/flagcache.go, first as a value, then as the object. */
module Cache {
  import opened Model

  /** flag:<project>:<environment>:<key> */
  datatype Slot = Slot(projectId: Uuid, environmentId: Uuid, key: string)

  datatype Entry<+T> = Entry(value: T, expiresAt: Time)

  datatype CacheView = CacheView(
    flagAt: map<Slot, Entry<Flag>>,
    slotOf: map<Uuid, Entry<Slot>>,          // flag:id:<id>
    rulesOf: map<Uuid, Entry<seq<Rule>>>,    // rules:<id>
    segmentAt: map<Uuid, Entry<Segment>>)    // segment:<id>

  const EMPTY := CacheView(map[], map[], map[], map[])

  const TTL: Time := 30 * SECOND

  predicate Live<K, V>(m: map<K, Entry<V>>, k: K, now: Time) { k in m && now < m[k].expiresAt }

  function Lookup<K, V>(m: map<K, Entry<V>>, k: K, now: Time): Option<V> {
    if Live(m, k, now) then Some(m[k].value) else None
  }

  function Without<K, V>(m: map<K, V>, k: K): map<K, V> { map x | x in m && x != k :: m[x] }

  /** A flag is filed under its own environment, the nil id standing for "any". */
  function SlotFor(f: Flag): Slot {
    Slot(f.projectId, if f.environmentId.Some? then f.environmentId.value else NIL, f.key)
  }

  function WithFlag(c: CacheView, f: Flag, now: Time, ttl: Time): CacheView {
    c.(flagAt := c.flagAt[SlotFor(f) := Entry(f, now + ttl)],
       slotOf := c.slotOf[f.id := Entry(SlotFor(f), now + ttl)])
  }

  function WithRules(c: CacheView, flagId: Uuid, rs: seq<Rule>, now: Time, ttl: Time): CacheView {
    c.(rulesOf := c.rulesOf[flagId := Entry(rs, now + ttl)])
  }

  function WithSegment(c: CacheView, s: Segment, now: Time, ttl: Time): CacheView {
    c.(segmentAt := c.segmentAt[s.id := Entry(s, now + ttl)])
  }

  function CachedFlag(c: CacheView, slot: Slot, now: Time): Option<Flag> { Lookup(c.flagAt, slot, now) }

  /** An empty list is stored as JSON null and reads back as a nil slice, which the evaluator takes for a miss. */
  function CachedRules(c: CacheView, flagId: Uuid, now: Time): Option<seq<Rule>> {
    var hit := Lookup(c.rulesOf, flagId, now);
    if hit == Some([]) then None else hit
  }

  function CachedSegment(c: CacheView, id: Uuid, now: Time): Option<Segment> { Lookup(c.segmentAt, id, now) }

  /** Drops the flag entry its id is still mapped to, the mapping and the rules. */
  function Invalidated(c: CacheView, flagId: Uuid, now: Time): CacheView {
    var slot := Lookup(c.slotOf, flagId, now);
    c.(flagAt := if slot.Some? then Without(c.flagAt, slot.value) else c.flagAt,
       slotOf := Without(c.slotOf, flagId),
       rulesOf := Without(c.rulesOf, flagId))
  }

  predicate Within<K(!new), V(==)>(part: map<K, V>, whole: map<K, V>) { forall k :: k in part ==> k in whole && part[k] == whole[k] }

  /** Nothing can be read from part that could not be read from whole. */
  predicate Subview(part: CacheView, whole: CacheView) {
    Within(part.flagAt, whole.flagAt) && Within(part.rulesOf, whole.rulesOf) && Within(part.segmentAt, whole.segmentAt)
  }

  class FlagCache {
    var flagAt: map<Slot, Entry<Flag>>
    var slotOf: map<Uuid, Entry<Slot>>
    var rulesOf: map<Uuid, Entry<seq<Rule>>>
    var segmentAt: map<Uuid, Entry<Segment>>

    ghost function View(): CacheView
      reads this
    {
      CacheView(flagAt, slotOf, rulesOf, segmentAt)
    }

    constructor ()
      ensures View() == EMPTY
    {
      flagAt, slotOf, rulesOf, segmentAt := map[], map[], map[], map[];
    }

    method GetFlag(projectId: Uuid, environmentId: Uuid, key: string, now: Time) returns (r: Option<Flag>)
      ensures r == CachedFlag(View(), Slot(projectId, environmentId, key), now)
    {
      r := Lookup(flagAt, Slot(projectId, environmentId, key), now);
    }

    method SetFlag(f: Flag, ttl: Time, now: Time)
      modifies this
      ensures View() == WithFlag(old(View()), f, now, ttl)
    {
      var slot := SlotFor(f);
      flagAt := flagAt[slot := Entry(f, now + ttl)];
      slotOf := slotOf[f.id := Entry(slot, now + ttl)];
    }

    method GetRules(flagId: Uuid, now: Time) returns (r: Option<seq<Rule>>)
      ensures r == CachedRules(View(), flagId, now)
    {
      r := Lookup(rulesOf, flagId, now);
      if r == Some([]) {
        r := None;
      }
    }

    method SetRules(flagId: Uuid, rs: seq<Rule>, ttl: Time, now: Time)
      modifies this
      ensures View() == WithRules(old(View()), flagId, rs, now, ttl)
    {
      rulesOf := rulesOf[flagId := Entry(rs, now + ttl)];
    }

    method GetSegment(id: Uuid, now: Time) returns (r: Option<Segment>)
      ensures r == CachedSegment(View(), id, now)
    {
      r := Lookup(segmentAt, id, now);
    }

    method SetSegment(s: Segment, ttl: Time, now: Time)
      modifies this
      ensures View() == WithSegment(old(View()), s, now, ttl)
    {
      segmentAt := segmentAt[s.id := Entry(s, now + ttl)];
    }

    method Invalidate(flagId: Uuid, now: Time)
      modifies this
      ensures View() == Invalidated(old(View()), flagId, now)
    {
      var slot := Lookup(slotOf, flagId, now);
      if slot.Some? {
        flagAt := Without(flagAt, slot.value);
      }
      slotOf, rulesOf := Without(slotOf, flagId), Without(rulesOf, flagId);
    }
  }
}
