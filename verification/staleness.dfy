/** Reads, fills, writes and invalidations as separate steps of many callers: how old a value can an evaluation use?
    (internal/flags/evaluator.go and the mutators of internal/flags/service.go, concurrently) */
module Staleness {
  import opened Model
  import opened Cache
  import opened Evaluation
  import opened Machines
  import Sql = Store

  /** What a caller looks up. */
  datatype Line = FlagLine(slot: Slot) | RulesLine(flagId: Uuid) | SegmentLine(id: Uuid)

  datatype Copy = FlagCopy(flag: Flag) | RulesCopy(rules: seq<Rule>) | SegmentCopy(segment: Segment)

  /** The rows say that the answer to the lookup is this value. */
  ghost predicate Holds(db: Sql.Db, l: Line, c: Copy) {
    match l
    case FlagLine(s) => c.FlagCopy? && Sql.FindFlag(db, s.projectId, s.environmentId, s.key) == Some(c.flag)
    case RulesLine(f) => c.RulesCopy? && Sql.Listing(db, f, c.rules)
    case SegmentLine(id) => c.SegmentCopy? && id in db.segments && db.segments[id] == c.segment
  }

  /** A caller between its cache miss, its read of the database and its fill. */
  datatype Reader = Idle | Missed(line: Line) | Loaded(line: Line, copy: Copy, at: Time)

  datatype Version = Version(at: Time, rows: Sql.Db)

  datatype Use = Use(line: Line, copy: Copy, at: Time)

  datatype Shared = Shared(
    now: Time,
    past: seq<Version>,            // every content the database had, and since when; the last is the current one
    cache: CacheView,
    readers: map<nat, Reader>,
    used: seq<Use>)

  datatype Move =
    | Wait(later: Time)
    | Write(rows: Sql.Db)          // a statement of anyone
    | Drop(cache: CacheView)       // an invalidation, an expiry, a deletion by hand
    | Ask(r: nat, line: Line)
    | GoPast(r: nat, line: Line)   // go to the database at once: the cache failed to answer, or WarmCache, which does not ask
    | Read(r: nat, copy: Copy)
    | Join(r: nat, other: nat)     // singleflight: take over the answer to somebody else's read of the same line
    | Fill(r: nat)

  function Rows(sh: Shared): Sql.Db
    requires sh.past != []
  {
    sh.past[|sh.past| - 1].rows
  }

  function ReaderOf(sh: Shared, r: nat): Reader { if r in sh.readers then sh.readers[r] else Idle }

  function Hit(c: CacheView, l: Line, now: Time): Option<Copy> {
    match l
    case FlagLine(s) => var h := CachedFlag(c, s, now); if h.Some? then Some(FlagCopy(h.value)) else None
    case RulesLine(f) => var h := CachedRules(c, f, now); if h.Some? then Some(RulesCopy(h.value)) else None
    case SegmentLine(id) => var h := CachedSegment(c, id, now); if h.Some? then Some(SegmentCopy(h.value)) else None
  }

  function Filled(c: CacheView, l: Line, copy: Copy, now: Time): CacheView {
    match (l, copy)
    case (FlagLine(_), FlagCopy(f)) => WithFlag(c, f, now, TTL)
    case (RulesLine(id), RulesCopy(rs)) => WithRules(c, id, rs, now, TTL)
    case (SegmentLine(_), SegmentCopy(s)) => WithSegment(c, s, now, TTL)
    case _ => c
  }

  function EntryIn<K, V>(m: map<K, Entry<V>>, k: K, wrap: V -> Copy): Option<Entry<Copy>> {
    if k in m then Some(Entry(wrap(m[k].value), m[k].expiresAt)) else None
  }

  /** The entry a lookup finds, expired or not. */
  function EntryAt(c: CacheView, l: Line): Option<Entry<Copy>> {
    match l
    case FlagLine(s) => EntryIn(c.flagAt, s, (f: Flag) => FlagCopy(f))
    case RulesLine(f) => EntryIn(c.rulesOf, f, (rs: seq<Rule>) => RulesCopy(rs))
    case SegmentLine(id) => EntryIn(c.segmentAt, id, (s: Segment) => SegmentCopy(s))
  }

  lemma HitEntry(c: CacheView, l: Line, now: Time)
    requires Hit(c, l, now).Some?
    ensures EntryAt(c, l).Some? && EntryAt(c, l).value.value == Hit(c, l, now).value && now < EntryAt(c, l).value.expiresAt
  {
  }

  /** Where a copy read for line l is filed: a flag under its own slot. */
  function FiledUnder(l: Line, c: Copy): Line { if l.FlagLine? && c.FlagCopy? then FlagLine(SlotFor(c.flag)) else l }

  predicate Fits(l: Line, c: Copy) {
    match l
    case FlagLine(_) => c.FlagCopy?
    case RulesLine(_) => c.RulesCopy?
    case SegmentLine(id) => c.SegmentCopy? && c.segment.id == id
  }

  lemma FilledEntry(c: CacheView, l: Line, copy: Copy, now: Time, l1: Line)
    requires Fits(l, copy)
    ensures EntryAt(Filled(c, l, copy, now), l1)
         == if l1 == FiledUnder(l, copy) then Some(Entry(copy, now + TTL)) else EntryAt(c, l1)
  {
  }

  /** A caller fills at most delay after the read it goes by. Everything else is free. */
  ghost predicate Enabled(px: Platform, delay: Time, sh: Shared, m: Move) {
    match m
    case Wait(later) => sh.now <= later
    case Write(rows) => Sql.Valid(px, rows)
    case Drop(cache) => Subview(cache, sh.cache)
    case Ask(r, _) => ReaderOf(sh, r).Idle?
    case GoPast(r, _) => ReaderOf(sh, r).Idle?
    case Read(r, copy) => sh.past != [] && ReaderOf(sh, r).Missed? && Holds(Rows(sh), ReaderOf(sh, r).line, copy)
    case Join(r, other) => ReaderOf(sh, r).Missed? && ReaderOf(sh, other).Loaded? && ReaderOf(sh, other).line == ReaderOf(sh, r).line
    case Fill(r) => ReaderOf(sh, r).Loaded? && sh.now <= ReaderOf(sh, r).at + delay
  }

  function After(sh: Shared, m: Move): Shared {
    match m
    case Wait(later) => sh.(now := later)
    case Write(rows) => sh.(past := sh.past + [Version(sh.now, rows)])
    case Drop(cache) => sh.(cache := cache)
    case Ask(r, line) =>
      var hit := Hit(sh.cache, line, sh.now);
      if hit.Some? then sh.(used := sh.used + [Use(line, hit.value, sh.now)])
      else sh.(readers := sh.readers[r := Missed(line)])
    case GoPast(r, line) => sh.(readers := sh.readers[r := Missed(line)])
    case Read(r, copy) =>
      if ReaderOf(sh, r).Missed? then sh.(readers := sh.readers[r := Loaded(ReaderOf(sh, r).line, copy, sh.now)]) else sh
    case Join(r, other) => sh.(readers := sh.readers[r := ReaderOf(sh, other)])
    case Fill(r) =>
      var l := ReaderOf(sh, r);
      if l.Loaded? then
        sh.(cache := Filled(sh.cache, l.line, l.copy, sh.now),
            used := sh.used + [Use(l.line, l.copy, sh.now)],
            readers := sh.readers[r := Idle])
      else sh
  }

  // ---------------------------------------------------------------- moments

  /** Version k was the content of the database at moment m. */
  predicate CurrentAt(past: seq<Version>, k: nat, m: Time) {
    k < |past| && past[k].at <= m && (k + 1 < |past| ==> m <= past[k + 1].at)
  }

  /** The value was the database's own answer at moment m. */
  ghost predicate HeldAt(past: seq<Version>, l: Line, c: Copy, m: Time) {
    exists k: nat :: CurrentAt(past, k, m) && Holds(past[k].rows, l, c)
  }

  /** ... at some moment of a window. */
  ghost predicate HeldDuring(past: seq<Version>, l: Line, c: Copy, from: Time, to: Time) {
    exists m :: from <= m <= to && HeldAt(past, l, c, m)
  }

  lemma HeldStays(past: seq<Version>, v: Version, l: Line, c: Copy, from: Time, to: Time)
    requires HeldDuring(past, l, c, from, to) && to <= v.at
    ensures HeldDuring(past + [v], l, c, from, to)
  {
    var m :| from <= m <= to && HeldAt(past, l, c, m);
    var k: nat :| CurrentAt(past, k, m) && Holds(past[k].rows, l, c);
    assert CurrentAt(past + [v], k, m) && (past + [v])[k] == past[k];
    assert HeldAt(past + [v], l, c, m);
  }

  lemma HeldLonger(past: seq<Version>, l: Line, c: Copy, from: Time, to: Time, from1: Time, to1: Time)
    requires HeldDuring(past, l, c, from, to) && from1 <= from && to <= to1
    ensures HeldDuring(past, l, c, from1, to1)
  {
  }

  // ---------------------------------------------------------------- the invariant

  ghost predicate PastOk(px: Platform, past: seq<Version>, now: Time) {
    && past != []
    && (forall i :: 0 <= i < |past| ==> Sql.Valid(px, past[i].rows) && past[i].at <= now)
    && (forall i, j :: 0 <= i < j < |past| ==> past[i].at <= past[j].at)
  }

  /** Every entry was the database's answer no earlier than TTL and delay before it expires. */
  ghost predicate EntriesOk(sh: Shared, delay: Time) { forall l :: EntryOk(sh, delay, l) }

  ghost predicate EntryOk(sh: Shared, delay: Time, l: Line) {
    var e := EntryAt(sh.cache, l);
    e.Some? ==> HeldDuring(sh.past, l, e.value.value, e.value.expiresAt - TTL - delay, sh.now)
  }

  ghost predicate ReadersOk(sh: Shared) { forall r: nat :: ReaderOk(sh, r) }

  ghost predicate ReaderOk(sh: Shared, r: nat) {
    var l := ReaderOf(sh, r);
    l.Loaded? ==> l.at <= sh.now && HeldDuring(sh.past, l.line, l.copy, l.at, l.at)
  }

  /** What was used at time t had been the database's answer no earlier than TTL and delay before t. */
  ghost predicate FreshUse(past: seq<Version>, delay: Time, u: Use) {
    HeldDuring(past, u.line, u.copy, u.at - TTL - delay, u.at)
  }

  ghost predicate UsesOk(sh: Shared, delay: Time) {
    forall i :: 0 <= i < |sh.used| ==> sh.used[i].at <= sh.now && FreshUse(sh.past, delay, sh.used[i])
  }

  ghost predicate Inv(px: Platform, delay: Time, sh: Shared) {
    && PastOk(px, sh.past, sh.now) && EntriesOk(sh, delay) && ReadersOk(sh) && UsesOk(sh, delay)
  }

  lemma WaitKeeps(px: Platform, delay: Time, sh: Shared, later: Time)
    requires Inv(px, delay, sh) && sh.now <= later
    ensures Inv(px, delay, After(sh, Wait(later)))
  {
    var sh1 := After(sh, Wait(later));
    forall l ensures EntryOk(sh1, delay, l) {
      assert EntryOk(sh, delay, l);
    }
    forall r: nat ensures ReaderOk(sh1, r) {
      assert ReaderOk(sh, r);
    }
  }

  lemma WriteKeeps(px: Platform, delay: Time, sh: Shared, rows: Sql.Db)
    requires Inv(px, delay, sh) && Sql.Valid(px, rows)
    ensures Inv(px, delay, After(sh, Write(rows)))
  {
    var sh1, v := After(sh, Write(rows)), Version(sh.now, rows);
    forall l ensures EntryOk(sh1, delay, l) {
      assert EntryOk(sh, delay, l);
      var e := EntryAt(sh.cache, l);
      if e.Some? {
        HeldStays(sh.past, v, l, e.value.value, e.value.expiresAt - TTL - delay, sh.now);
      }
    }
    forall r: nat ensures ReaderOk(sh1, r) {
      assert ReaderOk(sh, r);
      var l := ReaderOf(sh, r);
      if l.Loaded? {
        HeldStays(sh.past, v, l.line, l.copy, l.at, l.at);
      }
    }
    forall i | 0 <= i < |sh.used| ensures FreshUse(sh1.past, delay, sh.used[i]) {
      var u := sh.used[i];
      HeldStays(sh.past, v, u.line, u.copy, u.at - TTL - delay, u.at);
    }
  }

  lemma DropKeeps(px: Platform, delay: Time, sh: Shared, cache: CacheView)
    requires Inv(px, delay, sh) && Subview(cache, sh.cache)
    ensures Inv(px, delay, After(sh, Drop(cache)))
  {
    var sh1 := After(sh, Drop(cache));
    forall l ensures EntryOk(sh1, delay, l) {
      assert EntryOk(sh, delay, l);
    }
    forall r: nat ensures ReaderOk(sh1, r) {
      assert ReaderOk(sh, r);
    }
  }

  lemma AskKeeps(px: Platform, delay: Time, sh: Shared, r: nat, l: Line)
    requires Inv(px, delay, sh)
    ensures Inv(px, delay, After(sh, Ask(r, l)))
  {
    var hit, sh1 := Hit(sh.cache, l, sh.now), After(sh, Ask(r, l));
    forall l ensures EntryOk(sh1, delay, l) {
      assert EntryOk(sh, delay, l);
    }
    forall x: nat ensures ReaderOk(sh1, x) {
      assert ReaderOk(sh, x);
    }
    if hit.Some? {
      HitEntry(sh.cache, l, sh.now);
      assert EntryOk(sh, delay, l);
      HeldLonger(sh.past, l, hit.value, EntryAt(sh.cache, l).value.expiresAt - TTL - delay, sh.now, sh.now - TTL - delay, sh.now);
    }
  }

  lemma GoPastKeeps(px: Platform, delay: Time, sh: Shared, r: nat, l: Line)
    requires Inv(px, delay, sh)
    ensures Inv(px, delay, After(sh, GoPast(r, l)))
  {
    var sh1 := After(sh, GoPast(r, l));
    forall l ensures EntryOk(sh1, delay, l) {
      assert EntryOk(sh, delay, l);
    }
    forall x: nat ensures ReaderOk(sh1, x) {
      assert ReaderOk(sh, x);
    }
  }

  lemma ReadKeeps(px: Platform, delay: Time, sh: Shared, r: nat, c: Copy)
    requires Inv(px, delay, sh) && Enabled(px, delay, sh, Read(r, c))
    ensures Inv(px, delay, After(sh, Read(r, c)))
  {
    var sh1, l := After(sh, Read(r, c)), ReaderOf(sh, r).line;
    assert CurrentAt(sh.past, |sh.past| - 1, sh.now);
    assert HeldAt(sh.past, l, c, sh.now);
    assert HeldDuring(sh.past, l, c, sh.now, sh.now);
    forall l ensures EntryOk(sh1, delay, l) {
      assert EntryOk(sh, delay, l);
    }
    forall x: nat ensures ReaderOk(sh1, x) {
      assert ReaderOk(sh, x);
    }
  }

  /** The flag a lookup finds is also what the lookup of its own slot finds, and that is where it is filed. */
  lemma FiledHeld(px: Platform, past: seq<Version>, now: Time, l: Line, c: Copy, m: Time)
    requires PastOk(px, past, now) && HeldAt(past, l, c, m)
    ensures Fits(l, c) && HeldAt(past, FiledUnder(l, c), c, m)
  {
  }

  lemma FillKeepsEntries(px: Platform, delay: Time, sh: Shared, l: Line, c: Copy, at: Time)
    requires Inv(px, delay, sh) && at <= sh.now <= at + delay && HeldAt(sh.past, l, c, at)
    ensures EntriesOk(sh.(cache := Filled(sh.cache, l, c, sh.now)), delay)
  {
    var sh1 := sh.(cache := Filled(sh.cache, l, c, sh.now));
    FiledHeld(px, sh.past, sh.now, l, c, at);
    forall l1 ensures EntryOk(sh1, delay, l1) {
      FilledEntry(sh.cache, l, c, sh.now, l1);
      assert EntryOk(sh, delay, l1);
    }
  }

  lemma SameEntries(sh: Shared, sh1: Shared, delay: Time)
    requires sh1.cache == sh.cache && sh1.past == sh.past && sh1.now == sh.now && EntriesOk(sh, delay)
    ensures EntriesOk(sh1, delay)
  {
    forall l ensures EntryOk(sh1, delay, l) {
      assert EntryOk(sh, delay, l);
    }
  }

  lemma FillKeeps(px: Platform, delay: Time, sh: Shared, r: nat)
    requires Inv(px, delay, sh) && Enabled(px, delay, sh, Fill(r))
    ensures Inv(px, delay, After(sh, Fill(r)))
  {
    var sh1, l := After(sh, Fill(r)), ReaderOf(sh, r);
    assert ReaderOk(sh, r);
    FillKeepsEntries(px, delay, sh, l.line, l.copy, l.at);
    SameEntries(sh.(cache := sh1.cache), sh1, delay);
    HeldLonger(sh.past, l.line, l.copy, l.at, l.at, sh.now - TTL - delay, sh.now);
    forall x: nat ensures ReaderOk(sh1, x) {
      assert ReaderOk(sh, x);
    }
  }

  lemma JoinKeeps(px: Platform, delay: Time, sh: Shared, r: nat, other: nat)
    requires Inv(px, delay, sh) && Enabled(px, delay, sh, Join(r, other))
    ensures Inv(px, delay, After(sh, Join(r, other)))
  {
    var sh1 := After(sh, Join(r, other));
    forall l ensures EntryOk(sh1, delay, l) {
      assert EntryOk(sh, delay, l);
    }
    forall x: nat ensures ReaderOk(sh1, x) {
      assert ReaderOk(sh, x) && ReaderOk(sh, other);
    }
  }

  lemma MoveKeeps(px: Platform, delay: Time, sh: Shared, m: Move)
    requires Inv(px, delay, sh) && Enabled(px, delay, sh, m)
    ensures Inv(px, delay, After(sh, m))
  {
    match m
    case Wait(later) => WaitKeeps(px, delay, sh, later);
    case Write(rows) => WriteKeeps(px, delay, sh, rows);
    case Drop(cache) => DropKeeps(px, delay, sh, cache);
    case Ask(r, l) => AskKeeps(px, delay, sh, r, l);
    case GoPast(r, l) => GoPastKeeps(px, delay, sh, r, l);
    case Read(r, c) => ReadKeeps(px, delay, sh, r, c);
    case Join(r, other) => JoinKeeps(px, delay, sh, r, other);
    case Fill(r) => FillKeeps(px, delay, sh, r);
  }

  function Start(rows: Sql.Db, now: Time): Shared { Shared(now, [Version(now, rows)], EMPTY, map[], []) }

  ghost function System(px: Platform, delay: Time): Machine<Shared, Move> {
    Machine((sh, m) => Enabled(px, delay, sh, m), (sh, m) => After(sh, m))
  }

  /** Under every interleaving, whatever a caller used had been the database's own answer to its lookup at some
      moment between TTL plus the read-to-fill delay before the use, and the use. */
  lemma UsesAreFresh(px: Platform, delay: Time, rows: Sql.Db, now: Time, moves: seq<Move>, i: nat)
    requires Sql.Valid(px, rows) && Run(System(px, delay), Start(rows, now), moves)
    requires i < |End(System(px, delay), Start(rows, now), moves).used|
    ensures var end := End(System(px, delay), Start(rows, now), moves); FreshUse(end.past, delay, end.used[i])
  {
    forall sh, m | Inv(px, delay, sh) && Enabled(px, delay, sh, m) ensures Inv(px, delay, After(sh, m)) {
      MoveKeeps(px, delay, sh, m);
    }
    Always(System(px, delay), sh => Inv(px, delay, sh), Start(rows, now), moves);
  }

  // ---------------------------------------------------------------- the bound is tight

  /** One caller misses and reads; then a write and its invalidation complete; then the caller fills, late, and another hits. */
  function LateFill(l: Line, c: Copy, rows1: Sql.Db, delay: Time): seq<Move> {
    [Ask(0, l), Read(0, c), Write(rows1), Drop(EMPTY), Wait(delay), Fill(0), Wait(delay + TTL - 1), Ask(1, l)]
  }

  /** The states that run goes through. */
  function LateStates(l: Line, c: Copy, rows: Sql.Db, rows1: Sql.Db, delay: Time): seq<Shared> {
    var s1 := Start(rows, 0).(readers := map[0 := Missed(l)]);
    var s2 := s1.(readers := map[0 := Loaded(l, c, 0)]);
    var s3 := s2.(past := [Version(0, rows), Version(0, rows1)]);
    var s5 := s3.(now := delay);
    var s6 := s5.(cache := Filled(EMPTY, l, c, delay), used := [Use(l, c, delay)], readers := map[0 := Idle]);
    var s7 := s6.(now := delay + TTL - 1);
    [Start(rows, 0), s1, s2, s3, s3, s5, s6, s7, s7.(used := [Use(l, c, delay), Use(l, c, delay + TTL - 1)])]
  }

  /** A caller could serve the copy for line l from where it files it. */
  predicate Servable(l: Line, c: Copy) { Fits(l, c) && FiledUnder(l, c) == l && c != RulesCopy([]) }

  lemma LateReads(px: Platform, delay: Time, rows: Sql.Db, rows1: Sql.Db, l: Line, c: Copy, i: nat)
    requires Sql.Valid(px, rows1) && Holds(rows, l, c) && i < 4
    ensures var ss := LateStates(l, c, rows, rows1, delay); var m := LateFill(l, c, rows1, delay)[i];
            Enabled(px, delay, ss[i], m) && After(ss[i], m) == ss[i + 1]
  {
    var ss := LateStates(l, c, rows, rows1, delay);
    if i == 0 {
      assert Hit(EMPTY, l, 0).None?;
      assert After(ss[0], Ask(0, l)).readers == map[0 := Missed(l)];
    } else if i == 1 {
      assert map[0 := Missed(l)][0 := Loaded(l, c, 0)] == map[0 := Loaded(l, c, 0)];
    }
  }

  lemma LateFills(px: Platform, delay: Time, rows: Sql.Db, rows1: Sql.Db, l: Line, c: Copy, i: nat)
    requires 0 <= delay && Servable(l, c) && 4 <= i < 8
    ensures var ss := LateStates(l, c, rows, rows1, delay); var m := LateFill(l, c, rows1, delay)[i];
            Enabled(px, delay, ss[i], m) && After(ss[i], m) == ss[i + 1]
  {
    var ss := LateStates(l, c, rows, rows1, delay);
    if i == 5 {
      assert map[0 := Loaded(l, c, 0)][0 := Idle] == map[0 := Idle];
    } else if i == 7 {
      FilledEntry(EMPTY, l, c, delay, l);
      assert Hit(ss[7].cache, l, ss[7].now) == Some(c);
    }
  }

  /** The write and its invalidation are over, and still, a nanosecond short of TTL plus delay later, the cache serves
      a value that no moment after the write agrees with. */
  lemma BoundIsTight(px: Platform, delay: Time, rows: Sql.Db, rows1: Sql.Db, l: Line, c: Copy)
    requires Sql.Valid(px, rows1) && 0 <= delay && Servable(l, c) && Holds(rows, l, c) && !Holds(rows1, l, c)
    ensures var mc, moves := System(px, delay), LateFill(l, c, rows1, delay); var end := End(mc, Start(rows, 0), moves);
            && Run(mc, Start(rows, 0), moves)
            && |end.used| == 2 && end.used[1] == Use(l, c, delay + TTL - 1)
            && (forall m :: HeldAt(end.past, l, c, m) ==> m == end.used[1].at - TTL - delay + 1)
  {
    var ss := LateStates(l, c, rows, rows1, delay);
    forall i: nat | i < 8
      ensures Enabled(px, delay, ss[i], LateFill(l, c, rows1, delay)[i])
      ensures After(ss[i], LateFill(l, c, rows1, delay)[i]) == ss[i + 1]
    {
      if i < 4 {
        LateReads(px, delay, rows, rows1, l, c, i);
      } else {
        LateFills(px, delay, rows, rows1, l, c, i);
      }
    }
    Through(System(px, delay), ss, LateFill(l, c, rows1, delay));
    var end := ss[8];
    forall m | HeldAt(end.past, l, c, m) ensures m == 0 {
      var k: nat :| CurrentAt(end.past, k, m) && Holds(end.past[k].rows, l, c);
      assert k == 0;
    }
  }

  // ---------------------------------------------------------------- where stale values come from

  ghost predicate Trace(px: Platform, delay: Time, ss: seq<Shared>, moves: seq<Move>) {
    && |ss| == |moves| + 1 && ss[0].readers == map[] && Inv(px, delay, ss[0])
    && forall i :: 0 <= i < |moves| ==> Enabled(px, delay, ss[i], moves[i]) && ss[i + 1] == After(ss[i], moves[i])
  }

  /** The database has given this answer at some time since version v. */
  ghost predicate Recent(past: seq<Version>, v: nat, l: Line, c: Copy) { exists k: nat :: v <= k < |past| && Holds(past[k].rows, l, c) }

  lemma {:induction false} TraceOk(px: Platform, delay: Time, ss: seq<Shared>, moves: seq<Move>, n: nat)
    requires Trace(px, delay, ss, moves) && n <= |moves|
    ensures Inv(px, delay, ss[n])
  {
    if n > 0 {
      TraceOk(px, delay, ss, moves, n - 1);
      assert Enabled(px, delay, ss[n - 1], moves[n - 1]) && ss[n] == After(ss[n - 1], moves[n - 1]);
      MoveKeeps(px, delay, ss[n - 1], moves[n - 1]);
    }
  }

  lemma {:induction false} PastGrows(px: Platform, delay: Time, ss: seq<Shared>, moves: seq<Move>, a: nat, n: nat)
    requires Trace(px, delay, ss, moves) && a <= n <= |moves|
    ensures ss[a].past <= ss[n].past
    decreases n
  {
    if n > a {
      PastGrows(px, delay, ss, moves, a, n - 1);
      assert ss[n] == After(ss[n - 1], moves[n - 1]);
    }
  }

  /** What a move puts into the cache for a line is what the reader that fills has loaded. */
  lemma EntryMoved(px: Platform, delay: Time, sh: Shared, m: Move, l: Line)
    requires Inv(px, delay, sh) && Enabled(px, delay, sh, m) && EntryAt(After(sh, m).cache, l).Some?
    ensures var e := EntryAt(After(sh, m).cache, l);
            || e == EntryAt(sh.cache, l)
            || (m.Fill? && FiledUnder(ReaderOf(sh, m.r).line, ReaderOf(sh, m.r).copy) == l && e.value.value == ReaderOf(sh, m.r).copy)
  {
    if m.Fill? {
      var rd := ReaderOf(sh, m.r);
      assert ReaderOk(sh, m.r);
      FiledHeld(px, sh.past, sh.now, rd.line, rd.copy, rd.at);
      FilledEntry(sh.cache, rd.line, rd.copy, sh.now, l);
    }
  }

  /** An entry that was not there at b was filled since. */
  lemma {:induction false} EntryFilled(px: Platform, delay: Time, ss: seq<Shared>, moves: seq<Move>, b: nat, n: nat, l: Line) returns (m: nat)
    requires Trace(px, delay, ss, moves) && b <= n <= |moves|
    requires EntryAt(ss[b].cache, l).None? && EntryAt(ss[n].cache, l).Some?
    ensures b <= m < n && moves[m].Fill? && ReaderOf(ss[m], moves[m].r).Loaded?
    ensures var rd := ReaderOf(ss[m], moves[m].r);
            FiledUnder(rd.line, rd.copy) == l && rd.copy == EntryAt(ss[n].cache, l).value.value
    decreases n
  {
    TraceOk(px, delay, ss, moves, n - 1);
    assert Enabled(px, delay, ss[n - 1], moves[n - 1]) && ss[n] == After(ss[n - 1], moves[n - 1]);
    EntryMoved(px, delay, ss[n - 1], moves[n - 1], l);
    if EntryAt(ss[n].cache, l) == EntryAt(ss[n - 1].cache, l) {
      m := EntryFilled(px, delay, ss, moves, b, n - 1, l);
    } else {
      m := n - 1;
    }
  }

  /** How a move can leave a reader loaded. */
  lemma ReaderMoved(px: Platform, delay: Time, sh: Shared, m: Move, r: nat)
    requires Enabled(px, delay, sh, m) && ReaderOf(After(sh, m), r).Loaded?
    ensures var rd := ReaderOf(After(sh, m), r);
            || rd == ReaderOf(sh, r)
            || (m.Join? && m.r == r && rd == ReaderOf(sh, m.other))
            || (m.Read? && m.r == r && rd.copy == m.copy && rd.line == ReaderOf(sh, r).line && sh.past != [] && Holds(Rows(sh), rd.line, rd.copy))
  {
  }

  /** A loaded copy was read by some caller, from the rows of that moment. */
  lemma {:induction false} ReadBehind(px: Platform, delay: Time, ss: seq<Shared>, moves: seq<Move>, n: nat, r: nat) returns (j: nat)
    requires Trace(px, delay, ss, moves) && n <= |moves| && ReaderOf(ss[n], r).Loaded?
    ensures j < n && moves[j].Read? && moves[j].copy == ReaderOf(ss[n], r).copy && ReaderOf(ss[j], moves[j].r).Missed?
    ensures ReaderOf(ss[j], moves[j].r).line == ReaderOf(ss[n], r).line
    ensures ss[j].past != [] && Holds(Rows(ss[j]), ReaderOf(ss[n], r).line, moves[j].copy)
    decreases n
  {
    assert Enabled(px, delay, ss[n - 1], moves[n - 1]) && ss[n] == After(ss[n - 1], moves[n - 1]);
    ReaderMoved(px, delay, ss[n - 1], moves[n - 1], r);
    if ReaderOf(ss[n], r) == ReaderOf(ss[n - 1], r) {
      j := ReadBehind(px, delay, ss, moves, n - 1, r);
    } else if moves[n - 1].Join? {
      j := ReadBehind(px, delay, ss, moves, n - 1, moves[n - 1].other);
    } else {
      j := n - 1;
    }
  }

  /** What holds of a line where the copy is read holds of the line it is filed under. */
  lemma HoldsWhereFiled(px: Platform, db: Sql.Db, l: Line, c: Copy)
    requires Sql.Valid(px, db) && Holds(db, l, c)
    ensures Holds(db, FiledUnder(l, c), c)
  {
    if l.FlagLine? {
      OneAnswerBySlot(px, db, SlotFor(c.flag), c.flag.id);
    }
  }

  /** A copy whose answer the database has not given since the write at a was read before it. */
  lemma OldRead(px: Platform, delay: Time, ss: seq<Shared>, moves: seq<Move>, a: nat, n: nat, r: nat, end: nat) returns (j: nat)
    requires Trace(px, delay, ss, moves) && a < n <= end <= |moves| && moves[a].Write? && ReaderOf(ss[n], r).Loaded?
    requires var rd := ReaderOf(ss[n], r); !Recent(ss[end].past, |ss[a].past|, FiledUnder(rd.line, rd.copy), rd.copy)
    ensures j < a && moves[j].Read? && moves[j].copy == ReaderOf(ss[n], r).copy && ReaderOf(ss[j], moves[j].r).line == ReaderOf(ss[n], r).line
  {
    j := ReadBehind(px, delay, ss, moves, n, r);
    if j > a {
      ReadIsRecent(px, delay, ss, moves, a, j, end, ReaderOf(ss[n], r).line, ReaderOf(ss[n], r).copy);
    }
  }

  lemma ReadIsRecent(px: Platform, delay: Time, ss: seq<Shared>, moves: seq<Move>, a: nat, j: nat, end: nat, l: Line, c: Copy)
    requires Trace(px, delay, ss, moves) && a < j <= end <= |moves| && moves[a].Write?
    requires ss[j].past != [] && Holds(Rows(ss[j]), l, c)
    ensures Recent(ss[end].past, |ss[a].past|, FiledUnder(l, c), c)
  {
    var k: nat := |ss[j].past| - 1;
    assert ss[a + 1] == After(ss[a], moves[a]);
    PastGrows(px, delay, ss, moves, a + 1, j);
    PastGrows(px, delay, ss, moves, j, end);
    TraceOk(px, delay, ss, moves, j);
    HoldsWhereFiled(px, ss[j].past[k].rows, l, c);
    assert ss[end].past[k] == ss[j].past[k];
  }

  /** A write happens at a, and by b the line is out of the cache. If a hit after that serves something the database has not
      answered since the write, then a caller filled it in after b, going by a read from before the write. */
  lemma StaleHitNeedsLateFill(px: Platform, delay: Time, ss: seq<Shared>, moves: seq<Move>, a: nat, b: nat, n: nat, l: Line)
    returns (m: nat, j: nat)
    requires Trace(px, delay, ss, moves) && a < b <= n <= |moves| && moves[a].Write? && EntryAt(ss[b].cache, l).None?
    requires Hit(ss[n].cache, l, ss[n].now).Some?
    requires !Recent(ss[n].past, |ss[a].past|, l, Hit(ss[n].cache, l, ss[n].now).value)
    ensures j < a < b <= m < n && moves[m].Fill? && moves[j].Read? && ReaderOf(ss[m], moves[m].r).Loaded?
    ensures ReaderOf(ss[m], moves[m].r).copy == moves[j].copy == Hit(ss[n].cache, l, ss[n].now).value
    ensures ReaderOf(ss[m], moves[m].r).line == ReaderOf(ss[j], moves[j].r).line
  {
    HitEntry(ss[n].cache, l, ss[n].now);
    m := EntryFilled(px, delay, ss, moves, b, n, l);
    j := OldRead(px, delay, ss, moves, a, m, moves[m].r, n);
  }
}
