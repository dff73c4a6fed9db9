/** The tables of the flag service. Every function below is one SQL statement (or one transaction) of
    internal/platform/database/postgres/flags.go: it takes the tables and gives the new tables or an error,
    in which case nothing is written. */
module Store {
  import opened Model

  datatype Db = Db(
    flags: map<Uuid, Flag>,
    rules: map<Uuid, Rule>,
    flagEnv: map<(Uuid, Uuid), EnvState>,   // (flag, environment)
    ruleEnv: map<(Uuid, Uuid), bool>,       // (rule, environment)
    segments: map<Uuid, Segment>)

  const EMPTY := Db(map[], map[], map[], map[], map[])

  /** A partial update of the lifecycle columns. None leaves a column alone; Some(None) clears it. */
  datatype LifecyclePatch = LifecyclePatch(
    smokeStatus: Option<TestStatus>, userStatus: Option<TestStatus>,
    removalAt: Option<Option<Time>>, increment: int, exhausted: Option<bool>,
    smokeNotes: Option<Option<string>>, userNotes: Option<Option<string>>)

  const NO_PATCH := LifecyclePatch(None, None, None, 0, None, None, None)

  // ---------------------------------------------------------------- constraints

  /** idx_flags_project_key: the statements of the service never write application_id, so for their rows
      (project_id, key) is unique. */
  ghost predicate UniqueKeys(flags: map<Uuid, Flag>) {
    forall a, b | a in flags && b in flags ::
      flags[a].projectId == flags[b].projectId && flags[a].key == flags[b].key ==> a == b
  }

  ghost predicate StoredFlag(px: Platform, f: Flag) {
    && px.jsonb(f.defaultValue) == Some(f.defaultValue)
    && f.applicationId == None
    && Checked(f.settings)
  }

  ghost predicate StoredRule(r: Rule) {
    && !r.ruleType.OtherRule?
    && (r.ruleType.Compound? || (r.conditions == [] && r.combineOp == ""))
  }

  ghost predicate StoredEnv(px: Platform, s: EnvState) {
    s.value.Some? ==> px.jsonb(s.value.value) == s.value
  }

  ghost predicate Keyed(flags: map<Uuid, Flag>) { forall id :: id in flags ==> flags[id].id == id }

  ghost predicate FlagsOk(px: Platform, flags: map<Uuid, Flag>) {
    UniqueKeys(flags) && forall id :: id in flags ==> flags[id].id == id && StoredFlag(px, flags[id])
  }

  ghost predicate RulesOk(rules: map<Uuid, Rule>, flagIds: set<Uuid>) {
    forall id :: id in rules ==> rules[id].id == id && rules[id].flagId in flagIds && StoredRule(rules[id])
  }

  ghost predicate FlagEnvOk(px: Platform, states: map<(Uuid, Uuid), EnvState>, flagIds: set<Uuid>) {
    forall k :: k in states ==> k.0 in flagIds && StoredEnv(px, states[k])
  }

  ghost predicate RuleEnvOk(states: map<(Uuid, Uuid), bool>, ruleIds: set<Uuid>) {
    forall k :: k in states ==> k.0 in ruleIds
  }

  ghost predicate SegmentsOk(segments: map<Uuid, Segment>) {
    forall id :: id in segments ==> segments[id].id == id
  }

  /** What the schema guarantees of every table content. */
  ghost predicate Valid(px: Platform, db: Db) {
    && FlagsOk(px, db.flags)
    && RulesOk(db.rules, db.flags.Keys)
    && FlagEnvOk(px, db.flagEnv, db.flags.Keys)
    && RuleEnvOk(db.ruleEnv, db.rules.Keys)
    && SegmentsOk(db.segments)
  }

  // ---------------------------------------------------------------- feature_flags

  function PutFlag(db: Db, f: Flag): Db { db.(flags := db.flags[f.id := f]) }

  /** The JSON text written for default_value: an empty text is stored as null. */
  function DefaultJson(px: Platform, v: string): Option<string> { px.jsonb(if v == "" then "null" else v) }

  /** The CHECK constraints on flag_type and category, and that owners and tags are not null. */
  predicate Checked(s: Settings) {
    && !s.flagType.OtherType? && !s.category.OtherCategory? && !s.category.Unset?
    && s.owners.Some? && s.tags.Some?
  }

  function CreateFlag(px: Platform, db: Db, f: Flag): Result<Db> {
    var v := DefaultJson(px, f.defaultValue);
    if v.None? || !Checked(f.settings) then Err(Storage)
    else if f.id in db.flags || exists o :: o in db.flags && db.flags[o].projectId == f.projectId && db.flags[o].key == f.key
    then Err(Conflict)
    else Ok(PutFlag(db, f.(applicationId := None, defaultValue := v.value,
                           archivedAt := None, deleteAfter := None, life := FRESH_LIFECYCLE)))
  }

  function UpdateFlag(px: Platform, db: Db, f: Flag): Result<Db> {
    var v := DefaultJson(px, f.defaultValue);
    if v.None? then Err(Storage)
    else if f.id !in db.flags then Err(NotFound)
    else if !Checked(f.settings) then Err(Storage)
    else Ok(PutFlag(db, db.flags[f.id].(settings := f.settings, enabled := f.enabled, defaultValue := v.value)))
  }

  function Or<T>(change: Option<T>, current: T): T { if change.Some? then change.value else current }

  function Patched(l: Lifecycle, p: LifecyclePatch): Lifecycle {
    Lifecycle(
      if p.smokeStatus.Some? then p.smokeStatus else l.smokeStatus,
      if p.userStatus.Some? then p.userStatus else l.userStatus,
      Or(p.removalAt, l.removalAt),
      if p.removalAt.Some? then None else l.firedAt,
      l.iterations + p.increment,
      Or(p.exhausted, l.exhausted),
      Or(p.smokeNotes, l.smokeNotes),
      Or(p.userNotes, l.userNotes))
  }

  function LifecycleRow(f: Flag, p: LifecyclePatch, disableEverywhere: bool): Flag {
    f.(life := Patched(f.life, p), enabled := f.enabled && !disableEverywhere)
  }

  function DisabledFor(states: map<(Uuid, Uuid), EnvState>, id: Uuid): map<(Uuid, Uuid), EnvState> {
    map k | k in states :: if k.0 == id then states[k].(enabled := false) else states[k]
  }

  /** UpdateFlagLifecycle, one transaction over both tables. */
  function UpdateFlagLifecycle(db: Db, id: Uuid, p: LifecyclePatch, disableEverywhere: bool): Result<Db> {
    if id !in db.flags then Err(NotFound)
    else
      Ok(db.(flags := db.flags[id := LifecycleRow(db.flags[id], p, disableEverywhere)],
             flagEnv := if disableEverywhere then DisabledFor(db.flagEnv, id) else db.flagEnv))
  }

  predicate Due(f: Flag, now: Time) {
    f.life.removalAt.Some? && f.life.firedAt.None? && f.life.removalAt.value <= now && f.archivedAt.None?
  }

  const DUE_PAGE: nat := 500

  function DueIds(db: Db, now: Time): set<Uuid> { set id | id in db.flags && Due(db.flags[id], now) }

  /** ListFlagsDueForRemoval: the earliest dates first, at most DUE_PAGE of them. */
  ghost predicate DuePage(db: Db, now: Time, ids: seq<Uuid>) {
    && |ids| <= DUE_PAGE
    && (forall i :: 0 <= i < |ids| ==> ids[i] in DueIds(db, now))
    && (forall i, j | 0 <= i < j < |ids| ::
          ids[i] != ids[j] && db.flags[ids[i]].life.removalAt.value <= db.flags[ids[j]].life.removalAt.value)
    && (forall x | x in DueIds(db, now) && x !in ids :: |ids| == DUE_PAGE)
  }

  function MarkRemovalFired(db: Db, id: Uuid, at: Time): Result<Db> {
    if id in db.flags && db.flags[id].life.firedAt.None?
    then Ok(PutFlag(db, db.flags[id].(life := db.flags[id].life.(firedAt := Some(at)))))
    else Err(NotFound)
  }

  function ArchiveFlag(db: Db, id: Uuid, now: Time): Result<Db> {
    if id in db.flags && db.flags[id].archivedAt.None?
    then Ok(PutFlag(db, db.flags[id].(archivedAt := Some(now)))) else Err(NotFound)
  }

  function UnarchiveFlag(db: Db, id: Uuid): Result<Db> {
    if id in db.flags then Ok(PutFlag(db, db.flags[id].(archivedAt := None))) else Err(NotFound)
  }

  function QueueDeletion(db: Db, id: Uuid, retention: Time): Result<Db> {
    if id in db.flags && db.flags[id].archivedAt.Some?
    then Ok(PutFlag(db, db.flags[id].(deleteAfter := Some(db.flags[id].archivedAt.value + retention))))
    else Err(NotFound)
  }

  function ClearDeleteAfter(db: Db, id: Uuid): Result<Db> {
    Ok(if id in db.flags then PutFlag(db, db.flags[id].(deleteAfter := None)) else db)
  }

  function RestoreFlag(db: Db, id: Uuid): Result<Db> {
    if id in db.flags then Ok(PutFlag(db, db.flags[id].(archivedAt := None, deleteAfter := None))) else Err(NotFound)
  }

  predicate Deletable(f: Flag, retention: Time, now: Time) {
    f.archivedAt.Some? && f.archivedAt.value + retention < now
  }

  function HardDeleteFlag(db: Db, id: Uuid, retention: Time, now: Time): Result<Db> {
    if id in db.flags && Deletable(db.flags[id], retention, now) then Ok(WithoutFlag(db, id)) else Err(NotFound)
  }

  /** The row and everything that references it: foreign keys cascade. */
  function WithoutFlag(db: Db, id: Uuid): Db {
    Db(map f | f in db.flags && f != id :: db.flags[f],
       map r | r in db.rules && db.rules[r].flagId != id :: db.rules[r],
       map k | k in db.flagEnv && k.0 != id :: db.flagEnv[k],
       map k | k in db.ruleEnv && !(k.0 in db.rules && db.rules[k.0].flagId == id) :: db.ruleEnv[k],
       db.segments)
  }

  predicate Overdue(f: Flag, now: Time) { f.deleteAfter.Some? && f.deleteAfter.value < now }

  function OverdueIds(db: Db, now: Time): set<Uuid> { set id | id in db.flags && Overdue(db.flags[id], now) }

  /** ListFlagsToHardDelete: the earliest dates first, at most limit of them, ties in any order. */
  ghost predicate DeletionBatch(db: Db, limit: nat, now: Time, ids: seq<Uuid>) {
    && |ids| <= limit
    && (forall i :: 0 <= i < |ids| ==> ids[i] in OverdueIds(db, now))
    && (forall i, j | 0 <= i < j < |ids| ::
          ids[i] != ids[j] && db.flags[ids[i]].deleteAfter.value <= db.flags[ids[j]].deleteAfter.value)
    && (forall x | x in OverdueIds(db, now) && x !in ids ::
          |ids| == limit && forall i :: 0 <= i < |ids| ==> db.flags[ids[i]].deleteAfter.value <= db.flags[x].deleteAfter.value)
  }

  predicate Answers(f: Flag, projectId: Uuid, environmentId: Uuid, key: string) {
    && f.projectId == projectId && f.key == key
    && (f.environmentId == Some(environmentId) || f.environmentId == None)
  }

  /** GetFlagByKey. UniqueKeys leaves at most one row to order. */
  ghost function FindFlag(db: Db, projectId: Uuid, environmentId: Uuid, key: string): (r: Option<Flag>)
    ensures r.Some? ==> exists id :: id in db.flags && db.flags[id] == r.value
                                     && Answers(r.value, projectId, environmentId, key)
    ensures r.None? ==> forall id :: id in db.flags ==> !Answers(db.flags[id], projectId, environmentId, key)
  {
    if id :| id in db.flags && Answers(db.flags[id], projectId, environmentId, key) then Some(db.flags[id]) else None
  }

  // ---------------------------------------------------------------- flag_targeting_rules

  function RuleColumns(r: Rule): Rule {
    if r.ruleType.Compound? then r else r.(conditions := [], combineOp := "")
  }

  function CreateRule(db: Db, r: Rule): Result<Db> {
    if r.id in db.rules || r.flagId !in db.flags || r.ruleType.OtherRule? then Err(Storage)
    else Ok(db.(rules := db.rules[r.id := RuleColumns(r)]))
  }

  /** The row keeps its flag_id, whatever the argument says. */
  function UpdateRule(db: Db, r: Rule): Result<Db> {
    if r.id !in db.rules then Err(NotFound)
    else if r.ruleType.OtherRule? then Err(Storage)
    else Ok(db.(rules := db.rules[r.id := RuleColumns(r.(flagId := db.rules[r.id].flagId))]))
  }

  /** rule_environment_state rows cascade. */
  function DeleteRule(db: Db, id: Uuid): Result<Db> {
    if id !in db.rules then Err(NotFound)
    else Ok(db.(rules := map r | r in db.rules && r != id :: db.rules[r],
                ruleEnv := map k | k in db.ruleEnv && k.0 != id :: db.ruleEnv[k]))
  }

  /** ListRules orders by priority alone, so PostgreSQL may return ties in any order. */
  ghost predicate Listing(db: Db, flagId: Uuid, rs: seq<Rule>) {
    && (forall i, j :: 0 <= i < j < |rs| ==> rs[i].priority <= rs[j].priority && rs[i].id != rs[j].id)
    && (forall i :: 0 <= i < |rs| ==> rs[i].id in db.rules && db.rules[rs[i].id] == rs[i] && rs[i].flagId == flagId)
    && (forall id :: id in db.rules && db.rules[id].flagId == flagId ==> db.rules[id] in rs)
  }

  ghost predicate DistinctPriorities(db: Db, flagId: Uuid) {
    forall a, b | a in db.rules && b in db.rules && db.rules[a].flagId == flagId == db.rules[b].flagId ::
      db.rules[a].priority == db.rules[b].priority ==> a == b
  }

  // ---------------------------------------------------------------- per-environment states

  function UpsertFlagEnvState(px: Platform, db: Db, flagId: Uuid, envId: Uuid, s: EnvState): Result<Db> {
    var v := if s.value.Some? then px.jsonb(s.value.value) else None;
    if flagId !in db.flags || (s.value.Some? && v.None?) then Err(Storage)
    else Ok(db.(flagEnv := db.flagEnv[(flagId, envId) := EnvState(s.enabled, v)]))
  }

  function SetRuleEnvironmentState(db: Db, ruleId: Uuid, envId: Uuid, enabled: bool): Result<Db> {
    if ruleId !in db.rules then Err(Storage) else Ok(db.(ruleEnv := db.ruleEnv[(ruleId, envId) := enabled]))
  }

  function EnvStateOf(db: Db, flagId: Uuid, envId: Uuid): Option<EnvState> {
    if (flagId, envId) in db.flagEnv then Some(db.flagEnv[(flagId, envId)]) else None
  }

  /** ListRuleEnvironmentStatesByEnv, as the set of rules it maps to true */
  function ActiveRules(db: Db, flagId: Uuid, envId: Uuid): (r: set<Uuid>) {
    set id | id in db.rules && db.rules[id].flagId == flagId && (id, envId) in db.ruleEnv && db.ruleEnv[(id, envId)]
  }

  // ---------------------------------------------------------------- segments

  function CreateSegment(db: Db, s: Segment): Result<Db> {
    if s.id in db.segments then Err(Conflict) else Ok(db.(segments := db.segments[s.id := s]))
  }

  function UpdateSegment(db: Db, s: Segment): Result<Db> {
    if s.id in db.segments then Ok(db.(segments := db.segments[s.id := s])) else Err(NotFound)
  }

  function DeleteSegment(db: Db, id: Uuid): Result<Db> {
    if id in db.segments then Ok(db.(segments := map s | s in db.segments && s != id :: db.segments[s])) else Err(NotFound)
  }

  // ---------------------------------------------------------------- what the constraints imply

  /** The assumption behind GetFlagByKey's LIMIT 1: no two rows answer one lookup. */
  lemma OneAnswer(px: Platform, db: Db, projectId: Uuid, environmentId: Uuid, key: string, id: Uuid)
    requires Valid(px, db)
    requires id in db.flags && Answers(db.flags[id], projectId, environmentId, key)
    ensures FindFlag(db, projectId, environmentId, key) == Some(db.flags[id])
  {
  }

  lemma SameFlagsFound(px: Platform, db: Db, db1: Db, projectId: Uuid, environmentId: Uuid, key: string)
    requires Valid(px, db) && db1.flags == db.flags
    ensures FindFlag(db1, projectId, environmentId, key) == FindFlag(db, projectId, environmentId, key)
  {
  }

  lemma SameActive(db: Db, db1: Db, flagId: Uuid, envId: Uuid)
    requires db1.ruleEnv == db.ruleEnv && db1.rules.Keys == db.rules.Keys
    requires forall id :: id in db.rules ==> db1.rules[id].flagId == db.rules[id].flagId
    ensures ActiveRules(db1, flagId, envId) == ActiveRules(db, flagId, envId)
  {
  }

  ghost predicate StrictlyOrdered(rs: seq<Rule>) {
    forall i, j :: 0 <= i < j < |rs| ==> rs[i].priority < rs[j].priority
  }

  lemma {:induction false} OrderUnique(a: seq<Rule>, b: seq<Rule>)
    requires StrictlyOrdered(a) && StrictlyOrdered(b)
    requires forall r :: r in a <==> r in b
    ensures a == b
  {
    assert (a != [] ==> a[0] in b) && (b != [] ==> b[0] in a);
    if a != [] {
      assert a[0] in b && b[0] in a;
      assert a[0] == b[0];
      forall r ensures r in a[1..] <==> r in b[1..] {
        assert r in a[1..] ==> r in a && r.priority > a[0].priority;
        assert r in b[1..] ==> r in b && r.priority > b[0].priority;
        assert r in a && r != a[0] ==> r in a[1..];
        assert r in b && r != b[0] ==> r in b[1..];
      }
      OrderUnique(a[1..], b[1..]);
      assert a == [a[0]] + a[1..] && b == [b[0]] + b[1..];
    }
  }

  /** Distinct priorities leave ListRules a single order. */
  lemma ListingUnique(px: Platform, db: Db, flagId: Uuid, a: seq<Rule>, b: seq<Rule>)
    requires Valid(px, db) && DistinctPriorities(db, flagId)
    requires Listing(db, flagId, a) && Listing(db, flagId, b)
    ensures a == b
  {
    ListingOrdered(px, db, flagId, a);
    ListingOrdered(px, db, flagId, b);
    forall r ensures r in a <==> r in b {
      if r in a { assert db.rules[r.id] in b; }
      if r in b { assert db.rules[r.id] in a; }
    }
    OrderUnique(a, b);
  }

  lemma ListingOrdered(px: Platform, db: Db, flagId: Uuid, rs: seq<Rule>)
    requires Valid(px, db) && DistinctPriorities(db, flagId) && Listing(db, flagId, rs)
    ensures StrictlyOrdered(rs)
  {
  }
}
