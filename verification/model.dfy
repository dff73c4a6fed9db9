/** The entities of the flag service and the outside functions it relies on. */
module Model {

  datatype Option<+T> = None | Some(value: T)

  datatype Result<+T> = Ok(value: T) | Err(error: Error)

  /** The error outcomes the service tells apart. */
  datatype Error =
    | NotFound        // no row answers
    | Conflict        // unique constraint
    | Storage         // any other database refusal: foreign key, CHECK, malformed JSON, lost connection
    | Invalid         // a Validate method or argument check refused
    | Archived        // an archived flag cannot be toggled
    | Race            // a revert would overwrite a newer change
    | NotRevertible   // no handler is registered for the action
    | Malformed       // an audit payload does not decode

  type Uuid = nat
  const NIL: Uuid := 0

  /** Nanoseconds on the clock of the process or of the database. */
  type Time = int
  const SECOND: Time := 1_000_000_000
  const DAY: Time := 86_400 * SECOND

  type Word32 = w: int | 0 <= w < 0x1_0000_0000 witness 0

  /** A 64-bit float as strconv.ParseFloat returns it, rounding left aside. */
  datatype Float = NaN | NegInf | Finite(r: real) | PosInf

  /** What the service takes from its surroundings: SHA-256, PostgreSQL's JSONB type and Go's parsers. */
  datatype Platform = Platform(
    sha: string -> Word32,                  // first four bytes of the digest, big-endian
    jsonb: string -> Option<string>,        // text of the JSONB value a JSON text is stored as; None: not JSON
    compact: string -> string,              // json.Marshal of a raw message: no insignificant space, HTML escaped
    stamp: Time -> string,                  // JSON text of a time read from the database
    parseFloat: string -> Option<Float>)

  /** What PostgreSQL and encoding/json promise of these functions. */
  ghost predicate Lawful(px: Platform) {
    && px.jsonb("") == None
    && px.jsonb("null") == Some("null")
    && (forall s :: px.jsonb(s).Some? ==> px.jsonb(px.jsonb(s).value) == px.jsonb(s))
    && (forall s :: px.jsonb(px.compact(s)) == px.jsonb(s))
    && (forall s :: px.compact(px.compact(s)) == px.compact(s))
  }

  datatype FlagType = Boolean | Text | Integer | Json | OtherType(name: string)

  datatype Category = Release | Feature | Experiment | Ops | Permission | Unset | OtherCategory(name: string)

  datatype TestStatus = Pending | Pass | Fail | OtherStatus(name: string)

  /** The columns UpdateFlag writes besides enabled and default_value. A list may be nil, which the columns refuse. */
  datatype Settings = Settings(
    name: string, description: string, flagType: FlagType, category: Category, purpose: string,
    owners: Option<seq<string>>, tags: Option<seq<string>>, isPermanent: bool, expiresAt: Option<Time>)

  /** The columns only UpdateFlagLifecycle and MarkFlagRemovalFired write. */
  datatype Lifecycle = Lifecycle(
    smokeStatus: Option<TestStatus>, userStatus: Option<TestStatus>,
    removalAt: Option<Time>, firedAt: Option<Time>,
    iterations: int, exhausted: bool,
    smokeNotes: Option<string>, userNotes: Option<string>)

  const FRESH_LIFECYCLE := Lifecycle(None, None, None, None, 0, false, None, None)

  datatype Flag = Flag(
    id: Uuid, projectId: Uuid, applicationId: Option<Uuid>, environmentId: Option<Uuid>, key: string,
    settings: Settings, enabled: bool, defaultValue: string,
    archivedAt: Option<Time>, deleteAfter: Option<Time>, life: Lifecycle)
  {
    predicate IsArchived() { archivedAt.Some? }

    /** FeatureFlag.Validate. Go counts the key's bytes: read its characters as those. */
    predicate Valid() {
      && projectId != NIL
      && 0 < |key| <= 200
      && settings.name != ""
      && !settings.flagType.OtherType?
      && !settings.category.OtherCategory?
      && (settings.category.Release? ==>
            applicationId.Some? && (settings.isPermanent || settings.expiresAt.Some?))
    }
  }

  datatype RuleType = Percentage | UserTarget | Attribute | SegmentMember | Schedule | Compound | OtherRule(name: string)

  datatype Condition = Condition(attribute: string, operator: string, value: string)

  datatype Rule = Rule(
    id: Uuid, flagId: Uuid, ruleType: RuleType, priority: int, value: string,
    percentage: Option<int>, attribute: string, operator: string, targetValues: seq<string>,
    segmentId: Option<Uuid>, conditions: seq<Condition>, combineOp: string,
    startTime: Option<Time>, endTime: Option<Time>, enabled: bool)
  {
    /** TargetingRule.Validate; compound rules fall into its default branch. */
    predicate Valid() {
      && flagId != NIL
      && match ruleType
         case Percentage => percentage.Some? && 0 <= percentage.value <= 100
         case UserTarget => targetValues != []
         case Attribute => attribute != "" && operator != ""
         case SegmentMember => segmentId.Some?
         case Schedule => startTime.Some? && endTime.Some?
         case _ => false
    }
  }

  datatype Segment = Segment(id: Uuid, combineOp: string, conditions: seq<Condition>)

  /** A row of flag_environment_state, without its id, updater and timestamp. */
  datatype EnvState = EnvState(enabled: bool, value: Option<string>)

  datatype EvalContext = EvalContext(userId: string, attributes: map<string, string>)

  datatype Reason = FlagDisabled | RuleMatch | Default

  datatype EvalResult = EvalResult(flagKey: string, enabled: bool, value: string, reason: Reason, ruleId: Option<Uuid>)

  datatype Request = Request(projectId: Uuid, environmentId: Uuid, key: string, ctx: EvalContext)
}
