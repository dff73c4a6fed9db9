/** Audited changes and their undoing: internal/flags/revert.go, internal/auth/revert_registry.go and
    revert_handler.go, and the endpoints of handler.go that record old and new values. */
module Undo {
  import opened Model
  import opened Service
  import Sql = Store

  datatype Action =
    | FlagArchived | FlagCreated | FlagUpdated | FlagToggled | FlagRestored | FlagQueuedForDeletion
    | RuleCreated | RuleDeleted | RuleEnvUpdated | FlagEnvUpdated
    | Reverted(of: Action)
    | OtherAction(name: string)

  /** The members of a flag that revertFlagUpdated compares. */
  datatype FieldName = NameOf | DescriptionOf | CategoryOf | PurposeOf | OwnersOf | PermanentOf | ExpiryOf | DefaultOf | TagsOf

  const NINE: set<FieldName> := {NameOf, DescriptionOf, CategoryOf, PurposeOf, OwnersOf, PermanentOf, ExpiryOf, DefaultOf, TagsOf}

  /** A JSON object decoded as a flag, with which of the nine members it names (the others decode to zero) and the text it
      has for expires_at. */
  datatype Image = Image(settings: Settings, applicationId: Option<Uuid>, environmentId: Option<Uuid>, enabled: bool,
                         defaultValue: string, expiryText: string, named: set<FieldName>)

  function ExpiryText(px: Platform, t: Option<Time>): string { if t.Some? then px.stamp(t.value) else "null" }

  /** What an old or new value decodes to for the handler of its action. Both columns are JSONB, so that a JSON value
      inside is PostgreSQL's text of it when it is read back. */
  datatype Payload =
    | Nothing                                                       // the empty text: not JSON
    | EnabledIs(on: bool)
    | FlagEnvIs(envId: Uuid, enabled: bool, value: Option<string>)
    | RuleEnvIs(ruleId: Uuid, envId: Uuid, active: bool)
    | RuleRow(rule: Rule)
    | RuleRef(ruleId: Uuid)
    | Fields(image: Image)
    | Unread                                                        // JSON no revert handler looks into

  datatype Entry = Entry(entityType: string, action: Action, entityId: Uuid, oldValue: Payload, newValue: Payload)

  const FLAG := "flag"

  const REVERTIBLE: set<Action> := {
    FlagArchived, FlagCreated, FlagUpdated, FlagToggled, RuleCreated, RuleDeleted, RuleEnvUpdated, FlagEnvUpdated,
    FlagQueuedForDeletion, FlagRestored }

  /** FlagRevertHandlers registers under one entity type. */
  predicate Registered(entityType: string, action: Action) { entityType == FLAG && action in REVERTIBLE }

  // ---------------------------------------------------------------- JSON values

  /** json.Marshal of an optional raw message */
  function Marshalled(px: Platform, v: Option<string>): string { if v.Some? then px.compact(v.value) else "null" }

  /** Marshalled into an audit payload, stored, read back and decoded: JSON null comes back as a nil pointer. */
  function Recorded(px: Platform, v: Option<string>): Option<string> {
    var stored := if v.Some? then px.jsonb(px.compact(v.value)) else None;
    if stored == Some("null") then None else stored
  }

  // ---------------------------------------------------------------- what a handler decides

  /** The service call a handler goes on to make; None: there is nothing left to undo. */
  type Plan = Result<Option<Write>>

  function Do(call: Write): Plan { Ok(Some(call)) }

  function PlanDates(db: Sql.Db, e: Entry, force: bool): Plan {
    var id := e.entityId;
    if id !in db.flags then Err(NotFound)
    else
      var f := db.flags[id];
      match e.action
      case FlagArchived => if !f.IsArchived() && !force then Err(Race) else Do(OnDates(UnarchiveFlag(id)))
      case FlagQueuedForDeletion => if f.deleteAfter.None? && !force then Err(Race) else Do(OnDates(ClearDeleteAfter(id)))
      case _ => /* FlagCreated, FlagRestored */ if f.IsArchived() && !force then Err(Race) else Do(OnDates(ArchiveFlag(id)))
  }

  function PlanToggle(db: Sql.Db, e: Entry, force: bool): Plan {
    if !e.newValue.EnabledIs? || !e.oldValue.EnabledIs? then Err(Malformed)
    else if e.entityId !in db.flags then Err(NotFound)
    else if db.flags[e.entityId].enabled != e.newValue.on && !force then Err(Race)
    else Do(Toggling(e.entityId, e.oldValue.on))
  }

  /** The race check compares JSON texts: equal times written differently are different. */
  predicate SameField(px: Platform, k: FieldName, s: Settings, defaultValue: string, i: Image) {
    match k
    case NameOf => s.name == i.settings.name
    case DescriptionOf => s.description == i.settings.description
    case CategoryOf => s.category == i.settings.category
    case PurposeOf => s.purpose == i.settings.purpose
    case OwnersOf => s.owners == i.settings.owners
    case PermanentOf => s.isPermanent == i.settings.isPermanent
    case ExpiryOf => ExpiryText(px, s.expiresAt) == i.expiryText
    case DefaultOf => defaultValue == i.defaultValue
    case TagsOf => s.tags == i.settings.tags
  }

  /** Every member the image names is still the current one. */
  predicate Matches(px: Platform, s: Settings, defaultValue: string, i: Image) {
    forall k :: k in i.named ==> SameField(px, k, s, defaultValue, i)
  }

  /** What updateFlag records: the nine members. Without a flag type, that decodes to the empty one. */
  function NineOf(f: Flag, expiryText: string): Payload {
    Fields(Image(f.settings.(flagType := OtherType("")), None, None, false, f.defaultValue, expiryText, NINE))
  }

  /** The flag revertFlagUpdated rebuilds: identity comes from the current row, everything else from the old value. */
  function Rebuilt(current: Flag, prior: Image): Flag {
    Flag(current.id, current.projectId, prior.applicationId, prior.environmentId, current.key, prior.settings, prior.enabled,
         prior.defaultValue, None, None, FRESH_LIFECYCLE)
  }

  function PlanUpdate(px: Platform, db: Sql.Db, e: Entry, force: bool): Plan {
    if !e.oldValue.Fields? || !e.newValue.Fields? then Err(Malformed)
    else if e.entityId !in db.flags then Err(NotFound)
    else if !force && !Matches(px, db.flags[e.entityId].settings, db.flags[e.entityId].defaultValue, e.newValue.image) then Err(Race)
    else Do(OnFlag(UpdateFlag(Rebuilt(db.flags[e.entityId], e.oldValue.image))))
  }

  function PlanRuleCreated(db: Sql.Db, e: Entry): Plan {
    if !e.newValue.RuleRef? then Err(Malformed)
    else if e.newValue.ruleId !in db.rules then Ok(None)
    else Do(OnRules(DeleteRule(e.newValue.ruleId)))
  }

  function PlanRuleDeleted(db: Sql.Db, e: Entry, force: bool): Plan {
    if !e.oldValue.RuleRow? || e.oldValue.rule.id == NIL then Err(Malformed)
    else if e.oldValue.rule.id in db.rules && !force then Err(Race)
    else Do(OnRules(AddRule(e.oldValue.rule)))
  }

  /** ListRuleEnvironmentStates of a flag, looked up for one rule and environment. */
  function RuleEnvOf(db: Sql.Db, flagId: Uuid, ruleId: Uuid, envId: Uuid): Option<bool> {
    if ruleId in db.rules && db.rules[ruleId].flagId == flagId && (ruleId, envId) in db.ruleEnv
    then Some(db.ruleEnv[(ruleId, envId)]) else None
  }

  function PlanRuleEnv(db: Sql.Db, e: Entry, force: bool): Plan {
    if !e.newValue.RuleEnvIs? || !e.oldValue.RuleEnvIs? then Err(Malformed)
    else
      var found := RuleEnvOf(db, e.entityId, e.newValue.ruleId, e.newValue.envId);
      if !force && found.Some? && found.value != e.newValue.active then Err(Race)
      else Do(OnRules(SetRuleEnvironmentState(e.newValue.ruleId, e.newValue.envId, e.oldValue.active)))
  }

  predicate StillAudited(px: Platform, s: EnvState, p: Payload)
    requires p.FlagEnvIs?
  {
    s.enabled == p.enabled && Marshalled(px, s.value) == Marshalled(px, p.value)
  }

  function PlanFlagEnv(px: Platform, db: Sql.Db, e: Entry, force: bool): Plan {
    if !e.newValue.FlagEnvIs? || !e.oldValue.FlagEnvIs? then Err(Malformed)
    else
      var found := Sql.EnvStateOf(db, e.entityId, e.newValue.envId);
      if !force && found.Some? && !StillAudited(px, found.value, e.newValue) then Err(Race)
      else Do(OnRules(SetFlagEnvState(e.entityId, e.oldValue.envId, EnvState(e.oldValue.enabled, e.oldValue.value))))
  }

  /** RevertRegistry.Revert over the flag handlers, up to the service call. */
  function PlanFor(px: Platform, db: Sql.Db, e: Entry, force: bool): Plan {
    if !Registered(e.entityType, e.action) then Err(NotRevertible)
    else
      match e.action
      case FlagToggled => PlanToggle(db, e, force)
      case FlagUpdated => PlanUpdate(px, db, e, force)
      case RuleCreated => PlanRuleCreated(db, e)
      case RuleDeleted => PlanRuleDeleted(db, e, force)
      case RuleEnvUpdated => PlanRuleEnv(db, e, force)
      case FlagEnvUpdated => PlanFlagEnv(px, db, e, force)
      case _ => PlanDates(db, e, force)
  }

  // ---------------------------------------------------------------- the endpoints that record

  datatype Desk = Desk(world: World, trail: seq<Entry>)

  /** updateFlag's body: empty texts and absent members leave a field alone; tags cannot be edited. */
  datatype Edit = Edit(name: string, description: string, category: Category, purpose: string, owners: Option<seq<string>>,
                       isPermanent: Option<bool>, expiresAt: Option<Time>, expiryText: string, defaultValue: string)

  function OrKeep(change: string, current: string): string { if change != "" then change else current }

  function Edited(f: Flag, x: Edit): Flag {
    f.(settings := f.settings.(
         name := OrKeep(x.name, f.settings.name),
         description := OrKeep(x.description, f.settings.description),
         category := if x.category.Unset? then f.settings.category else x.category,
         purpose := OrKeep(x.purpose, f.settings.purpose),
         owners := if x.owners.Some? then x.owners else f.settings.owners,
         isPermanent := Sql.Or(x.isPermanent, f.settings.isPermanent),
         expiresAt := if x.expiresAt.Some? then x.expiresAt else f.settings.expiresAt),
       defaultValue := OrKeep(x.defaultValue, f.defaultValue))
  }

  /** handler.go */
  const RETENTION_WINDOW: Time := 30 * DAY

  datatype DateCommand = Archive | Queue | CancelQueue | Restore

  /** Requests whose success is audited. CommitUpdate is a staged flag.update: its body replaces the flag, and its old
      value is whatever the client sent along when it staged the row. */
  datatype Command =
    | Toggle(id: Uuid, on: bool)
    | ChangeDates(id: Uuid, change: DateCommand)
    | NewFlag(flag: Flag)
    | NewRule(urlFlagId: Uuid, rule: Rule)
    | EditFlag(id: Uuid, edit: Edit)
    | CommitUpdate(id: Uuid, body: Flag, expiryText: string, named: set<FieldName>, prior: Payload)
    | SetFlagEnv(flagId: Uuid, envId: Uuid, enabled: bool, value: Option<string>)
    | SetRuleEnv(urlFlagId: Uuid, ruleId: Uuid, envId: Uuid, active: bool)
    | RemoveRule(urlFlagId: Uuid, ruleId: Uuid)

  /** archiveFlag, queueFlagDeletion, cancelFlagDeletion and restoreFlag load the flag first. */
  function DateCallOf(db: Sql.Db, id: Uuid, change: DateCommand): Result<Write> {
    if id !in db.flags then Err(NotFound)
    else
      match change
      case Archive => Ok(OnDates(ArchiveFlag(id)))
      case Queue => if db.flags[id].IsArchived() then Ok(OnDates(QueueDeletion(id, RETENTION_WINDOW))) else Err(Conflict)
      case CancelQueue => Ok(OnDates(ClearDeleteAfter(id)))
      case Restore => Ok(OnDates(RestoreFlag(id)))
  }

  function DateAction(change: DateCommand): Action {
    match change
    case Archive => FlagArchived
    case Queue => FlagQueuedForDeletion
    case CancelQueue => OtherAction("flag.queued_for_deletion.cancelled")
    case Restore => FlagRestored
  }

  /** addRule's request has no conditions and no schedule. */
  function Requested(urlFlagId: Uuid, r: Rule): Rule {
    r.(flagId := urlFlagId, conditions := [], combineOp := "", startTime := None, endTime := None, enabled := true)
  }

  /** The service call of a command; updateFlag first loads the flag. */
  function CallOf(db: Sql.Db, r: Command): Result<Write> {
    match r
    case Toggle(id, on) => Ok(Toggling(id, on))
    case ChangeDates(id, change) => DateCallOf(db, id, change)
    case NewFlag(f) => Ok(OnFlag(CreateFlag(f)))
    case NewRule(f, rule) => Ok(OnRules(AddRule(Requested(f, rule))))
    case EditFlag(id, x) => if id in db.flags then Ok(OnFlag(UpdateFlag(Edited(db.flags[id], x)))) else Err(NotFound)
    case CommitUpdate(id, body, _, _, _) => Ok(OnFlag(UpdateFlag(body.(id := id))))
    case SetFlagEnv(f, e, on, v) => Ok(OnRules(SetFlagEnvState(f, e, EnvState(on, v))))
    case SetRuleEnv(_, rule, e, on) => Ok(OnRules(SetRuleEnvironmentState(rule, e, on)))
    case RemoveRule(_, rule) => Ok(OnRules(DeleteRule(rule)))
  }

  function FlagEnvPayload(px: Platform, envId: Uuid, s: EnvState): Payload {
    FlagEnvIs(envId, s.enabled, Recorded(px, s.value))
  }

  function EditedFrom(px: Platform, f: Flag): Payload { NineOf(f, ExpiryText(px, f.settings.expiresAt)) }

  function EditedTo(px: Platform, f: Flag, x: Edit): Payload {
    NineOf(Edited(f, x), if x.expiresAt.Some? then x.expiryText else ExpiryText(px, f.settings.expiresAt))
  }

  function BodyImage(body: Flag, expiryText: string, named: set<FieldName>): Image {
    Image(body.settings, body.applicationId, body.environmentId, body.enabled, body.defaultValue, expiryText, named)
  }

  /** The audit row a successful command leaves, from the rows it found. toggleFlag never looks at the old bit. */
  function EntryOf(px: Platform, db: Sql.Db, r: Command): Entry {
    match r
    case Toggle(id, on) => Entry(FLAG, FlagToggled, id, EnabledIs(!on), EnabledIs(on))
    case ChangeDates(id, change) =>
      Entry(FLAG, DateAction(change), id, if change.CancelQueue? || change.Restore? then Unread else Nothing,
            if change.Queue? then Unread else Nothing)
    case NewFlag(f) => Entry(FLAG, FlagCreated, f.id, Nothing, Unread)
    case NewRule(f, rule) => Entry(FLAG, RuleCreated, f, Nothing, RuleRef(rule.id))
    case EditFlag(id, x) =>
      if id in db.flags then Entry(FLAG, FlagUpdated, id, EditedFrom(px, db.flags[id]), EditedTo(px, db.flags[id], x))
      else Entry(FLAG, FlagUpdated, id, Nothing, Nothing)
    case CommitUpdate(id, body, text, named, prior) => Entry(FLAG, FlagUpdated, id, prior, Fields(BodyImage(body, text, named)))
    case SetFlagEnv(f, e, on, v) =>
      var prior := Sql.EnvStateOf(db, f, e);
      Entry(FLAG, FlagEnvUpdated, f, if prior.Some? then FlagEnvPayload(px, e, prior.value) else Nothing,
            FlagEnvPayload(px, e, EnvState(on, v)))
    case SetRuleEnv(f, rule, e, on) =>
      var prior := RuleEnvOf(db, f, rule, e);
      Entry(FLAG, RuleEnvUpdated, f, if prior.Some? then RuleEnvIs(rule, e, prior.value) else Nothing, RuleEnvIs(rule, e, on))
    case RemoveRule(f, rule) =>
      Entry(FLAG, RuleDeleted, f, if rule in db.rules then RuleRow(db.rules[rule]) else RuleRef(rule), Nothing)
  }

  /** The row revert_handler.go appends: old and new swapped. */
  function UndoEntry(e: Entry): Entry { e.(action := Reverted(e.action), oldValue := e.newValue, newValue := e.oldValue) }

  function Performed(px: Platform, d: Desk, now: Time, r: Command): (Desk, Option<Error>) {
    var call := CallOf(d.world.rows, r);
    if call.Err? then (d, Some(call.error))
    else
      var err := Reply(px, d.world, now, call.value);
      if err.Some? then (d, err)
      else (Desk(Serve(px, d.world, now, call.value), d.trail + [EntryOf(px, d.world.rows, r)]), None)
  }

  function Undone(px: Platform, d: Desk, now: Time, i: nat, force: bool): (Desk, Option<Error>) {
    if i >= |d.trail| then (d, Some(NotFound))
    else
      var e := d.trail[i];
      var plan := PlanFor(px, d.world.rows, e, force);
      if plan.Err? then (d, Some(plan.error))
      else if plan.value.None? then (d.(trail := d.trail + [UndoEntry(e)]), None)
      else
        var err := Reply(px, d.world, now, plan.value.value);
        if err.Some? then (d, err)
        else (Desk(Serve(px, d.world, now, plan.value.value), d.trail + [UndoEntry(e)]), None)
  }

  /** The HTTP handlers, reduced to what they read, call and record. The trail is append-only. */
  class FlagHandler {
    const service: FlagService
    var trail: seq<Entry>

    constructor (service: FlagService)
      ensures this.service == service && trail == []
    {
      this.service, trail := service, [];
    }

    ghost function State(): Desk
      reads this, service.repo, service.cache
    {
      Desk(service.State(), trail)
    }

    /** Captures the audit values before the change, and writes them only after it succeeded. */
    method Perform(r: Command, now: Time) returns (err: Option<Error>)
      modifies this`trail, service.repo, service.cache
      ensures (State(), err) == Performed(service.px, old(State()), now, r)
    {
      var call := CallOf(service.repo.rows, r);
      if call.Err? {
        return Some(call.error);
      }
      var entry := EntryOf(service.px, service.repo.rows, r);
      err := service.Mutate(call.value, now);
      if err.None? {
        trail := trail + [entry];
      }
    }

    method Revert(i: nat, force: bool, now: Time) returns (err: Option<Error>)
      modifies this`trail, service.repo, service.cache
      ensures (State(), err) == Undone(service.px, old(State()), now, i, force)
    {
      if i >= |trail| {
        return Some(NotFound);
      }
      var plan := PlanFor(service.px, service.repo.rows, trail[i], force);
      if plan.Err? {
        return Some(plan.error);
      }
      err := None;
      if plan.value.Some? {
        err := service.Mutate(plan.value.value, now);
      }
      if err.None? {
        trail := trail + [UndoEntry(trail[i])];
      }
    }
  }
}
