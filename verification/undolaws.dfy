/** What undoing an audited change gives back, and when it is refused. */
module UndoLaws {
  import opened Model
  import Cache
  import opened Service
  import opened Undo
  import Sql = Store

  // ---------------------------------------------------------------- audited environment states

  /** The stored value an audited or requested one becomes. */
  function Stored(px: Platform, v: Option<string>): Option<string> { if v.Some? then px.jsonb(v.value) else None }

  /** A request decoded from JSON: null arrives as a nil pointer, so what does arrive is a JSON text other than null. */
  predicate Sendable(px: Platform, v: Option<string>) {
    v.Some? ==> px.jsonb(v.value).Some? && px.jsonb(v.value) != Some("null")
  }

  /** The stored row is one the endpoint could have written. */
  predicate Plain(px: Platform, s: Option<EnvState>) {
    s.Some? ==> Sendable(px, s.value.value) && Stored(px, s.value.value) == s.value.value
  }

  /** The audit payload p describes the row s; a missing row is the empty payload. */
  predicate Denotes(px: Platform, envId: Uuid, p: Payload, s: Option<EnvState>) {
    if s.None? then p.Nothing?
    else p.FlagEnvIs? && p.envId == envId && p.enabled == s.value.enabled && Sendable(px, p.value) && Stored(px, p.value) == s.value.value
  }

  function RowOf(d: Desk, f: Uuid, e: Uuid): Option<EnvState> { Sql.EnvStateOf(d.world.rows, f, e) }

  lemma RecordedDenotes(px: Platform, v: Option<string>)
    requires Lawful(px) && Sendable(px, v)
    ensures Sendable(px, Recorded(px, v)) && Stored(px, Recorded(px, v)) == Stored(px, v)
  {
  }

  /** The guard of revertFlagEnvStateUpdated compares texts; equal texts are equal values. */
  lemma GuardMeansCurrent(px: Platform, envId: Uuid, s: EnvState, p: Payload)
    requires Lawful(px) && Plain(px, Some(s)) && p.FlagEnvIs? && p.envId == envId && Sendable(px, p.value)
    requires StillAudited(px, s, p)
    ensures Denotes(px, envId, p, Some(s))
  {
  }

  lemma SetEntry(px: Platform, d: Desk, f: Uuid, e: Uuid, on: bool, v: Option<string>)
    requires Lawful(px) && Plain(px, RowOf(d, f, e)) && Sendable(px, v)
    ensures var a := EntryOf(px, d.world.rows, SetFlagEnv(f, e, on, v)); var s := Some(EnvState(on, Stored(px, v)));
            && Plain(px, s) && Denotes(px, e, a.oldValue, RowOf(d, f, e)) && Denotes(px, e, a.newValue, s)
  {
    var prior := RowOf(d, f, e);
    if prior.Some? {
      RecordedDenotes(px, prior.value.value);
    }
    RecordedDenotes(px, v);
    var s := Some(EnvState(on, Stored(px, v)));
    assert Plain(px, s) && Denotes(px, e, EntryOf(px, d.world.rows, SetFlagEnv(f, e, on, v)).newValue, s);
  }

  /** What a successful non-forced revert of an environment entry found and wrote. */
  lemma EnvUndone(px: Platform, d: Desk, now: Time, i: nat)
    requires i < |d.trail| && (d.trail[i].action == FlagEnvUpdated || d.trail[i].action == Reverted(FlagEnvUpdated))
    requires Undone(px, d, now, i, false).1.None?
    ensures var a := d.trail[i]; var d1 := Undone(px, d, now, i, false).0;
            && a.action == FlagEnvUpdated && a.entityType == FLAG && a.oldValue.FlagEnvIs? && a.newValue.FlagEnvIs?
            && (var s := RowOf(d, a.entityId, a.newValue.envId); s.Some? ==> StillAudited(px, s.value, a.newValue))
            && d1.world.rows == d.world.rows.(flagEnv := d.world.rows.flagEnv[
                 (a.entityId, a.oldValue.envId) := EnvState(a.oldValue.enabled, Stored(px, a.oldValue.value))])
            && d1.trail == d.trail + [UndoEntry(a)]
  {
  }

  // ---------------------------------------------------------------- change, then undo at once

  /** The desk after a command and the non-forced revert of the entry it left. */
  function ThereAndBack(px: Platform, d: Desk, now: Time, r: Command, now1: Time): (Desk, Option<Error>) {
    Undone(px, Performed(px, d, now, r).0, now1, |d.trail|, false)
  }

  /** What the endpoint wrote and recorded. */
  lemma EnvSet(px: Platform, d: Desk, now: Time, f: Uuid, e: Uuid, on: bool, v: Option<string>)
    requires Performed(px, d, now, SetFlagEnv(f, e, on, v)).1.None?
    ensures var d1 := Performed(px, d, now, SetFlagEnv(f, e, on, v)).0;
            && f != NIL && e != NIL && f in d.world.rows.flags
            && d1.world.rows == d.world.rows.(flagEnv := d.world.rows.flagEnv[(f, e) := EnvState(on, Stored(px, v))])
            && d1.trail == d.trail + [EntryOf(px, d.world.rows, SetFlagEnv(f, e, on, v))]
  {
  }

  /** The plan for an environment entry is carried out when the value it restores is JSON. */
  lemma EnvPlanDone(px: Platform, d: Desk, now: Time, i: nat)
    requires i < |d.trail| && d.trail[i].action == FlagEnvUpdated && d.trail[i].entityType == FLAG
    requires d.trail[i].entityId in d.world.rows.flags && d.trail[i].entityId != NIL
    requires d.trail[i].oldValue.FlagEnvIs? ==> d.trail[i].oldValue.envId != NIL && Sendable(px, d.trail[i].oldValue.value)
    ensures var (d1, err) := Undone(px, d, now, i, false); var plan := PlanFlagEnv(px, d.world.rows, d.trail[i], false);
            if plan.Err? then d1 == d && err == Some(plan.error) else err.None?
  {
  }

  /** The guard does not mistake the value just written for another: both columns keep PostgreSQL's text of it. */
  lemma GuardPasses(px: Platform, e: Uuid, on: bool, v: Option<string>)
    requires Lawful(px) && Sendable(px, v)
    ensures StillAudited(px, EnvState(on, Stored(px, v)), FlagEnvIs(e, on, Recorded(px, v)))
  {
  }

  /** Without an earlier row there is nothing to decode. With one, the undo goes through and restores every table. */
  lemma FlagEnvThereAndBack(px: Platform, d: Desk, now: Time, now1: Time, f: Uuid, e: Uuid, on: bool, v: Option<string>)
    requires Lawful(px) && Sendable(px, v) && Plain(px, RowOf(d, f, e))
    requires Performed(px, d, now, SetFlagEnv(f, e, on, v)).1.None?
    ensures var d1 := Performed(px, d, now, SetFlagEnv(f, e, on, v)).0;
            var (d2, err) := ThereAndBack(px, d, now, SetFlagEnv(f, e, on, v), now1);
            if RowOf(d, f, e).None? then d2 == d1 && err == Some(Malformed)
            else err.None? && d2.world.rows == d.world.rows
  {
    var d1 := Performed(px, d, now, SetFlagEnv(f, e, on, v)).0;
    EnvSet(px, d, now, f, e, on, v);
    SetEntry(px, d, f, e, on, v);
    GuardPasses(px, e, on, v);
    EnvPlanDone(px, d1, now1, |d.trail|);
    if RowOf(d, f, e).Some? {
      EnvUndone(px, d1, now1, |d.trail|);
      var d2 := ThereAndBack(px, d, now, SetFlagEnv(f, e, on, v), now1).0;
      assert d2.world.rows.flagEnv == d.world.rows.flagEnv;
    }
  }

  /** The rule must belong to the flag named in the URL for its earlier state to be found. */
  lemma RuleEnvThereAndBack(px: Platform, d: Desk, now: Time, now1: Time, f: Uuid, rule: Uuid, e: Uuid, on: bool)
    requires Performed(px, d, now, SetRuleEnv(f, rule, e, on)).1.None?
    ensures var d1 := Performed(px, d, now, SetRuleEnv(f, rule, e, on)).0;
            var (d2, err) := ThereAndBack(px, d, now, SetRuleEnv(f, rule, e, on), now1);
            if RuleEnvOf(d.world.rows, f, rule, e).Some? then err.None? && d2.world.rows == d.world.rows
            else d2 == d1 && err == Some(Malformed)
  {
    var db := d.world.rows;
    var d1 := Performed(px, d, now, SetRuleEnv(f, rule, e, on)).0;
    var a := EntryOf(px, db, SetRuleEnv(f, rule, e, on));
    assert d1.trail[|d.trail|] == a;
    assert rule in db.rules && d1.world.rows == db.(ruleEnv := db.ruleEnv[(rule, e) := on]);
    if RuleEnvOf(db, f, rule, e).Some? {
      assert PlanRuleEnv(d1.world.rows, a, false) == Do(OnRules(SetRuleEnvironmentState(rule, e, a.oldValue.active)));
      assert db.ruleEnv[(rule, e) := on][(rule, e) := a.oldValue.active] == db.ruleEnv;
    }
  }

  lemma TogglePut(px: Platform, db: Sql.Db, id: Uuid, on: bool)
    requires Lawful(px) && Sql.Valid(px, db)
    requires id in db.flags && !db.flags[id].IsArchived()
    ensures FlagStatement(px, db, 0, ToggleFlag(id, on)) == Ok(db.(flags := db.flags[id := db.flags[id].(enabled := on)]))
  {
  }

  lemma TwicePut(flags: map<Uuid, Flag>, id: Uuid, a: Flag, b: Flag)
    requires id in flags
    ensures flags[id := a][id := b] == flags[id := b]
    ensures flags[id := b] == flags <==> flags[id] == b
  {
  }

  lemma TogglePutTwice(px: Platform, db: Sql.Db, id: Uuid, on: bool, back: bool)
    requires Lawful(px) && Sql.Valid(px, db)
    requires id in db.flags && !db.flags[id].IsArchived()
    ensures var db1 := db.(flags := db.flags[id := db.flags[id].(enabled := on)]);
            FlagStatement(px, db1, 0, ToggleFlag(id, back)) == Ok(db.(flags := db.flags[id := db.flags[id].(enabled := back)]))
  {
    assert Sql.StoredFlag(px, db.flags[id]);
    TwicePut(db.flags, id, db.flags[id].(enabled := on), db.flags[id].(enabled := back));
  }

  /** The undo of a toggle always goes through; it restores the flag exactly when the toggle changed it. */
  lemma ToggleThereAndBack(px: Platform, d: Desk, now: Time, now1: Time, id: Uuid, on: bool)
    requires Lawful(px) && Sql.Valid(px, d.world.rows)
    requires Performed(px, d, now, Toggle(id, on)).1.None?
    ensures var (d2, err) := ThereAndBack(px, d, now, Toggle(id, on), now1);
            && err.None? && id in d.world.rows.flags
            && d2.world.rows == d.world.rows.(flags := d.world.rows.flags[id := d.world.rows.flags[id].(enabled := !on)])
            && (d2.world.rows == d.world.rows <==> d.world.rows.flags[id].enabled != on)
  {
    var db := d.world.rows;
    TogglePut(px, db, id, on);
    TogglePutTwice(px, db, id, on, !on);
    TwicePut(db.flags, id, db.flags[id], db.flags[id].(enabled := !on));
    var d1 := Performed(px, d, now, Toggle(id, on)).0;
    assert d1.trail[|d.trail|] == EntryOf(px, db, Toggle(id, on));
  }

  /** DeleteRule and then CreateRule of the deleted row. */
  lemma DeletePut(px: Platform, db: Sql.Db, id: Uuid)
    requires Sql.Valid(px, db) && id in db.rules
    ensures var db2 := Sql.DeleteRule(db, id).value; var r := db.rules[id];
            && r.id == id && id !in db2.rules
            && (r.Valid() ==> RuleStatement(px, db2, AddRule(r)) == Ok(db.(ruleEnv := db2.ruleEnv)))
  {
    var db2, r := Sql.DeleteRule(db, id).value, db.rules[id];
    assert Sql.StoredRule(r);
    assert db2.rules[id := r] == db.rules;
  }

  lemma CascadeLeaves(db: Sql.Db, id: Uuid, flagId: Uuid)
    requires id in db.rules
    ensures var kept := Sql.DeleteRule(db, id).value.ruleEnv;
            && (forall e :: id !in Sql.ActiveRules(db.(ruleEnv := kept), flagId, e))
            && (db.(ruleEnv := kept) == db <==> forall k :: k in db.ruleEnv ==> k.0 != id)
  {
  }

  /** Undoing a deletion brings back the row if it validates, as every rule does that came through the service
      (LifecycleRuns.RulesAlwaysValid), but not the environment states the deletion cascaded to: the rule is inactive everywhere. */
  lemma RuleThereAndBack(px: Platform, d: Desk, now: Time, now1: Time, f: Uuid, id: Uuid)
    requires Sql.Valid(px, d.world.rows) && id != NIL
    requires Performed(px, d, now, RemoveRule(f, id)).1.None?
    ensures var d1 := Performed(px, d, now, RemoveRule(f, id)).0; var db := d.world.rows;
            var (d2, err) := ThereAndBack(px, d, now, RemoveRule(f, id), now1);
            && id in db.rules
            && if db.rules[id].Valid()
               then && err.None? && d2.world.rows == db.(ruleEnv := d2.world.rows.ruleEnv)
                    && (forall e :: id !in Sql.ActiveRules(d2.world.rows, db.rules[id].flagId, e))
                    && (d2.world.rows == db <==> forall k :: k in db.ruleEnv ==> k.0 != id)
               else d2 == d1 && err == Some(Invalid)
  {
    var db := d.world.rows;
    DeletePut(px, db, id);
    CascadeLeaves(db, id, db.rules[id].flagId);
    var d1 := Performed(px, d, now, RemoveRule(f, id)).0;
    assert d1.trail[|d.trail|] == EntryOf(px, db, RemoveRule(f, id));
  }

  /** Reverting an archive restores the flag exactly when it had not been archived before: archiving it again succeeds,
      and is audited, all the same. */
  lemma ArchiveThereAndBack(px: Platform, d: Desk, now: Time, now1: Time, id: Uuid)
    requires Sql.Valid(px, d.world.rows)
    requires Performed(px, d, now, ChangeDates(id, Archive)).1.None?
    ensures var db := d.world.rows; var (d2, err) := ThereAndBack(px, d, now, ChangeDates(id, Archive), now1);
            && err.None? && id in db.flags
            && d2.world.rows == db.(flags := db.flags[id := db.flags[id].(archivedAt := None)])
            && (d2.world.rows == db <==> !db.flags[id].IsArchived())
  {
    var db := d.world.rows;
    var f := db.flags[id];
    var d1 := Performed(px, d, now, ChangeDates(id, Archive)).0;
    assert d1.trail[|d.trail|] == EntryOf(px, db, ChangeDates(id, Archive));
    assert f.IsArchived() ==> d1.world.rows.flags == db.flags;
    TwicePut(db.flags, id, f.(archivedAt := Some(now)), f.(archivedAt := None));
  }

  /** Reverting a queueing restores the flag exactly when it was not queued before. */
  lemma QueueThereAndBack(px: Platform, d: Desk, now: Time, now1: Time, id: Uuid)
    requires Sql.Valid(px, d.world.rows)
    requires Performed(px, d, now, ChangeDates(id, Queue)).1.None?
    ensures var db := d.world.rows; var (d2, err) := ThereAndBack(px, d, now, ChangeDates(id, Queue), now1);
            && err.None? && id in db.flags
            && d2.world.rows == db.(flags := db.flags[id := db.flags[id].(deleteAfter := None)])
            && (d2.world.rows == db <==> db.flags[id].deleteAfter.None?)
  {
    var db := d.world.rows;
    var f := db.flags[id];
    var d1 := Performed(px, d, now, ChangeDates(id, Queue)).0;
    assert d1.trail[|d.trail|] == EntryOf(px, db, ChangeDates(id, Queue));
    TwicePut(db.flags, id, f.(deleteAfter := Some(f.archivedAt.value + RETENTION_WINDOW)), f.(deleteAfter := None));
  }

  /** Reverting a restore archives the flag as of now: its retention begins anew, and a deletion date is lost. */
  lemma RestoreThereAndBack(px: Platform, d: Desk, now: Time, now1: Time, id: Uuid)
    requires Sql.Valid(px, d.world.rows)
    requires Performed(px, d, now, ChangeDates(id, Restore)).1.None?
    ensures var db := d.world.rows; var (d2, err) := ThereAndBack(px, d, now, ChangeDates(id, Restore), now1);
            && err.None? && id in db.flags
            && d2.world.rows == db.(flags := db.flags[id := db.flags[id].(archivedAt := Some(now1), deleteAfter := None)])
            && (d2.world.rows == db <==> db.flags[id].archivedAt == Some(now1) && db.flags[id].deleteAfter.None?)
  {
    var db := d.world.rows;
    var f := db.flags[id];
    var d1 := Performed(px, d, now, ChangeDates(id, Restore)).0;
    assert d1.trail[|d.trail|] == EntryOf(px, db, ChangeDates(id, Restore));
    TwicePut(db.flags, id, f.(archivedAt := None, deleteAfter := None), f.(archivedAt := Some(now1), deleteAfter := None));
  }

  /** Cancelling a queued deletion cannot be reverted at all. */
  lemma CancelNotUndone(px: Platform, d: Desk, now: Time, now1: Time, id: Uuid, force: bool)
    requires Performed(px, d, now, ChangeDates(id, CancelQueue)).1.None?
    ensures var d1 := Performed(px, d, now, ChangeDates(id, CancelQueue)).0;
            Undone(px, d1, now1, |d.trail|, force) == (d1, Some(NotRevertible))
  {
    var d1 := Performed(px, d, now, ChangeDates(id, CancelQueue)).0;
    assert d1.trail[|d.trail|] == EntryOf(px, d.world.rows, ChangeDates(id, CancelQueue));
  }

  /** Reverting the creation of a rule leaves no trace of it. */
  lemma NewRuleThereAndBack(px: Platform, d: Desk, now: Time, now1: Time, f: Uuid, r: Rule)
    requires Sql.Valid(px, d.world.rows)
    requires Performed(px, d, now, NewRule(f, r)).1.None?
    ensures var (d2, err) := ThereAndBack(px, d, now, NewRule(f, r), now1); err.None? && d2.world.rows == d.world.rows
  {
    var db := d.world.rows;
    var d1 := Performed(px, d, now, NewRule(f, r)).0;
    assert d1.trail[|d.trail|] == EntryOf(px, db, NewRule(f, r));
    AddDelete(px, db, Requested(f, r));
  }

  lemma AddDelete(px: Platform, db: Sql.Db, r: Rule)
    requires Sql.Valid(px, db) && Sql.CreateRule(db, r).Ok?
    ensures Sql.DeleteRule(Sql.CreateRule(db, r).value, r.id) == Ok(db)
  {
    var db2 := Sql.DeleteRule(Sql.CreateRule(db, r).value, r.id).value;
    assert db2.rules == db.rules && db2.ruleEnv == db.ruleEnv;
  }

  /** Reverting the creation of a flag keeps the row, archived; every other row is as before. */
  lemma NewFlagThereAndBack(px: Platform, d: Desk, now: Time, now1: Time, f: Flag)
    requires Performed(px, d, now, NewFlag(f)).1.None?
    ensures var db := d.world.rows; var d1 := Performed(px, d, now, NewFlag(f)).0;
            var (d2, err) := ThereAndBack(px, d, now, NewFlag(f), now1);
            && err.None? && f.id !in db.flags && f.id in d1.world.rows.flags
            && d2.world.rows == db.(flags := db.flags[f.id := d1.world.rows.flags[f.id].(archivedAt := Some(now1))])
  {
    var db := d.world.rows;
    var d1 := Performed(px, d, now, NewFlag(f)).0;
    assert d1.trail[|d.trail|] == EntryOf(px, db, NewFlag(f));
    var f1 := d1.world.rows.flags[f.id];
    assert db.flags[f.id := f1][f.id := f1.(archivedAt := Some(now1))] == db.flags[f.id := f1.(archivedAt := Some(now1))];
  }

  // ---------------------------------------------------------------- refusals

  /** The audited change made a difference. Archiving, queueing and deleting always do. */
  predicate ChangesValue(px: Platform, a: Entry) {
    match a.action
    case FlagToggled => a.oldValue.EnabledIs? && a.newValue.EnabledIs? && a.oldValue.on != a.newValue.on
    case RuleEnvUpdated =>
      && a.oldValue.RuleEnvIs? && a.newValue.RuleEnvIs? && a.oldValue.active != a.newValue.active
    case FlagEnvUpdated =>
      && a.oldValue.FlagEnvIs? && a.newValue.FlagEnvIs? && a.oldValue.envId == a.newValue.envId
      && Sendable(px, a.oldValue.value) && Sendable(px, a.newValue.value)
      && (a.oldValue.enabled != a.newValue.enabled || Stored(px, a.oldValue.value) != Stored(px, a.newValue.value))
    case FlagUpdated =>
      && a.oldValue.Fields? && a.newValue.Fields?
      && var stored := Sql.DefaultJson(px, a.oldValue.image.defaultValue);
         stored.Some? && !Matches(px, a.oldValue.image.settings, stored.value, a.newValue.image)
    case RuleCreated => false
    case _ => true
  }

  /** The rule is one of the flag the entry names. */
  predicate OwnRule(db: Sql.Db, a: Entry) {
    a.action.RuleEnvUpdated? && a.newValue.RuleEnvIs? && a.newValue.ruleId in db.rules ==>
      db.rules[a.newValue.ruleId].flagId == a.entityId
  }

  lemma DatesRepeat(px: Platform, d: Desk, now: Time, now1: Time, i: nat)
    requires Sql.Valid(px, d.world.rows)
    requires i < |d.trail| && d.trail[i].action in {FlagArchived, FlagCreated, FlagRestored, FlagQueuedForDeletion}
    requires Undone(px, d, now, i, false).1.None?
    ensures var d1 := Undone(px, d, now, i, false).0; Undone(px, d1, now1, i, false) == (d1, Some(Race))
  {
  }

  lemma FlagEnvRepeat(px: Platform, d: Desk, now: Time, now1: Time, i: nat)
    requires Lawful(px)
    requires i < |d.trail| && d.trail[i].action == FlagEnvUpdated && ChangesValue(px, d.trail[i])
    requires Undone(px, d, now, i, false).1.None?
    ensures var d1 := Undone(px, d, now, i, false).0; Undone(px, d1, now1, i, false) == (d1, Some(Race))
  {
    var d1 := Undone(px, d, now, i, false).0;
    var a := d.trail[i];
    var s := EnvState(a.oldValue.enabled, Stored(px, a.oldValue.value));
    EnvUndone(px, d, now, i);
    assert RowOf(d1, a.entityId, a.newValue.envId) == Some(s);
    if StillAudited(px, s, a.newValue) {
      GuardMeansCurrent(px, a.newValue.envId, s, a.newValue);
    }
  }

  lemma ToggleRepeat(px: Platform, d: Desk, now: Time, now1: Time, i: nat)
    requires Lawful(px) && Sql.Valid(px, d.world.rows)
    requires i < |d.trail| && d.trail[i].action == FlagToggled && ChangesValue(px, d.trail[i])
    requires Undone(px, d, now, i, false).1.None?
    ensures var d1 := Undone(px, d, now, i, false).0; Undone(px, d1, now1, i, false) == (d1, Some(Race))
  {
    TogglePut(px, d.world.rows, d.trail[i].entityId, d.trail[i].oldValue.on);
  }

  lemma RuleEnvRepeat(px: Platform, d: Desk, now: Time, now1: Time, i: nat)
    requires i < |d.trail| && d.trail[i].action == RuleEnvUpdated && ChangesValue(px, d.trail[i]) && OwnRule(d.world.rows, d.trail[i])
    requires Undone(px, d, now, i, false).1.None?
    ensures var d1 := Undone(px, d, now, i, false).0; Undone(px, d1, now1, i, false) == (d1, Some(Race))
  {
    assert Undone(px, d, now, i, false).0.trail[i] == d.trail[i];
  }

  lemma RuleRepeat(px: Platform, d: Desk, now: Time, now1: Time, i: nat)
    requires i < |d.trail| && d.trail[i].action == RuleDeleted
    requires Undone(px, d, now, i, false).1.None?
    ensures var d1 := Undone(px, d, now, i, false).0; Undone(px, d1, now1, i, false) == (d1, Some(Race))
  {
  }

  /** Undoing the same change twice in a row is refused, whatever kind of change it was. */
  lemma RepeatRaces(px: Platform, d: Desk, now: Time, now1: Time, i: nat)
    requires Lawful(px) && Sql.Valid(px, d.world.rows)
    requires i < |d.trail| && ChangesValue(px, d.trail[i]) && OwnRule(d.world.rows, d.trail[i])
    requires Undone(px, d, now, i, false).1.None?
    ensures var d1 := Undone(px, d, now, i, false).0; Undone(px, d1, now1, i, false) == (d1, Some(Race))
  {
    match d.trail[i].action
    case FlagEnvUpdated => FlagEnvRepeat(px, d, now, now1, i);
    case FlagToggled => ToggleRepeat(px, d, now, now1, i);
    case FlagUpdated => UpdateRepeat(px, d, now, now1, i);
    case RuleEnvUpdated => RuleEnvRepeat(px, d, now, now1, i);
    case RuleDeleted => RuleRepeat(px, d, now, now1, i);
    case FlagArchived => DatesRepeat(px, d, now, now1, i);
    case FlagCreated => DatesRepeat(px, d, now, now1, i);
    case FlagRestored => DatesRepeat(px, d, now, now1, i);
    case FlagQueuedForDeletion => DatesRepeat(px, d, now, now1, i);
    case _ =>
  }

  /** Undoing a rule's creation twice is the exception: the second time there is nothing to delete. */
  lemma RuleCreationRepeats(px: Platform, d: Desk, now: Time, now1: Time, i: nat)
    requires i < |d.trail| && d.trail[i].action == RuleCreated
    requires Undone(px, d, now, i, false).1.None?
    ensures var d1 := Undone(px, d, now, i, false).0; var (d2, err) := Undone(px, d1, now1, i, false);
            d.trail[i].newValue.RuleRef? && d.trail[i].newValue.ruleId !in d1.world.rows.rules
            && err.None? && d2.world == d1.world
  {
  }

  /** The audited row is there, and differs from the audited new value. */
  predicate Superseded(px: Platform, db: Sql.Db, a: Entry) {
    match a.action
    case FlagToggled => a.entityId in db.flags && a.newValue.EnabledIs? && db.flags[a.entityId].enabled != a.newValue.on
    case FlagUpdated =>
      a.entityId in db.flags && a.newValue.Fields?
      && !Matches(px, db.flags[a.entityId].settings, db.flags[a.entityId].defaultValue, a.newValue.image)
    case RuleEnvUpdated =>
      a.newValue.RuleEnvIs?
      && var s := RuleEnvOf(db, a.entityId, a.newValue.ruleId, a.newValue.envId);
         s.Some? && s.value != a.newValue.active
    case FlagEnvUpdated =>
      a.newValue.FlagEnvIs?
      && var s := Sql.EnvStateOf(db, a.entityId, a.newValue.envId);
         s.Some? && !Denotes(px, a.newValue.envId, a.newValue, s)
    case _ => false
  }

  /** Without force a later differing value is never overwritten. */
  lemma NewerValueKept(px: Platform, d: Desk, now: Time, i: nat)
    requires Lawful(px) && i < |d.trail| && Superseded(px, d.world.rows, d.trail[i])
    requires d.trail[i].action.FlagEnvUpdated? && d.trail[i].newValue.FlagEnvIs? ==>
               && Plain(px, RowOf(d, d.trail[i].entityId, d.trail[i].newValue.envId))
               && Sendable(px, d.trail[i].newValue.value)
    ensures var (d1, err) := Undone(px, d, now, i, false); d1 == d && err.Some?
  {
  }

  // ---------------------------------------------------------------- edits

  /** The old value makes a flag that validates and that the table accepts in place of f. */
  predicate Restorable(px: Platform, f: Flag, prior: Image) {
    && f.projectId != NIL && 0 < |f.key| <= 200
    && prior.settings.name != "" && Sql.Checked(prior.settings)
    && (prior.settings.category.Release? ==> prior.applicationId.Some? && (prior.settings.isPermanent || prior.settings.expiresAt.Some?))
    && Sql.DefaultJson(px, prior.defaultValue).Some?
  }

  function Replaced(px: Platform, f: Flag, prior: Image): Flag
    requires Sql.DefaultJson(px, prior.defaultValue).Some?
  {
    f.(settings := prior.settings, enabled := prior.enabled, defaultValue := Sql.DefaultJson(px, prior.defaultValue).value)
  }

  lemma UpdateDecided(px: Platform, db: Sql.Db, f: Flag, prior: Image)
    requires f.id in db.flags && db.flags[f.id] == f
    ensures var r := FlagStatement(px, db, 0, UpdateFlag(Rebuilt(f, prior)));
            && (r.Ok? <==> Restorable(px, f, prior))
            && (r.Ok? ==> r.value == db.(flags := db.flags[f.id := Replaced(px, f, prior)]))
  {
  }

  /** An edit entry, whoever wrote it, is reverted exactly when both values are flags, the flag is there, the old value
      is restorable and, without force, every member the new value names is still current. The revert replaces all
      settings, the default and the enabled bit, named or not. */
  lemma UpdateUndoneIff(px: Platform, d: Desk, now: Time, i: nat, force: bool)
    requires Sql.Keyed(d.world.rows.flags)
    requires i < |d.trail| && d.trail[i].action == FlagUpdated && d.trail[i].entityType == FLAG
    ensures var a := d.trail[i]; var db := d.world.rows; var (d1, err) := Undone(px, d, now, i, force);
            && (err.None? <==>
                  && a.oldValue.Fields? && a.newValue.Fields? && a.entityId in db.flags
                  && Restorable(px, db.flags[a.entityId], a.oldValue.image)
                  && (force || Matches(px, db.flags[a.entityId].settings, db.flags[a.entityId].defaultValue, a.newValue.image)))
            && if err.Some? then d1 == d
               else d1.trail == d.trail + [UndoEntry(a)]
                    && d1.world.rows == db.(flags := db.flags[a.entityId := Replaced(px, db.flags[a.entityId], a.oldValue.image)])
  {
    var a, db := d.trail[i], d.world.rows;
    if a.oldValue.Fields? && a.entityId in db.flags {
      UpdateDecided(px, db, db.flags[a.entityId], a.oldValue.image);
    }
  }

  lemma UpdateRepeat(px: Platform, d: Desk, now: Time, now1: Time, i: nat)
    requires Sql.Keyed(d.world.rows.flags)
    requires i < |d.trail| && d.trail[i].action == FlagUpdated && ChangesValue(px, d.trail[i])
    requires Undone(px, d, now, i, false).1.None?
    ensures var d1 := Undone(px, d, now, i, false).0; Undone(px, d1, now1, i, false) == (d1, Some(Race))
  {
    var d1 := Undone(px, d, now, i, false).0;
    UpdateUndoneIff(px, d, now, i, false);
    assert d1.trail[i] == d.trail[i];
  }

  /** The endpoint's own entries name no flag type, so the rebuilt flag never validates: an edit through the endpoint
      cannot be undone, even by force. */
  lemma EditNeverUndone(px: Platform, d: Desk, now: Time, now1: Time, id: Uuid, x: Edit, force: bool)
    requires Performed(px, d, now, EditFlag(id, x)).1.None?
    ensures var d1 := Performed(px, d, now, EditFlag(id, x)).0; var (d2, err) := Undone(px, d1, now1, |d.trail|, force);
            d2 == d1 && err.Some?
  {
    var d1 := Performed(px, d, now, EditFlag(id, x)).0;
    assert d1.trail[|d.trail|] == EntryOf(px, d.world.rows, EditFlag(id, x));
    if id in d1.world.rows.flags {
      assert !Rebuilt(d1.world.rows.flags[id], d1.trail[|d.trail|].oldValue.image).Valid();
    }
  }

  /** The default value as the table keeps it. */
  predicate Settled(px: Platform, v: string) { Sql.DefaultJson(px, v) == Some(v) }

  lemma CommitWrites(px: Platform, d: Desk, now: Time, id: Uuid, body: Flag, text: string, named: set<FieldName>, prior: Payload)
    requires Sql.Keyed(d.world.rows.flags)
    requires Performed(px, d, now, CommitUpdate(id, body, text, named, prior)).1.None?
    ensures var db := d.world.rows; var d1 := Performed(px, d, now, CommitUpdate(id, body, text, named, prior)).0;
            && id in db.flags && Sql.DefaultJson(px, body.defaultValue).Some?
            && d1.world.rows == db.(flags := db.flags[id := Replaced(px, db.flags[id], BodyImage(body, text, named))])
            && d1.trail == d.trail + [Entry(FLAG, FlagUpdated, id, prior, Fields(BodyImage(body, text, named)))]
  {
  }

  /** A staged update whose old value the client filled in is reverted exactly when that old value is restorable and the
      new default and the new expiry, if named, were sent in the form they are kept and read back; and then the tables are restored exactly when the
      client told the truth about the flag. */
  lemma CommitThereAndBack(px: Platform, d: Desk, now: Time, now1: Time, id: Uuid, body: Flag, text: string, named: set<FieldName>, prior: Image)
    requires Sql.Keyed(d.world.rows.flags)
    requires Performed(px, d, now, CommitUpdate(id, body, text, named, Fields(prior))).1.None?
    ensures var db := d.world.rows;
            var (d2, err) := ThereAndBack(px, d, now, CommitUpdate(id, body, text, named, Fields(prior)), now1);
            && id in db.flags
            && (err.None? <==>
                  && Restorable(px, db.flags[id], prior)
                  && (DefaultOf in named ==> Settled(px, body.defaultValue))
                  && (ExpiryOf in named ==> text == ExpiryText(px, body.settings.expiresAt)))
            && (err.None? ==> (d2.world.rows == db <==> db.flags[id] == Replaced(px, db.flags[id], prior)))
  {
    var db := d.world.rows;
    var d1 := Performed(px, d, now, CommitUpdate(id, body, text, named, Fields(prior))).0;
    CommitWrites(px, d, now, id, body, text, named, Fields(prior));
    UpdateUndoneIff(px, d1, now1, |d.trail|, false);
    var f1 := d1.world.rows.flags[id];
    assert SameField(px, ExpiryOf, f1.settings, f1.defaultValue, BodyImage(body, text, named)) <==> text == ExpiryText(px, body.settings.expiresAt);
    assert SameField(px, DefaultOf, f1.settings, f1.defaultValue, BodyImage(body, text, named)) <==> Settled(px, body.defaultValue);
    if Restorable(px, db.flags[id], prior) {
      TwicePut(db.flags, id, f1, Replaced(px, db.flags[id], prior));
    }
  }

  /** An undo leaves an entry no handler takes: it cannot itself be undone. */
  lemma UndoNotUndone(px: Platform, d: Desk, now: Time, now1: Time, i: nat, force: bool, force1: bool)
    requires Undone(px, d, now, i, force).1.None?
    ensures var d1 := Undone(px, d, now, i, force).0; Undone(px, d1, now1, |d.trail|, force1) == (d1, Some(NotRevertible))
  {
  }

  // ---------------------------------------------------------------- what can be edited

  /** An edit of a stored flag goes through exactly when project and key are in order, the name does not end up empty, the
      category ends up one that needs no application (release flags lose theirs when read back) and the default can be
      stored. */
  lemma EditedIff(px: Platform, d: Desk, now: Time, id: Uuid, x: Edit)
    requires Sql.Valid(px, d.world.rows) && id in d.world.rows.flags
    ensures var f := d.world.rows.flags[id]; var s := Edited(f, x).settings;
            Performed(px, d, now, EditFlag(id, x)).1.None? <==>
              && f.projectId != NIL && 0 < |f.key| <= 200 && s.name != ""
              && !s.category.Release? && !s.category.OtherCategory?
              && Sql.DefaultJson(px, Edited(f, x).defaultValue).Some?
    ensures Performed(px, d, now, EditFlag(id, x)).1.Some? ==> Performed(px, d, now, EditFlag(id, x)).0 == d
  {
    assert Sql.StoredFlag(px, d.world.rows.flags[id]);
  }

  const RELEASED := Flag(1, 1, Some(2), None, "k", Settings("n", "", Boolean, Release, "", Some([]), Some([]), true, None), false, "true",
                         None, None, FRESH_LIFECYCLE)

  /** A release flag is created, with its application, and then no edit goes through that leaves it one. */
  lemma ReleaseFlagNotEdited(px: Platform, now: Time, x: Edit)
    requires Lawful(px) && px.jsonb("true") == Some("true")
    requires x.category.Unset? || x.category.Release?
    ensures var d := Performed(px, Desk(World(Sql.EMPTY, Cache.EMPTY), []), now, NewFlag(RELEASED)).0;
            && 1 in d.world.rows.flags && d.world.rows.flags[1].settings == RELEASED.settings
            && Performed(px, d, now, EditFlag(1, x)) == (d, Some(Invalid))
  {
    var w := World(Sql.EMPTY, Cache.EMPTY);
    assert RELEASED.Valid();
    var d := Performed(px, Desk(w, []), now, NewFlag(RELEASED)).0;
    assert d.world.rows.flags[1].applicationId == None;
  }
}
