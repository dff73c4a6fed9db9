/** Deployments and their predecessor links: internal/deploy/service.go, internal/models/deployment.go and
    internal/platform/database/postgres/deploy.go. */
module Deployments {
  import opened Model

  datatype Status = Queued | Running | Paused | Promoting | Completed | Failed | RolledBack | Cancelled

  datatype Strategy = Canary | BlueGreen | Rolling | OtherStrategy(name: string)

  datatype Mode = Unspecified | Orchestrate | Record | OtherMode(name: string)

  datatype Deployment = Deployment(
    id: Uuid, applicationId: Uuid, environmentId: Uuid, strategy: Strategy, status: Status,
    artifact: string, version: string, commitSha: string, traffic: int, previous: Option<Uuid>,
    createdBy: Uuid, mode: Mode, source: Option<string>, startedAt: Option<Time>, completedAt: Option<Time>)
  {
    predicate Valid() {
      && applicationId != NIL && environmentId != NIL && artifact != "" && version != "" && createdBy != NIL
      && match mode
         case Unspecified => !strategy.OtherStrategy?
         case Orchestrate => !strategy.OtherStrategy?
         case Record => true
         case OtherMode(_) => false
    }
  }

  type Rows = map<Uuid, Deployment>

  function Next(s: Status): set<Status> {
    match s
    case Queued => {Running, Cancelled}
    case Running => {Paused, Promoting, Completed, Failed, RolledBack, Cancelled}
    case Paused => {Running, RolledBack, Cancelled}
    case Promoting => {Completed, Failed, RolledBack}
    case _ => {}
  }

  predicate Terminal(s: Status) { s in {Completed, Failed, RolledBack, Cancelled} }

  /** TransitionTo */
  function Moved(d: Deployment, target: Status, now: Time): Result<Deployment> {
    if target !in Next(d.status) then Err(Invalid)
    else
      Ok(d.(status := target,
            startedAt := if target.Running? && d.startedAt.None? then Some(now) else d.startedAt,
            completedAt := if Terminal(target) then Some(now) else d.completedAt))
  }

  // ---------------------------------------------------------------- creation

  function OrNow(t: Option<Time>, now: Time): Option<Time> { if t.Some? then t else Some(now) }

  /** What CreateDeployment makes of its argument before it validates; the id has been minted. */
  function Prepared(d: Deployment, now: Time): Deployment {
    if d.mode.Record?
    then d.(status := Completed, traffic := 100, startedAt := OrNow(d.startedAt, now), completedAt := OrNow(d.completedAt, now))
    else d.(mode := if d.mode.Unspecified? then Orchestrate else d.mode, status := Queued)
  }

  predicate CompletedFor(rows: Rows, id: Uuid, applicationId: Uuid, environmentId: Uuid) {
    id in rows && rows[id].status.Completed? && rows[id].applicationId == applicationId && rows[id].environmentId == environmentId
  }

  /** Descending order puts null first. */
  predicate AtLeastAsLate(a: Option<Time>, b: Option<Time>) { a.None? || (b.Some? && a.value >= b.value) }

  /** GetLatestCompletedDeployment; ties in any order. */
  ghost predicate LatestCompleted(rows: Rows, applicationId: Uuid, environmentId: Uuid, found: Option<Uuid>) {
    if found.None? then forall id :: !CompletedFor(rows, id, applicationId, environmentId)
    else
      && CompletedFor(rows, found.value, applicationId, environmentId)
      && forall id :: CompletedFor(rows, id, applicationId, environmentId) ==>
           AtLeastAsLate(rows[found.value].completedAt, rows[id].completedAt)
  }

  function Linked(d: Deployment, found: Option<Uuid>): Deployment { if found.Some? then d.(previous := found) else d }

  function Inserted(rows: Rows, d: Deployment): Result<Rows> {
    if d.id in rows then Err(Conflict)
    else if d.previous.Some? && d.previous.value !in rows then Err(Storage)
    else Ok(rows[d.id := d])
  }

  /** The columns UpdateDeployment writes; the rest of its argument is ignored. */
  function Updated(rows: Rows, d: Deployment): Result<Rows> {
    if d.id !in rows then Err(NotFound)
    else Ok(rows[d.id := rows[d.id].(status := d.status, traffic := d.traffic, startedAt := d.startedAt, completedAt := d.completedAt)])
  }

  datatype Call =
    | Promote(id: Uuid)
    | Rollback(id: Uuid)
    | Pause(id: Uuid)
    | Resume(id: Uuid)
    | Cancel(id: Uuid)
    | SetTraffic(id: Uuid, percent: int)

  /** What the mutator makes of the row it loaded. Promotion checks the transition but sets the status itself. */
  function Changed(d: Deployment, call: Call, now: Time): Result<Deployment> {
    match call
    case Promote(_) => if Promoting in Next(d.status) then Ok(d.(status := Promoting, traffic := 100)) else Err(Invalid)
    case Rollback(_) => Moved(d, RolledBack, now)
    case Pause(_) => if d.status.Running? then Moved(d, Paused, now) else Err(Invalid)
    case Resume(_) => if d.status.Paused? then Moved(d, Running, now) else Err(Invalid)
    case Cancel(_) => Moved(d, Cancelled, now)
    case SetTraffic(_, p) => Ok(d.(traffic := p))
  }

  function Mutated(rows: Rows, call: Call, now: Time): Result<Rows> {
    if call.id !in rows then Err(NotFound)
    else
      var d := Changed(rows[call.id], call, now);
      if d.Err? then Err(d.error) else Updated(rows, d.value)
  }

  /** A workflow_run event, as the GitHub webhook passes it on. */
  datatype Build = Build(applicationId: Uuid, environmentId: Uuid, commitSha: string, source: string, artifact: string, version: string,
                         createdBy: Uuid, status: Status, startedAt: Option<Time>, completedAt: Option<Time>)

  /** UpsertBuildDeployment: the row of this commit and workflow, if any, is overwritten whatever its status. */
  predicate SameBuild(d: Deployment, b: Build) {
    d.applicationId == b.applicationId && d.environmentId == b.environmentId && d.commitSha == b.commitSha && d.source == Some(b.source)
  }

  function Rebuilt(rows: Rows, id: Uuid, b: Build): Rows
    requires id in rows
  {
    rows[id := rows[id].(status := b.status, startedAt := OrElse(rows[id].startedAt, b.startedAt), completedAt := b.completedAt)]
  }

  function OrElse(a: Option<Time>, b: Option<Time>): Option<Time> { if a.Some? then a else b }

  /** A row of its own, which never gets a predecessor. */
  function BuildRow(id: Uuid, b: Build): Deployment {
    Deployment(id, b.applicationId, b.environmentId, Rolling, b.status, b.artifact, b.version, b.commitSha, 0, None,
               b.createdBy, Record, Some(b.source), b.startedAt, b.completedAt)
  }

  class DeployService {
    var rows: Rows

    constructor ()
      ensures rows == map[]
    {
      rows := map[];
    }

    method GetLatestCompletedDeployment(applicationId: Uuid, environmentId: Uuid) returns (found: Option<Uuid>)
      ensures LatestCompleted(rows, applicationId, environmentId, found)
    {
      found := None;
      var left := rows.Keys;
      while left != {}
        invariant left <= rows.Keys
        invariant found.Some? ==> CompletedFor(rows, found.value, applicationId, environmentId)
        invariant forall id :: id in rows.Keys - left && CompletedFor(rows, id, applicationId, environmentId) ==>
                    found.Some? && AtLeastAsLate(rows[found.value].completedAt, rows[id].completedAt)
        decreases left
      {
        var id :| id in left;
        if CompletedFor(rows, id, applicationId, environmentId)
           && (found.None? || !AtLeastAsLate(rows[found.value].completedAt, rows[id].completedAt)) {
          found := Some(id);
        }
        left := left - {id};
      }
    }

    /** A predecessor that cannot be looked up is none. */
    method CreateDeployment(d: Deployment, now: Time, lookupFails: bool) returns (err: Option<Error>, ghost found: Option<Uuid>)
      modifies this
      ensures if lookupFails then found == None else LatestCompleted(old(rows), d.applicationId, d.environmentId, found)
      ensures var p := Prepared(d, now);
              var r := Inserted(old(rows), Linked(p, found));
              if !p.Valid() then err == Some(Invalid) && rows == old(rows)
              else if r.Err? then err == Some(r.error) && rows == old(rows)
              else err == None && rows == r.value
    {
      var p := Prepared(d, now);
      var prev := None;
      if !lookupFails {
        prev := GetLatestCompletedDeployment(p.applicationId, p.environmentId);
      }
      found := prev;
      if !p.Valid() {
        return Some(Invalid), found;
      }
      var r := Inserted(rows, Linked(p, prev));
      if r.Err? {
        return Some(r.error), found;
      }
      rows := r.value;
      err := None;
    }

    method Mutate(call: Call, now: Time) returns (err: Option<Error>)
      modifies this
      ensures var r := Mutated(old(rows), call, now);
              if r.Err? then err == Some(r.error) && rows == old(rows) else err == None && rows == r.value
    {
      if call.id !in rows {
        return Some(NotFound);
      }
      var d := Changed(rows[call.id], call, now);
      if d.Err? {
        return Some(d.error);
      }
      var r := Updated(rows, d.value);
      if r.Err? {
        return Some(r.error);
      }
      rows := r.value;
      err := None;
    }
  }

  /** Called one at a time, the service never moves a deployment out of a terminal status, and leaves every
      deployment's place and predecessor alone. */
  lemma TerminalStays(rows: Rows, call: Call, now: Time, id: Uuid)
    requires Mutated(rows, call, now).Ok? && id in rows && forall x :: x in rows ==> rows[x].id == x
    ensures var d, d1 := rows[id], Mutated(rows, call, now).value[id];
            && d1.previous == d.previous && d1.applicationId == d.applicationId && d1.environmentId == d.environmentId
            && (Terminal(d.status) ==> d1.status == d.status && d1.completedAt == d.completedAt)
            && (d1.status == d.status || d1.status in Next(d.status))
  {
  }
}

/** Creations whose lookup and insertion are separate steps, among updates of any kind. */
module DeploymentRuns {
  import opened Model
  import opened Machines
  import opened Deployments

  /** ranks: how many rows there were when the row was inserted; past: every earlier content of the table. */
  datatype Fleet = Fleet(rows: Rows, ranks: map<Uuid, nat>, drafts: map<nat, Deployment>, past: seq<Rows>)

  datatype Move =
    | LookUp(caller: nat, d: Deployment, now: Time, found: Option<Uuid>)   // CreateDeployment up to its insertion
    | Insert(caller: nat)
    | Update(d: Deployment)                                                // by anyone, from however old a copy
    | Rebuild(id: Uuid, b: Build)
    | InsertBuild(id: Uuid, b: Build)

  /** No caller of CreateDeployment names a predecessor itself; its lookup may fail. */
  ghost predicate Enabled(fl: Fleet, m: Move) {
    match m
    case LookUp(c, d, now, found) =>
      && c !in fl.drafts && d.previous.None? && Prepared(d, now).Valid()
      && (found.None? || LatestCompleted(fl.rows, d.applicationId, d.environmentId, found))
    case Insert(c) => c in fl.drafts
    case Update(d) => true
    case Rebuild(id, b) => id in fl.rows && SameBuild(fl.rows[id], b)
    case InsertBuild(id, b) => id !in fl.rows && forall x :: x in fl.rows ==> !SameBuild(fl.rows[x], b)
  }

  function WithRows(fl: Fleet, r: Result<Rows>): Fleet {
    if r.Ok? then fl.(rows := r.value, past := fl.past + [fl.rows]) else fl
  }

  function Ranked(fl: Fleet, id: Uuid, r: Result<Rows>): Fleet {
    if r.Ok? then WithRows(fl, r).(ranks := fl.ranks[id := |fl.rows|]) else fl
  }

  function Undrafted(fl: Fleet, c: nat): Fleet { fl.(drafts := map x | x in fl.drafts && x != c :: fl.drafts[x]) }

  function After(fl: Fleet, m: Move): Fleet {
    match m
    case LookUp(c, d, now, found) => fl.(drafts := fl.drafts[c := Linked(Prepared(d, now), found)])
    case Insert(c) =>
      if c !in fl.drafts then fl
      else Undrafted(Ranked(fl, fl.drafts[c].id, Inserted(fl.rows, fl.drafts[c])), c)
    case Update(d) => WithRows(fl, Updated(fl.rows, d))
    case Rebuild(id, b) => if id in fl.rows then WithRows(fl, Ok(Rebuilt(fl.rows, id, b))) else fl
    case InsertBuild(id, b) => Ranked(fl, id, Inserted(fl.rows, BuildRow(id, b)))
  }

  predicate SamePair(a: Deployment, b: Deployment) { a.applicationId == b.applicationId && a.environmentId == b.environmentId }

  /** p was a completed deployment of d's pair in some content the table had. */
  ghost predicate WasCompleted(fl: Fleet, p: Uuid, d: Deployment) {
    || CompletedFor(fl.rows, p, d.applicationId, d.environmentId)
    || exists k :: 0 <= k < |fl.past| && CompletedFor(fl.past[k], p, d.applicationId, d.environmentId)
  }

  ghost predicate LinkOk(fl: Fleet, d: Deployment) {
    d.previous.Some? ==>
      var p := d.previous.value;
      && p in fl.rows && SamePair(fl.rows[p], d) && WasCompleted(fl, p, d)
  }

  /** Predecessors were there first. */
  ghost predicate RanksOk(rows: Rows, ranks: map<Uuid, nat>) {
    && ranks.Keys == rows.Keys
    && (forall id :: id in rows ==> ranks[id] < |rows|)
    && (forall id | id in rows && rows[id].previous.Some? && rows[id].previous.value in rows ::
          ranks[rows[id].previous.value] < ranks[id])
  }

  ghost predicate LinksOk(fl: Fleet) {
    && (forall id :: id in fl.rows ==> fl.rows[id].id == id && LinkOk(fl, fl.rows[id]))
    && (forall c :: c in fl.drafts ==> LinkOk(fl, fl.drafts[c]))
  }

  ghost predicate Inv(fl: Fleet) { LinksOk(fl) && RanksOk(fl.rows, fl.ranks) }

  /** Rows keep their place and their link, and the table grows; what was completed stays on record. */
  ghost predicate Later(fl: Fleet, fl1: Fleet) {
    && (forall id | id in fl.rows :: id in fl1.rows && SamePair(fl.rows[id], fl1.rows[id]) && fl1.rows[id].previous == fl.rows[id].previous)
    && (forall p, d | WasCompleted(fl, p, d) :: WasCompleted(fl1, p, d))
  }

  lemma LinkStays(fl: Fleet, fl1: Fleet, d: Deployment, d1: Deployment)
    requires Later(fl, fl1) && LinkOk(fl, d) && SamePair(d, d1) && d1.previous == d.previous
    ensures LinkOk(fl1, d1)
  {
  }

  lemma RowsLater(fl: Fleet, rows: Rows)
    requires forall id | id in fl.rows :: id in rows && SamePair(fl.rows[id], rows[id]) && rows[id].previous == fl.rows[id].previous
    ensures Later(fl, WithRows(fl, Ok(rows)))
  {
    var fl1 := WithRows(fl, Ok(rows));
    forall p, d | WasCompleted(fl, p, d) ensures WasCompleted(fl1, p, d) {
      if CompletedFor(fl.rows, p, d.applicationId, d.environmentId) {
        assert fl1.past[|fl.past|] == fl.rows;
      } else {
        var k :| 0 <= k < |fl.past| && CompletedFor(fl.past[k], p, d.applicationId, d.environmentId);
        assert fl1.past[k] == fl.past[k];
      }
    }
  }

  /** A statement that inserts nothing. */
  lemma WriteKeeps(fl: Fleet, rows: Rows)
    requires Inv(fl) && rows.Keys == fl.rows.Keys
    requires forall id | id in rows ::
               SamePair(fl.rows[id], rows[id]) && rows[id].previous == fl.rows[id].previous && rows[id].id == fl.rows[id].id
    ensures Inv(WithRows(fl, Ok(rows)))
  {
    RowsLater(fl, rows);
    var fl1 := WithRows(fl, Ok(rows));
    forall id | id in rows ensures LinkOk(fl1, rows[id]) {
      LinkStays(fl, fl1, fl.rows[id], rows[id]);
    }
    forall c | c in fl.drafts ensures LinkOk(fl1, fl.drafts[c]) {
      LinkStays(fl, fl1, fl.drafts[c], fl.drafts[c]);
    }
    assert |rows| == |rows.Keys| == |fl.rows.Keys| == |fl.rows|;
  }

  lemma InsertRanks(rows: Rows, ranks: map<Uuid, nat>, d: Deployment)
    requires RanksOk(rows, ranks) && d.id !in rows && (forall id :: id in rows ==> rows[id].previous != Some(d.id))
    requires d.previous.Some? ==> d.previous.value in rows
    ensures RanksOk(rows[d.id := d], ranks[d.id := |rows|])
  {
  }

  lemma InsertLinks(fl: Fleet, d: Deployment)
    requires LinksOk(fl) && d.id !in fl.rows && LinkOk(fl, d)
    ensures LinksOk(WithRows(fl, Ok(fl.rows[d.id := d])))
  {
    var rows := fl.rows[d.id := d];
    RowsLater(fl, rows);
    var fl1 := WithRows(fl, Ok(rows));
    forall id | id in rows ensures LinkOk(fl1, rows[id]) {
      LinkStays(fl, fl1, rows[id], rows[id]);
    }
    forall c | c in fl.drafts ensures LinkOk(fl1, fl.drafts[c]) {
      LinkStays(fl, fl1, fl.drafts[c], fl.drafts[c]);
    }
  }

  lemma RanksApart(fl: Fleet, ranks: map<Uuid, nat>)
    requires LinksOk(fl)
    ensures LinksOk(fl.(ranks := ranks))
  {
  }

  lemma InsertKeeps(fl: Fleet, d: Deployment)
    requires Inv(fl) && d.id !in fl.rows && LinkOk(fl, d)
    ensures Inserted(fl.rows, d).Ok? && Inv(Ranked(fl, d.id, Inserted(fl.rows, d)))
  {
    forall id | id in fl.rows ensures fl.rows[id].previous != Some(d.id) {
      assert LinkOk(fl, fl.rows[id]);
    }
    InsertRanks(fl.rows, fl.ranks, d);
    InsertLinks(fl, d);
    RanksApart(WithRows(fl, Inserted(fl.rows, d)), fl.ranks[d.id := |fl.rows|]);
  }

  lemma LookUpKeeps(fl: Fleet, c: nat, d: Deployment, now: Time, found: Option<Uuid>)
    requires Inv(fl) && Enabled(fl, LookUp(c, d, now, found))
    ensures Inv(After(fl, LookUp(c, d, now, found)))
  {
  }

  lemma UndraftKeeps(fl: Fleet, c: nat)
    requires Inv(fl)
    ensures Inv(Undrafted(fl, c))
  {
  }

  lemma MoveKeeps(fl: Fleet, m: Move)
    requires Inv(fl) && Enabled(fl, m)
    ensures Inv(After(fl, m))
  {
    match m
    case LookUp(c, d, now, found) => LookUpKeeps(fl, c, d, now, found);
    case Insert(c) =>
      var d := fl.drafts[c];
      if d.id !in fl.rows {
        InsertKeeps(fl, d);
      }
      UndraftKeeps(Ranked(fl, d.id, Inserted(fl.rows, d)), c);
    case Update(d) =>
      if Updated(fl.rows, d).Ok? {
        WriteKeeps(fl, Updated(fl.rows, d).value);
      }
    case Rebuild(id, b) => WriteKeeps(fl, Rebuilt(fl.rows, id, b));
    case InsertBuild(id, b) => InsertKeeps(fl, BuildRow(id, b));
  }

  const START := Fleet(map[], map[], map[], [])

  ghost function System(): Machine<Fleet, Move> { Machine((fl, m) => Enabled(fl, m), (fl, m) => After(fl, m)) }

  /** The deployment n predecessor links back. */
  function Back(rows: Rows, id: Uuid, n: nat): Option<Uuid>
    decreases n
  {
    if id !in rows then None
    else if n == 0 then Some(id)
    else if rows[id].previous.None? then None
    else Back(rows, rows[id].previous.value, n - 1)
  }

  lemma {:induction false} BackGoesDown(fl: Fleet, id: Uuid, n: nat)
    requires Inv(fl) && id in fl.rows
    ensures var b := Back(fl.rows, id, n);
            b.Some? ==> && b.value in fl.rows && fl.ranks[b.value] + n <= fl.ranks[id]
                        && SamePair(fl.rows[b.value], fl.rows[id])
                        && (n > 0 ==> WasCompleted(fl, b.value, fl.rows[id]))
    decreases n
  {
    if n > 0 && fl.rows[id].previous.Some? {
      var p := fl.rows[id].previous.value;
      assert LinkOk(fl, fl.rows[id]);
      BackGoesDown(fl, p, n - 1);
    }
  }

  /** After every run: following the links comes to an end within as many steps as there are deployments, never
      returns to where it started, stays with one application and environment, and meets only deployments that
      were completed there at some time before. */
  lemma ChainsEnd(moves: seq<Move>, id: Uuid, n: nat)
    requires Run(System(), START, moves) && id in End(System(), START, moves).rows
    ensures var fl := End(System(), START, moves); var b := Back(fl.rows, id, n);
            && (n >= |fl.rows| ==> b.None?)
            && (n > 0 && b.Some? ==>
                  b.value != id && b.value in fl.rows && SamePair(fl.rows[b.value], fl.rows[id]) && WasCompleted(fl, b.value, fl.rows[id]))
  {
    forall fl, m | Inv(fl) && Enabled(fl, m) ensures Inv(After(fl, m)) {
      MoveKeeps(fl, m);
    }
    Always(System(), fl => Inv(fl), START, moves);
    BackGoesDown(End(System(), START, moves), id, n);
  }

  // ---------------------------------------------------------------- when a predecessor stays completed

  /** The status the move writes into the row. */
  function Wrote(m: Move, id: Uuid): Option<Status> {
    match m
    case Update(d) => if d.id == id then Some(d.status) else None
    case Rebuild(x, b) => if x == id then Some(b.status) else None
    case _ => None
  }

  /** The last status written by the moves, or the one from before them. */
  function LastWritten(moves: seq<Move>, id: Uuid, before: Status): Status
    decreases |moves|
  {
    if moves == [] then before
    else LastWritten(moves[1..], id, if Wrote(moves[0], id).Some? then Wrote(moves[0], id).value else before)
  }

  lemma MoveStatus(fl: Fleet, m: Move, id: Uuid)
    requires Enabled(fl, m) && id in fl.rows
    ensures var rows := After(fl, m).rows;
            id in rows && rows[id].status == if Wrote(m, id).Some? then Wrote(m, id).value else fl.rows[id].status
  {
  }

  /** A deployment that is completed at some point of a run is completed at its end exactly when the last status an update
      or a rerun wrote into its row since, if any did, is that one. */
  lemma {:induction false} CompletedStaysIff(fl: Fleet, moves: seq<Move>, id: Uuid)
    requires Run(System(), fl, moves) && id in fl.rows
    ensures var end := End(System(), fl, moves).rows;
            && id in end && end[id].status == LastWritten(moves, id, fl.rows[id].status)
            && (fl.rows[id].status.Completed? ==>
                  (end[id].status.Completed? <==> LastWritten(moves, id, Completed).Completed?))
    decreases |moves|
  {
    if moves != [] {
      MoveStatus(fl, moves[0], id);
      CompletedStaysIff(After(fl, moves[0]), moves[1..], id);
    }
  }

  /** A build is recorded, a deployment created after it, and then the build's row written once more. */
  function Overtaken(p: Uuid, b: Build, d: Deployment, now: Time, last: Move): seq<Move> {
    [InsertBuild(p, b), LookUp(0, d, now, Some(p)), Insert(0), last]
  }

  predicate CanOvertake(p: Uuid, b: Build, d: Deployment, now: Time) {
    && b.status.Completed? && d.id != p && d.previous.None? && Prepared(d, now).Valid()
    && d.applicationId == b.applicationId && d.environmentId == b.environmentId
  }

  function Linkage(p: Uuid, b: Build, d: Deployment, now: Time): Rows {
    map[p := BuildRow(p, b), d.id := Linked(Prepared(d, now), Some(p))]
  }

  lemma OvertakenRun(p: Uuid, b: Build, d: Deployment, now: Time, last: Move)
    requires CanOvertake(p, b, d, now) && Wrote(last, p).Some?
    requires last.Rebuild? ==> SameBuild(BuildRow(p, b), last.b)
    ensures Run(System(), START, Overtaken(p, b, d, now, last))
    ensures var end := End(System(), START, Overtaken(p, b, d, now, last)).rows;
            && d.id in end && end[d.id].previous == Some(p)
            && p in end && end[p].status == Wrote(last, p).value
  {
    var s1 := After(START, InsertBuild(p, b));
    assert s1.rows == map[p := BuildRow(p, b)];
    var s2 := After(s1, LookUp(0, d, now, Some(p)));
    assert CompletedFor(s1.rows, p, d.applicationId, d.environmentId);
    var s3 := After(s2, Insert(0));
    assert s3.rows == Linkage(p, b, d, now);
    Through(System(), [START, s1, s2, s3, After(s3, last)], Overtaken(p, b, d, now, last));
  }

  /** So a predecessor need not stay completed: a rerun of its workflow fails, */
  lemma RerunUncompletes(p: Uuid, b: Build, d: Deployment, now: Time, rerun: Build)
    requires CanOvertake(p, b, d, now) && SameBuild(BuildRow(p, b), rerun) && rerun.status.Failed?
    ensures var moves := Overtaken(p, b, d, now, Rebuild(p, rerun)); var end := End(System(), START, moves).rows;
            && Run(System(), START, moves)
            && d.id in end && end[d.id].previous == Some(p) && p in end && end[p].status.Failed?
  {
    OvertakenRun(p, b, d, now, Rebuild(p, rerun));
  }

  /** or somebody writes back a copy that was still running. */
  lemma StaleCopyUncompletes(p: Uuid, b: Build, d: Deployment, now: Time)
    requires CanOvertake(p, b, d, now)
    ensures var moves := Overtaken(p, b, d, now, Update(BuildRow(p, b).(status := Running))); var end := End(System(), START, moves).rows;
            && Run(System(), START, moves)
            && d.id in end && end[d.id].previous == Some(p) && p in end && end[p].status.Running?
  {
    OvertakenRun(p, b, d, now, Update(BuildRow(p, b).(status := Running)));
  }
}

/** The mutators of the service with their load and their store apart. */
module MutatorRuns {
  import opened Model
  import opened Deployments

  /** held: the copies callers have loaded and not yet stored. */
  datatype Fleet = Fleet(rows: Rows, held: map<nat, Deployment>)

  datatype Move = Load(caller: nat, id: Uuid) | Store(caller: nat, call: Call, now: Time)

  predicate Enabled(fl: Fleet, m: Move) {
    match m
    case Load(c, id) => c !in fl.held && id in fl.rows
    case Store(c, call, _) => c in fl.held && call.id == fl.held[c].id
  }

  /** A store the transition table refuses, or whose row is gone, writes nothing. */
  function Stored(rows: Rows, copy: Deployment, call: Call, now: Time): Rows {
    var d := Changed(copy, call, now);
    if d.Ok? && Updated(rows, d.value).Ok? then Updated(rows, d.value).value else rows
  }

  function After(fl: Fleet, m: Move): Fleet
    requires Enabled(fl, m)
  {
    match m
    case Load(c, id) => fl.(held := fl.held[c := fl.rows[id]])
    case Store(c, call, now) => Fleet(Stored(fl.rows, fl.held[c], call, now), map x | x in fl.held && x != c :: fl.held[x])
  }

  ghost predicate Trace(fls: seq<Fleet>, moves: seq<Move>) {
    && |fls| == |moves| + 1 && fls[0].held == map[] && (forall id :: id in fls[0].rows ==> fls[0].rows[id].id == id)
    && forall i :: 0 <= i < |moves| ==> Enabled(fls[i], moves[i]) && fls[i + 1] == After(fls[i], moves[i])
  }

  lemma {:induction false} SameRows(fls: seq<Fleet>, moves: seq<Move>, n: nat)
    requires Trace(fls, moves) && n <= |moves|
    ensures fls[n].rows.Keys == fls[0].rows.Keys && forall id :: id in fls[n].rows ==> fls[n].rows[id].id == id
  {
    if n > 0 {
      SameRows(fls, moves, n - 1);
      assert fls[n] == After(fls[n - 1], moves[n - 1]);
    }
  }

  /** c loaded its copy at j and holds it since. */
  ghost predicate LoadedAt(fls: seq<Fleet>, moves: seq<Move>, c: nat, j: nat, k: nat)
    requires |fls| == |moves| + 1 && k <= |moves|
  {
    && j < k && c in fls[k].held && moves[j] == Load(c, fls[k].held[c].id)
    && fls[k].held[c].id in fls[j].rows && fls[j].rows[fls[k].held[c].id] == fls[k].held[c]
  }

  lemma {:induction false} LoadOf(fls: seq<Fleet>, moves: seq<Move>, c: nat, k: nat) returns (j: nat)
    requires Trace(fls, moves) && k <= |moves| && c in fls[k].held
    ensures LoadedAt(fls, moves, c, j, k)
    decreases k
  {
    assert fls[k] == After(fls[k - 1], moves[k - 1]) && Enabled(fls[k - 1], moves[k - 1]);
    if c in fls[k - 1].held {
      j := LoadOf(fls, moves, c, k - 1);
    } else {
      SameRows(fls, moves, k - 1);
      j := k - 1;
    }
  }

  /** The mutator's own target, or the status it leaves alone. */
  function Target(copy: Deployment, call: Call): Status {
    match call
    case Promote(_) => Promoting
    case Rollback(_) => RolledBack
    case Pause(_) => Paused
    case Resume(_) => Running
    case Cancel(_) => Cancelled
    case SetTraffic(_, _) => copy.status
  }

  /** A move takes a row out of its status exactly when it stores a permitted change of a copy to another status. Out of a
      terminal status, that copy was loaded when the row was not in it: before it became so. */
  lemma LeavesStatusIff(fls: seq<Fleet>, moves: seq<Move>, k: nat, id: Uuid) returns (j: nat)
    requires Trace(fls, moves) && k < |moves| && id in fls[k].rows
    ensures id in fls[k + 1].rows
    ensures fls[k + 1].rows[id].status != fls[k].rows[id].status <==>
              && moves[k].Store? && moves[k].call.id == id
              && Changed(fls[k].held[moves[k].caller], moves[k].call, moves[k].now).Ok?
              && Target(fls[k].held[moves[k].caller], moves[k].call) != fls[k].rows[id].status
    ensures moves[k].Store? ==> LoadedAt(fls, moves, moves[k].caller, j, k)
    ensures fls[k + 1].rows[id].status != fls[k].rows[id].status && Terminal(fls[k].rows[id].status) ==>
              j < k && id in fls[j].rows && fls[j].rows[id].status != fls[k].rows[id].status
  {
    SameRows(fls, moves, k);
    SameRows(fls, moves, k + 1);
    assert Enabled(fls[k], moves[k]) && fls[k + 1] == After(fls[k], moves[k]);
    j := 0;
    if moves[k].Store? {
      j := LoadOf(fls, moves, moves[k].caller, k);
    }
  }

  /** So while every copy is stored before anybody else stores, terminal statuses are final: the copy is the row. */
  lemma FreshCopyKeepsTerminal(fls: seq<Fleet>, moves: seq<Move>, k: nat, id: Uuid)
    requires Trace(fls, moves) && k < |moves| && id in fls[k].rows && Terminal(fls[k].rows[id].status)
    requires moves[k].Store? && moves[k].call.id == id ==> fls[k].held[moves[k].caller].status == fls[k].rows[id].status
    ensures id in fls[k + 1].rows && fls[k + 1].rows[id].status == fls[k].rows[id].status
  {
    var j := LeavesStatusIff(fls, moves, k, id);
    SameRows(fls, moves, k);
  }

  /** A traffic update that loaded a running row writes it back over a cancellation. */
  lemma CancellationLost(d: Deployment, percent: int, now: Time) returns (fls: seq<Fleet>)
    requires d.status.Running?
    ensures Trace(fls, [Load(0, d.id), Load(1, d.id), Store(1, Cancel(d.id), now), Store(0, SetTraffic(d.id, percent), now)]) && |fls| == 5
    ensures fls[0].rows == map[d.id := d]
    ensures d.id in fls[3].rows && fls[3].rows[d.id].status.Cancelled? && d.id in fls[4].rows && fls[4].rows[d.id].status.Running?
  {
    var s0 := Fleet(map[d.id := d], map[]);
    var s1 := After(s0, Load(0, d.id));
    var s2 := After(s1, Load(1, d.id));
    var s3 := After(s2, Store(1, Cancel(d.id), now));
    fls := [s0, s1, s2, s3, After(s3, Store(0, SetTraffic(d.id, percent), now))];
  }
}
