/** What can happen to a flag between a scheduler's list and its mark. */
module RaceWindows {
  import opened Model
  import opened Service
  import opened Runs
  import opened Racing
  import Sql = Store

  /** The move sets or cancels the removal date of the flag. */
  ghost predicate RescheduledBy(px: Platform, sh: Shared, m: Move, id: Uuid) {
    m.Call? && Reschedules(m.call) && m.call.l.id == id && Statement(px, sh.rows, m.now, m.call).Ok?
  }

  ghost function RemovalAfter(px: Platform, sh: Shared, m: Move, id: Uuid, before: Option<Time>): Option<Time> {
    if !RescheduledBy(px, sh, m, id) then before
    else if m.call.l.ScheduleRemoval? then Some(m.now + Wrap64(m.call.l.days * DAY)) else None
  }

  function ArchivedAfter(m: Move, id: Uuid, before: bool): bool {
    if !(m.Call? && m.call.OnDates? && m.call.d.id == id) then before
    else
      match m.call.d
      case ArchiveFlag(_) => true
      case UnarchiveFlag(_) => false
      case RestoreFlag(_) => false
      case _ => before
  }

  // ---------------------------------------------------------------- one move

  lemma CallRow(px: Platform, db: Sql.Db, now: Time, call: Write, x: Uuid)
    requires Sql.FlagsOk(px, db.flags) && Statement(px, db, now, call).Ok?
    requires x in db.flags && x in Statement(px, db, now, call).value.flags
    ensures var f, f1 := db.flags[x], Statement(px, db, now, call).value.flags[x];
            && f1.life.removalAt == (if Reschedules(call) && call.l.id == x then PatchOf(now, call.l).removalAt.value else f.life.removalAt)
            && f1.IsArchived() == ArchivedAfter(Call(call, now), x, f.IsArchived())
  {
    match call
    case OnFlag(f) => FlagCallRow(px, db, now, f, x);
    case OnDates(d) => DateMoveRow(db, now, d, x);
    case OnLife(_) =>
    case _ => OtherCallRows(px, db, now, call);
  }

  lemma DateMoveRow(db: Sql.Db, now: Time, d: DateCall, x: Uuid)
    requires Sql.Keyed(db.flags) && DateStatement(db, now, d).Ok? && x in db.flags
    ensures var flags := DateStatement(db, now, d).value.flags;
            && x in flags && flags[x].life.removalAt == db.flags[x].life.removalAt
            && flags[x].IsArchived() == ArchivedAfter(Call(OnDates(d), now), x, db.flags[x].IsArchived())
  {
    DateCallRow(db, now, d);
  }

  /** ArchiveFlag refuses an archived flag, the other two never refuse a flag that is there. */
  lemma RefusedDates(db: Sql.Db, now: Time, d: DateCall)
    requires DateStatement(db, now, d).Err? && d.id in db.flags
    ensures ArchivedAfter(Call(OnDates(d), now), d.id, db.flags[d.id].IsArchived()) == db.flags[d.id].IsArchived()
  {
  }

  lemma CallMoveRow(px: Platform, sh: Shared, call: Write, now: Time, x: Uuid)
    requires Sql.FlagsOk(px, sh.rows.flags) && Enabled(sh, Call(call, now)) && x in sh.rows.flags
    requires x in After(px, sh, Call(call, now)).rows.flags
    ensures RowMoved(px, sh, Call(call, now), x)
  {
    if Statement(px, sh.rows, now, call).Ok? {
      CallRow(px, sh.rows, now, call, x);
    } else if call.OnDates? && call.d.id == x {
      RefusedDates(sh.rows, now, call.d);
    }
  }

  lemma MarkMoveRow(px: Platform, sh: Shared, s: nat, x: Uuid)
    requires Sql.FlagsOk(px, sh.rows.flags) && Enabled(sh, Mark(s)) && x in sh.rows.flags
    requires x in After(px, sh, Mark(s)).rows.flags
    ensures RowMoved(px, sh, Mark(s), x)
  {
    var p := PhaseOf(sh, s);
    if Sql.MarkRemovalFired(sh.rows, p.page[p.done].token.id, p.listedAt).Ok? {
      MarkRow(sh.rows, p.page[p.done].token.id, p.listedAt, x);
    }
  }

  lemma MarkRow(db: Sql.Db, id: Uuid, at: Time, x: Uuid)
    requires Sql.Keyed(db.flags) && Sql.MarkRemovalFired(db, id, at).Ok? && x in db.flags
    ensures var flags := Sql.MarkRemovalFired(db, id, at).value.flags;
            x in flags && flags[x].life.removalAt == db.flags[x].life.removalAt && flags[x].archivedAt == db.flags[x].archivedAt
  {
  }

  ghost predicate RowMoved(px: Platform, sh: Shared, m: Move, x: Uuid)
    requires Enabled(sh, m) && x in sh.rows.flags && x in After(px, sh, m).rows.flags
  {
    var f, f1 := sh.rows.flags[x], After(px, sh, m).rows.flags[x];
    && f1.life.removalAt == RemovalAfter(px, sh, m, x, f.life.removalAt)
    && f1.IsArchived() == ArchivedAfter(m, x, f.IsArchived())
  }

  lemma MoveRow(px: Platform, sh: Shared, m: Move, x: Uuid)
    requires Sql.FlagsOk(px, sh.rows.flags) && Enabled(sh, m) && x in sh.rows.flags && x in After(px, sh, m).rows.flags
    ensures RowMoved(px, sh, m, x)
  {
    match m
    case Call(call, now) => CallMoveRow(px, sh, call, now, x);
    case Mark(s) => MarkMoveRow(px, sh, s, x);
    case _ => assert After(px, sh, m).rows == sh.rows;
  }

  lemma MoveEpoch(px: Platform, sh: Shared, m: Move, sh1: Shared, x: Uuid)
    requires Enabled(sh, m) && x in sh.epochs && sh1 == After(px, sh, m)
    ensures x in sh1.epochs && sh1.epochs[x] == sh.epochs[x] + if RescheduledBy(px, sh, m, x) then 1 else 0
  {
  }

  /** A flag whose id was in use does not come back. */
  lemma MovePresence(px: Platform, sh: Shared, m: Move, x: Uuid)
    requires Sql.FlagsOk(px, sh.rows.flags) && Enabled(sh, m) && x in sh.epochs && x in After(px, sh, m).rows.flags
    ensures x in sh.rows.flags
  {
    if m.Call? && Statement(px, sh.rows, m.now, m.call).Ok? {
      CallKeepsRows(px, sh.rows, m.now, m.call, x);
    }
  }

  // ---------------------------------------------------------------- the window

  predicate Renews(m: Move, s: nat) { (m.List? || m.Finish? || m.Crash?) && m.s == s }

  /** Scheduler s lists at a and still works through that page at b. */
  ghost predicate Window(px: Platform, states: seq<Shared>, moves: seq<Move>, s: nat, a: nat, b: nat) {
    && Interleaving(px, states, moves) && Fresh(px, states[0])
    && a < b < |moves| && moves[a].List? && moves[a].s == s
    && forall k :: a < k < b ==> !Renews(moves[k], s)
  }

  lemma Valids(px: Platform, states: seq<Shared>, moves: seq<Move>, n: nat)
    requires Lawful(px) && Interleaving(px, states, moves) && Fresh(px, states[0]) && n <= |moves|
    ensures Sql.FlagsOk(px, states[n].rows.flags) && states[n].rows.flags.Keys <= states[n].epochs.Keys
  {
    InvAlways(px, states, moves, n);
  }

  lemma PageKept(px: Platform, sh: Shared, m: Move, s: nat)
    requires Enabled(sh, m) && !Renews(m, s) && !PhaseOf(sh, s).Idle?
    ensures var p, p1 := PhaseOf(sh, s), PhaseOf(After(px, sh, m), s); !p1.Idle? && p1.page == p.page && p1.listedAt == p.listedAt
  {
  }

  lemma PageAt(px: Platform, states: seq<Shared>, moves: seq<Move>, s: nat, k: nat)
    requires Interleaving(px, states, moves) && k < |moves| && !Renews(moves[k], s) && !PhaseOf(states[k], s).Idle?
    ensures var p, p1 := PhaseOf(states[k], s), PhaseOf(states[k + 1], s); !p1.Idle? && p1.page == p.page && p1.listedAt == p.listedAt
  {
    PageKept(px, states[k], moves[k], s);
  }

  lemma PageListed(px: Platform, states: seq<Shared>, moves: seq<Move>, a: nat)
    requires Interleaving(px, states, moves) && a < |moves| && moves[a].List?
    ensures Enabled(states[a], moves[a])
    ensures PhaseOf(states[a + 1], moves[a].s) == Working(moves[a].now, ListedAs(states[a], moves[a].ids), 0)
  {
  }

  lemma {:induction false} PageHeld(px: Platform, states: seq<Shared>, moves: seq<Move>, s: nat, a: nat, b: nat)
    requires Window(px, states, moves, s, a, b)
    ensures var p := PhaseOf(states[b], s);
            !p.Idle? && p.page == ListedAs(states[a], moves[a].ids) && p.listedAt == moves[a].now
    decreases b
  {
    if b > a + 1 {
      PageHeld(px, states, moves, s, a, b - 1);
      PageAt(px, states, moves, s, b - 1);
    } else {
      PageListed(px, states, moves, a);
    }
  }

  lemma EpochAt(px: Platform, states: seq<Shared>, moves: seq<Move>, k: nat, x: Uuid)
    requires Interleaving(px, states, moves) && k < |moves| && x in states[k].epochs
    ensures x in states[k + 1].epochs
    ensures states[k + 1].epochs[x] == states[k].epochs[x] + if RescheduledBy(px, states[k], moves[k], x) then 1 else 0
  {
    MoveEpoch(px, states[k], moves[k], states[k + 1], x);
  }

  /** The setting of the flag changed only by the calls of the window. */
  lemma {:induction false} EpochHeld(px: Platform, states: seq<Shared>, moves: seq<Move>, a: nat, n: nat, x: Uuid)
    requires Interleaving(px, states, moves) && a <= n <= |moves| && x in states[a].epochs
    ensures x in states[n].epochs && states[a].epochs[x] <= states[n].epochs[x]
    ensures states[n].epochs[x] == states[a].epochs[x] <==> forall k :: a <= k < n ==> !RescheduledBy(px, states[k], moves[k], x)
    decreases n
  {
    if n > a {
      EpochHeld(px, states, moves, a, n - 1, x);
      EpochAt(px, states, moves, n - 1, x);
    }
  }

  lemma PresentBefore(px: Platform, states: seq<Shared>, moves: seq<Move>, a: nat, n: nat, x: Uuid)
    requires Lawful(px) && Interleaving(px, states, moves) && Fresh(px, states[0]) && a <= n < |moves|
    requires x in states[a].epochs && x in states[n + 1].rows.flags
    ensures x in states[n].rows.flags
  {
    EpochHeld(px, states, moves, a, n, x);
    Valids(px, states, moves, n);
    assert Enabled(states[n], moves[n]) && states[n + 1] == After(px, states[n], moves[n]);
    MovePresence(px, states[n], moves[n], x);
  }

  lemma {:induction false} Present(px: Platform, states: seq<Shared>, moves: seq<Move>, a: nat, b: nat, x: Uuid)
    requires Lawful(px) && Interleaving(px, states, moves) && Fresh(px, states[0]) && a <= b <= |moves|
    requires x in states[a].epochs && x in states[b].rows.flags
    ensures forall n :: a <= n <= b ==> x in states[n].rows.flags
    decreases b
  {
    if b > a {
      PresentBefore(px, states, moves, a, b - 1, x);
      Present(px, states, moves, a, b - 1, x);
    }
  }

  /** The removal date as the calls between a and n leave it. */
  ghost function RemovalLeft(px: Platform, states: seq<Shared>, moves: seq<Move>, a: nat, n: nat, x: Uuid): Option<Time>
    requires |states| == |moves| + 1 && a <= n <= |moves| && x in states[a].rows.flags
    decreases n
  {
    if n == a then states[a].rows.flags[x].life.removalAt
    else RemovalAfter(px, states[n - 1], moves[n - 1], x, RemovalLeft(px, states, moves, a, n - 1, x))
  }

  /** Archived or not, as they leave it. */
  ghost function ArchivedLeft(states: seq<Shared>, moves: seq<Move>, a: nat, n: nat, x: Uuid): bool
    requires |states| == |moves| + 1 && a <= n <= |moves| && x in states[a].rows.flags
    decreases n
  {
    if n == a then states[a].rows.flags[x].IsArchived()
    else ArchivedAfter(moves[n - 1], x, ArchivedLeft(states, moves, a, n - 1, x))
  }

  lemma {:induction false} RowHeld(px: Platform, states: seq<Shared>, moves: seq<Move>, a: nat, n: nat, x: Uuid)
    requires Lawful(px) && Interleaving(px, states, moves) && Fresh(px, states[0]) && a <= n <= |moves|
    requires forall k :: a <= k <= n ==> x in states[k].rows.flags
    ensures states[n].rows.flags[x].life.removalAt == RemovalLeft(px, states, moves, a, n, x)
    ensures states[n].rows.flags[x].IsArchived() == ArchivedLeft(states, moves, a, n, x)
    decreases n
  {
    if n > a {
      RowHeld(px, states, moves, a, n - 1, x);
      Valids(px, states, moves, n - 1);
      assert states[n] == After(px, states[n - 1], moves[n - 1]);
      MoveRow(px, states[n - 1], moves[n - 1], x);
    }
  }

  /** The flag that s is about to mark, as it listed it. */
  ghost function Current(sh: Shared, s: nat): Token
    requires !PhaseOf(sh, s).Idle? && PhaseOf(sh, s).done < |PhaseOf(sh, s).page|
  {
    PhaseOf(sh, s).page[PhaseOf(sh, s).done].token
  }

  lemma ListedThere(px: Platform, states: seq<Shared>, moves: seq<Move>, s: nat, a: nat, b: nat)
    requires Lawful(px) && Window(px, states, moves, s, a, b) && moves[b] == Mark(s)
    ensures var x := Current(states[b], s).id;
            && x in states[a].rows.flags && x in states[a].epochs && Sql.Due(states[a].rows.flags[x], moves[a].now)
            && Current(states[b], s) == Token(x, states[a].epochs[x])
            && PhaseOf(states[b], s).listedAt == moves[a].now
  {
    PageHeld(px, states, moves, s, a, b);
    Valids(px, states, moves, a);
    assert Enabled(states[a], moves[a]) && Enabled(states[b], moves[b]);
    var x := Current(states[b], s).id;
    assert x in Sql.DueIds(states[a].rows, moves[a].now);
  }

  /** A mark that goes through announces the setting that was listed exactly when nobody set or cancelled the flag's
      removal date between the list and the mark. */
  lemma MarkFilesListedIff(px: Platform, states: seq<Shared>, moves: seq<Move>, s: nat, a: nat, b: nat)
    requires Lawful(px) && Window(px, states, moves, s, a, b) && moves[b] == Mark(s)
    requires PhaseOf(states[b + 1], s).Emitting?
    ensures var listed, filed := Current(states[b], s), PhaseOf(states[b + 1], s).token;
            && filed.id == listed.id
            && (filed == listed <==> forall k :: a < k < b ==> !RescheduledBy(px, states[k], moves[k], listed.id))
  {
    ListedThere(px, states, moves, s, a, b);
    var x := Current(states[b], s).id;
    EpochHeld(px, states, moves, a, b, x);
    assert states[b + 1] == After(px, states[b], moves[b]);
    assert !RescheduledBy(px, states[a], moves[a], x);
  }

  /** The row a mark goes through on is still due, by the clock of its list, exactly when the calls of the window left it
      a date no later than that, and not archived. */
  lemma MarkedStillDueIff(px: Platform, states: seq<Shared>, moves: seq<Move>, s: nat, a: nat, b: nat)
    requires Lawful(px) && Window(px, states, moves, s, a, b) && moves[b] == Mark(s)
    requires PhaseOf(states[b + 1], s).Emitting?
    ensures var x := Current(states[b], s).id;
            && x in states[a].rows.flags && x in states[b].rows.flags
            && var left := RemovalLeft(px, states, moves, a, b, x);
               Sql.Due(states[b].rows.flags[x], moves[a].now)
               <==> left.Some? && left.value <= moves[a].now && !ArchivedLeft(states, moves, a, b, x)
  {
    ListedThere(px, states, moves, s, a, b);
    var x := Current(states[b], s).id;
    assert states[b + 1] == After(px, states[b], moves[b]);
    Present(px, states, moves, a, b, x);
    RowHeld(px, states, moves, a, b, x);
  }

  /** In particular a flag nobody rescheduled, cancelled or archived in the window. */
  lemma {:induction false} UntouchedStillDue(px: Platform, states: seq<Shared>, moves: seq<Move>, a: nat, n: nat, x: Uuid)
    requires |states| == |moves| + 1 && a <= n <= |moves| && x in states[a].rows.flags
    requires forall k :: a <= k < n ==> !RescheduledBy(px, states[k], moves[k], x) && !ArchivedBy(moves[k], x)
    ensures RemovalLeft(px, states, moves, a, n, x) == states[a].rows.flags[x].life.removalAt
    ensures ArchivedLeft(states, moves, a, n, x) ==> states[a].rows.flags[x].IsArchived()
    decreases n
  {
    if n > a {
      UntouchedStillDue(px, states, moves, a, n - 1, x);
    }
  }

  predicate ArchivedBy(m: Move, x: Uuid) { m.Call? && m.call == OnDates(ArchiveFlag(x)) }

  // ---------------------------------------------------------------- runs in which it is not

  /** List, a call by somebody else, mark and emit. */
  function Interrupted(s: nat, at: Time, ids: seq<Uuid>, call: Write, now: Time): seq<Move> {
    [List(s, at, ids), Call(call, now), Mark(s), Emit(s)]
  }

  ghost predicate CanInterrupt(px: Platform, sh: Shared, at: Time, ids: seq<Uuid>) {
    Lawful(px) && Fresh(px, sh) && Sql.DuePage(sh.rows, at, ids) && ids != []
  }

  lemma FirstDue(px: Platform, sh: Shared, at: Time, ids: seq<Uuid>)
    requires CanInterrupt(px, sh, at, ids)
    ensures ids[0] in sh.rows.flags && sh.rows.flags[ids[0]].id == ids[0] && Sql.Due(sh.rows.flags[ids[0]], at)
  {
    assert ids[0] in Sql.DueIds(sh.rows, at);
  }

  lemma ListThenCall(px: Platform, sh: Shared, s: nat, at: Time, ids: seq<Uuid>, call: Write, now: Time)
    requires CanInterrupt(px, sh, at, ids) && !Marks(call) && !Creates(call) && Statement(px, sh.rows, now, call).Ok?
    ensures Enabled(sh, List(s, at, ids))
    ensures var s1 := After(px, sh, List(s, at, ids));
            && Enabled(s1, Call(call, now))
            && var s2 := After(px, s1, Call(call, now));
               && s2.rows == Statement(px, sh.rows, now, call).value && s2.epochs == EpochsAfter(sh, call) && s2.sent == []
               && PhaseOf(s2, s).Working? && PhaseOf(s2, s).listedAt == at && PhaseOf(s2, s).done == 0
               && |PhaseOf(s2, s).page| == |ids| && PhaseOf(s2, s).page[0].token.id == ids[0]
  {
    FirstDue(px, sh, at, ids);
  }

  lemma MarkThenEmit(px: Platform, sh: Shared, s: nat, x: Uuid)
    requires var p := PhaseOf(sh, s); p.Working? && p.done == 0 && p.page != [] && p.page[0].token.id == x
    requires Sql.MarkRemovalFired(sh.rows, x, PhaseOf(sh, s).listedAt).Ok?
    ensures Enabled(sh, Mark(s))
    ensures var s1 := After(px, sh, Mark(s));
            && Enabled(s1, Emit(s))
            && var s2 := After(px, s1, Emit(s));
               && s2.rows == Sql.MarkRemovalFired(sh.rows, x, PhaseOf(sh, s).listedAt).value
               && |s2.sent| == |sh.sent| + 1 && s2.sent[|sh.sent|].token == Token(x, EpochOf(sh, x))
  {
  }

  lemma FourMoves(px: Platform, states: seq<Shared>, moves: seq<Move>)
    requires |moves| == 4 && |states| == 5
    requires Enabled(states[0], moves[0]) && states[1] == After(px, states[0], moves[0])
    requires Enabled(states[1], moves[1]) && states[2] == After(px, states[1], moves[1])
    requires Enabled(states[2], moves[2]) && states[3] == After(px, states[2], moves[2])
    requires Enabled(states[3], moves[3]) && states[4] == After(px, states[3], moves[3])
    ensures Interleaving(px, states, moves)
  {
  }

  lemma InterruptedRun(px: Platform, sh: Shared, s: nat, at: Time, ids: seq<Uuid>, call: Write, now: Time) returns (states: seq<Shared>)
    requires CanInterrupt(px, sh, at, ids) && !Marks(call) && !Creates(call)
    requires var r := Statement(px, sh.rows, now, call); r.Ok? && Sql.MarkRemovalFired(r.value, ids[0], at).Ok?
    ensures Interleaving(px, states, Interrupted(s, at, ids, call, now)) && states[0] == sh && |states| == 5
    ensures states[2].rows == Statement(px, sh.rows, now, call).value
    ensures states[4].rows == Sql.MarkRemovalFired(states[2].rows, ids[0], at).value
    ensures |states[4].sent| == 1 && states[4].sent[0].token == Token(ids[0], EpochOf(states[2], ids[0]))
    ensures states[2].epochs == EpochsAfter(sh, call)
  {
    var moves := Interrupted(s, at, ids, call, now);
    ListThenCall(px, sh, s, at, ids, call, now);
    var s1 := After(px, sh, moves[0]);
    var s2 := After(px, s1, moves[1]);
    MarkThenEmit(px, s2, s, ids[0]);
    var s3 := After(px, s2, moves[2]);
    states := [sh, s1, s2, s3, After(px, s3, moves[3])];
    FourMoves(px, states, moves);
  }

  /** Rescheduled between list and mark: the new date is announced at once, and never fires when it comes. */
  lemma RescheduleLosesItsEvent(px: Platform, sh: Shared, s: nat, at: Time, ids: seq<Uuid>, days: int, now: Time) returns (states: seq<Shared>)
    requires CanInterrupt(px, sh, at, ids) && days > 0
    ensures var call := OnLife(ScheduleRemoval(ids[0], days));
            && Interleaving(px, states, Interrupted(s, at, ids, call, now)) && states[0] == sh && |states| == 5
            && |states[4].sent| == 1 && states[4].sent[0].token == Token(ids[0], EpochOf(sh, ids[0]) + 1)
            && ids[0] in states[4].rows.flags && forall t :: !Sql.Due(states[4].rows.flags[ids[0]], t)
  {
    FirstDue(px, sh, at, ids);
    states := InterruptedRun(px, sh, s, at, ids, OnLife(ScheduleRemoval(ids[0], days)), now);
  }

  /** Cancelled between list and mark: announced although no date is set. */
  lemma CancelledStillAnnounced(px: Platform, sh: Shared, s: nat, at: Time, ids: seq<Uuid>, now: Time) returns (states: seq<Shared>)
    requires CanInterrupt(px, sh, at, ids)
    ensures var call := OnLife(CancelScheduledRemoval(ids[0]));
            && Interleaving(px, states, Interrupted(s, at, ids, call, now)) && states[0] == sh && |states| == 5
            && |states[4].sent| == 1 && states[4].sent[0].token.id == ids[0]
            && ids[0] in states[2].rows.flags && states[2].rows.flags[ids[0]].life.removalAt.None?
  {
    FirstDue(px, sh, at, ids);
    states := InterruptedRun(px, sh, s, at, ids, OnLife(CancelScheduledRemoval(ids[0])), now);
  }

  /** Archived between list and mark: announced although archived. */
  lemma ArchivedStillAnnounced(px: Platform, sh: Shared, s: nat, at: Time, ids: seq<Uuid>, now: Time) returns (states: seq<Shared>)
    requires CanInterrupt(px, sh, at, ids)
    ensures var call := OnDates(ArchiveFlag(ids[0]));
            && Interleaving(px, states, Interrupted(s, at, ids, call, now)) && states[0] == sh && |states| == 5
            && |states[4].sent| == 1 && states[4].sent[0].token.id == ids[0]
            && ids[0] in states[2].rows.flags && states[2].rows.flags[ids[0]].IsArchived()
  {
    FirstDue(px, sh, at, ids);
    states := InterruptedRun(px, sh, s, at, ids, OnDates(ArchiveFlag(ids[0])), now);
  }
}
