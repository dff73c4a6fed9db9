/** The order in which a commit loads its staged rows, which GetByIDs leaves to the database: when it matters. */
module LoadingOrder {
  import opened Model
  import opened Service
  import opened Runs
  import opened Preview
  import Sql = Store

  // ---------------------------------------------------------------- batches over many flags

  /** A row that can commit at all: it decodes, and the flag it names is there, unless it archives. */
  predicate Sound(flags: map<Uuid, Flag>, s: Staged) {
    StagedCall(s).Ok? && (s.resourceId.value in flags || s.action.Archive?)
  }

  ghost predicate AllClear(flags: map<Uuid, Flag>, rows: seq<Staged>, seen: Time) {
    && (forall s :: s in rows ==> Sound(flags, s))
    && (forall id :: id in flags ==> Clear(Show(flags[id]), RowsFor(rows, id), seen))
  }

  /** Clearness looks at the archived bit alone. */
  lemma {:induction false} ClearAgrees(p: Shown, q: Shown, rows: seq<Staged>, seen: Time)
    requires p.flag.IsArchived() == q.flag.IsArchived()
    ensures Clear(p, rows, seen) == Clear(q, rows, seen)
    decreases |rows|
  {
    if rows != [] && StagedCall(rows[0]).Ok? {
      ClearAgrees(Applied(p, rows[0].action, seen).value, Applied(q, rows[0].action, seen).value, rows[1..], seen);
    }
  }

  lemma RowSound(px: Platform, w: World, now: Time, s: Staged)
    requires Lawful(px) && Sql.Valid(px, w.rows)
    ensures CommitRow(px, w, now, s).1.None? <==>
              && Sound(w.rows.flags, s)
              && (s.action.Toggle? ==> !w.rows.flags[s.resourceId.value].IsArchived())
  {
    if s.resourceId.Some? && s.resourceId.value in w.rows.flags {
      RowSucceedsIff(px, w, now, s, s.resourceId.value);
    }
  }

  lemma RowValid(px: Platform, w: World, now: Time, s: Staged)
    requires Lawful(px) && Sql.Valid(px, w.rows)
    ensures Sql.Valid(px, CommitRow(px, w, now, s).0.rows)
  {
    if StagedCall(s).Ok? && Statement(px, w.rows, now, StagedCall(s).value).Ok? {
      StatementValid(px, w.rows, now, StagedCall(s).value);
    }
  }

  /** What a committed first row leaves to clear. */
  lemma ClearStep(px: Platform, w: World, now: Time, s: Staged, rest: seq<Staged>, id: Uuid, seen: Time)
    requires Lawful(px) && Sql.Valid(px, w.rows) && CommitRow(px, w, now, s).1.None? && id in w.rows.flags
    ensures var flags := CommitRow(px, w, now, s).0.rows.flags;
            id in flags && (Clear(Show(w.rows.flags[id]), RowsFor([s] + rest, id), seen) <==> Clear(Show(flags[id]), RowsFor(rest, id), seen))
  {
    RowAgrees(px, w, now, s, id, Show(w.rows.flags[id]), seen);
    RowSound(px, w, now, s);
    assert ([s] + rest)[1..] == rest;
    if s.resourceId == Some(id) {
      var flags := CommitRow(px, w, now, s).0.rows.flags;
      var rows := RowsFor([s] + rest, id);
      assert rows[0] == s && rows[1..] == RowsFor(rest, id);
      ClearAgrees(Applied(Show(w.rows.flags[id]), s.action, seen).value, Show(flags[id]), RowsFor(rest, id), seen);
    } else {
      assert RowsFor([s] + rest, id) == RowsFor(rest, id);
    }
  }

  lemma SameFlags(px: Platform, w: World, now: Time, s: Staged)
    requires Sql.Keyed(w.rows.flags) && CommitRow(px, w, now, s).1.None?
    ensures CommitRow(px, w, now, s).0.rows.flags.Keys == w.rows.flags.Keys
  {
    match s.action
    case Toggle(on) => ToggleTouches(px, w, now, s.resourceId.value, on.value);
    case Archive => ArchiveTouches(px, w, now, s.resourceId.value);
    case Restore => RestoreTouches(px, w, now, s.resourceId.value);
  }

  lemma FirstClear(px: Platform, w: World, now: Time, s: Staged, rest: seq<Staged>, seen: Time)
    requires Lawful(px) && Sql.Valid(px, w.rows) && AllClear(w.rows.flags, [s] + rest, seen)
    ensures CommitRow(px, w, now, s).1.None?
  {
    assert s in [s] + rest && ([s] + rest)[1..] == rest;
    if s.action.Toggle? {
      var id := s.resourceId.value;
      assert RowsFor([s] + rest, id)[0] == s;
    }
    RowSound(px, w, now, s);
  }

  lemma SoundRest(flags: map<Uuid, Flag>, flags1: map<Uuid, Flag>, s: Staged, rest: seq<Staged>)
    requires flags1.Keys == flags.Keys && Sound(flags, s)
    ensures (forall x :: x in [s] + rest ==> Sound(flags, x)) <==> forall x :: x in rest ==> Sound(flags1, x)
  {
    assert forall x :: x in [s] + rest <==> x == s || x in rest;
    assert forall x :: Sound(flags, x) <==> Sound(flags1, x);
  }

  lemma RestClear(px: Platform, w: World, now: Time, s: Staged, rest: seq<Staged>, seen: Time)
    requires Lawful(px) && Sql.Valid(px, w.rows) && CommitRow(px, w, now, s).1.None?
    ensures AllClear(w.rows.flags, [s] + rest, seen) <==> AllClear(CommitRow(px, w, now, s).0.rows.flags, rest, seen)
  {
    var flags, flags1 := w.rows.flags, CommitRow(px, w, now, s).0.rows.flags;
    SameFlags(px, w, now, s);
    RowSound(px, w, now, s);
    SoundRest(flags, flags1, s, rest);
    forall id | id in flags
      ensures Clear(Show(flags[id]), RowsFor([s] + rest, id), seen) <==> Clear(Show(flags1[id]), RowsFor(rest, id), seen)
    {
      ClearStep(px, w, now, s, rest, id, seen);
    }
  }

  /** A batch over any flags commits exactly when every row is sound and every flag's own rows are clear. */
  lemma {:induction false} CommitsIffAllClear(px: Platform, w: World, now: Time, rows: seq<Staged>, seen: Time)
    requires Lawful(px) && Sql.Valid(px, w.rows)
    ensures Commits(px, w, now, rows) <==> AllClear(w.rows.flags, rows, seen)
    decreases |rows|
  {
    if rows != [] {
      var s, rest := rows[0], rows[1..];
      assert rows == [s] + rest;
      if CommitRow(px, w, now, s).1.None? {
        RowValid(px, w, now, s);
        RestClear(px, w, now, s, rest, seen);
        CommitsIffAllClear(px, CommitRow(px, w, now, s).0, now, rest, seen);
      } else if AllClear(w.rows.flags, rows, seen) {
        FirstClear(px, w, now, s, rest, seen);
      }
    }
  }

  /** Two loading orders that keep every flag's own rows in order: one commits exactly when the other does, and then
      to the same outcome. */
  lemma OrderWithinFlag(px: Platform, w: World, now: Time, a: seq<Staged>, b: seq<Staged>)
    requires Lawful(px) && Sql.Valid(px, w.rows)
    requires (forall s :: s in a <==> s in b) && forall id :: RowsFor(a, id) == RowsFor(b, id)
    ensures Commits(px, w, now, a) <==> Commits(px, w, now, b)
    ensures Commits(px, w, now, a) ==> SameOutcome(w.rows.flags.Keys, Committed(px, w, now, a), Committed(px, w, now, b))
  {
    CommitsIffAllClear(px, w, now, a, now);
    CommitsIffAllClear(px, w, now, b, now);
    if Commits(px, w, now, a) {
      forall id | id in w.rows.flags
        ensures id in Committed(px, w, now, a).rows.flags && id in Committed(px, w, now, b).rows.flags
        ensures Agree(Show(Committed(px, w, now, a).rows.flags[id]), Committed(px, w, now, b).rows.flags[id])
      {
        var p := Show(w.rows.flags[id]);
        FlagPreviewed(px, w, now, a, id, p, now);
        FlagPreviewed(px, w, now, b, id, p, now);
      }
    }
  }

  ghost predicate SameOutcome(ids: set<Uuid>, x: World, y: World) {
    forall id :: id in ids ==> id in x.rows.flags && id in y.rows.flags && Agree(Show(x.rows.flags[id]), y.rows.flags[id])
  }

  lemma {:induction false} RowsForIn(rows: seq<Staged>, id: Uuid, s: Staged)
    ensures s in RowsFor(rows, id) <==> s in rows && s.resourceId == Some(id)
    decreases |rows|
  {
    if rows != [] {
      RowsForIn(rows[1..], id, s);
      assert s in rows <==> s == rows[0] || s in rows[1..];
    }
  }

  lemma {:induction false} NoneFor(rows: seq<Staged>, id: Uuid)
    requires forall i :: 0 <= i < |rows| ==> rows[i].resourceId != Some(id)
    ensures RowsFor(rows, id) == []
    decreases |rows|
  {
    if rows != [] {
      NoneFor(rows[1..], id);
    }
  }

  lemma {:induction false} AtMostOne(rows: seq<Staged>, id: Uuid)
    requires Collapsed(rows) && forall i :: 0 <= i < |rows| ==> rows[i].fieldPath == ""
    ensures |RowsFor(rows, id)| <= 1
    decreases |rows|
  {
    if rows != [] {
      if rows[0].resourceId == Some(id) {
        NoneFor(rows[1..], id);
      } else {
        AtMostOne(rows[1..], id);
      }
    }
  }

  /** Rows staged without field paths, as the dashboard stages them, load in any order to the same effect: the unique
      index leaves one for each flag. */
  lemma WholeRowsCommute(px: Platform, w: World, now: Time, a: seq<Staged>, b: seq<Staged>)
    requires Lawful(px) && Sql.Valid(px, w.rows) && Collapsed(a) && Collapsed(b)
    requires (forall s :: s in a <==> s in b) && forall s :: s in a ==> s.fieldPath == ""
    ensures Commits(px, w, now, a) <==> Commits(px, w, now, b)
    ensures Commits(px, w, now, a) ==> SameOutcome(w.rows.flags.Keys, Committed(px, w, now, a), Committed(px, w, now, b))
  {
    forall id ensures RowsFor(a, id) == RowsFor(b, id) {
      AtMostOne(a, id);
      AtMostOne(b, id);
      if RowsFor(a, id) != [] { RowsForIn(a, id, RowsFor(a, id)[0]); RowsForIn(b, id, RowsFor(a, id)[0]); }
      if RowsFor(b, id) != [] { RowsForIn(a, id, RowsFor(b, id)[0]); RowsForIn(b, id, RowsFor(b, id)[0]); }
    }
    OrderWithinFlag(px, w, now, a, b);
  }

  // ---------------------------------------------------------------- two rows of one flag

  datatype Bits = Bits(enabled: bool, archived: bool, queued: bool)

  function BitsOf(f: Flag): Bits { Bits(f.enabled, f.archivedAt.Some?, f.deleteAfter.Some?) }

  /** None: the row fails, and changes nothing. */
  function Effect(b: Bits, a: StagedAction): Option<Bits> {
    match a
    case Toggle(on) => if on.None? || b.archived then None else Some(b.(enabled := on.value))
    case Archive => Some(b.(archived := true))
    case Restore => Some(b.(archived := false, queued := false))
    case Delete => None
  }

  /** The bits two rows leave, and whether both succeeded. */
  function TwoEffects(b: Bits, x: StagedAction, y: StagedAction): (Bits, bool) {
    match Effect(b, x)
    case None => (b, false)
    case Some(b1) =>
      match Effect(b1, y)
      case None => (b1, false)
      case Some(b2) => (b2, true)
  }

  lemma RowEffect(px: Platform, w: World, now: Time, s: Staged, id: Uuid)
    requires Lawful(px) && Sql.Valid(px, w.rows) && id in w.rows.flags && s.resourceId == Some(id)
    ensures var (w1, err) := CommitRow(px, w, now, s); var e := Effect(BitsOf(w.rows.flags[id]), s.action);
            && (err.None? <==> e.Some?) && id in w1.rows.flags
            && (e.Some? ==> BitsOf(w1.rows.flags[id]) == e.value) && (e.None? ==> w1.rows == w.rows)
  {
    RowSucceedsIff(px, w, now, s, id);
    if CommitRow(px, w, now, s).1.None? {
      RowAgrees(px, w, now, s, id, Show(w.rows.flags[id]), now);
    }
  }

  lemma TwoRowsEffect(px: Platform, w: World, now: Time, x: Staged, y: Staged, id: Uuid)
    requires Lawful(px) && Sql.Valid(px, w.rows) && id in w.rows.flags && x.resourceId == Some(id) == y.resourceId
    ensures var (w2, n) := CommitRows(px, w, now, [x, y]);
            id in w2.rows.flags && (BitsOf(w2.rows.flags[id]), n == 2) == TwoEffects(BitsOf(w.rows.flags[id]), x.action, y.action)
  {
    var step := CommitRow(px, w, now, x);
    RowEffect(px, w, now, x, id);
    CommitRowsFrom(px, w, now, x, [y], step);
    assert [x, y] == [x] + [y];
    if step.1.None? {
      RowValid(px, w, now, x);
      RowEffect(px, step.0, now, y, id);
      CommitRowsFrom(px, step.0, now, y, [], CommitRow(px, step.0, now, y));
      assert [y] == [y] + [];
    }
  }

  predicate Fails(a: StagedAction) { a.Delete? || (a.Toggle? && a.on.None?) }

  /** The row shows nothing, or fails, on a flag with these bits. */
  predicate Idle(b: Bits, a: StagedAction) {
    match a
    case Toggle(on) => b.archived || on == Some(b.enabled)
    case Archive => b.archived
    case Restore => !b.archived && !b.queued
    case Delete => true
  }

  /** When the order of two rows on a flag is immaterial: by their actions and the flag's archived bit. */
  predicate Commute(b: Bits, x: StagedAction, y: StagedAction) {
    if Fails(x) then Fails(y) || Idle(b, y)
    else if Fails(y) then Idle(b, x)
    else
      match (x, y)
      case (Toggle(p), Toggle(q)) => b.archived || p == q
      case (Toggle(_), Archive) => b.archived
      case (Archive, Toggle(_)) => b.archived
      case (Toggle(_), Restore) => !b.archived
      case (Restore, Toggle(_)) => !b.archived
      case (Archive, Archive) => true
      case (Restore, Restore) => true
      case _ => false
  }

  lemma CommuteIff(b: Bits, x: StagedAction, y: StagedAction)
    ensures Commute(b, x, y) <==> TwoEffects(b, x, y) == TwoEffects(b, y, x)
  {
  }

  /** Two rows of one flag, which only different field paths let coexist, have the same outcome in both loading orders
      exactly when their actions commute on the flag as it is. */
  lemma TwoRowsCommuteIff(px: Platform, w: World, now: Time, x: Staged, y: Staged, id: Uuid)
    requires Lawful(px) && Sql.Valid(px, w.rows) && id in w.rows.flags
    requires x.resourceId == Some(id) == y.resourceId && Collapsed([x, y])
    ensures var u, v := Committed(px, w, now, [x, y]).rows.flags, Committed(px, w, now, [y, x]).rows.flags;
            && id in u && id in v
            && ((Commits(px, w, now, [x, y]) <==> Commits(px, w, now, [y, x])) && Agree(Show(u[id]), v[id])
                <==> Commute(BitsOf(w.rows.flags[id]), x.action, y.action))
  {
    TwoRowsEffect(px, w, now, x, y, id);
    TwoRowsEffect(px, w, now, y, x, id);
    CommuteIff(BitsOf(w.rows.flags[id]), x.action, y.action);
  }

  /** An archive and a restore of an active flag, staged under two field paths: both orders commit, and loaded the other
      way round they leave archived a flag whose preview was active. */
  lemma LoadingOrderMatters(px: Platform, w: World, now: Time, id: Uuid, a: Uuid, b: Uuid, path: string)
    requires Lawful(px) && Sql.Valid(px, w.rows) && id in w.rows.flags && !w.rows.flags[id].IsArchived() && path != ""
    ensures var x, y := Staged(a, Some(id), "", Archive), Staged(b, Some(id), path, Restore);
            && Collapsed([x, y]) && Commits(px, w, now, [x, y]) && Commits(px, w, now, [y, x])
            && (var shown := Patched(Show(w.rows.flags[id]), RowsFor([x, y], id), now);
                shown.Some? && !shown.value.flag.IsArchived())
            && (var after := Committed(px, w, now, [y, x]).rows.flags; id in after && after[id].IsArchived())
  {
    var x, y := Staged(a, Some(id), "", Archive), Staged(b, Some(id), path, Restore);
    TwoRowsEffect(px, w, now, x, y, id);
    TwoRowsEffect(px, w, now, y, x, id);
    FlagPreviewed(px, w, now, [x, y], id, Show(w.rows.flags[id]), now);
  }
}
