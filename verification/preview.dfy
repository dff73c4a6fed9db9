/** Staged edits of flags: previewed by flagApplyFunc (internal/flags/handler.go) through the overlay of
    internal/staging/overlay.go, and carried out by the handlers of internal/flags/staging_commit.go under
    internal/staging/service.go. */
module Preview {
  import opened Model
  import opened Service
  import Sql = Store

  datatype StagedAction =
    | Toggle(on: Option<bool>)      // None: the payload does not decode
    | Archive
    | Restore
    | Delete

  /** A row of staged_changes of one user, with resource type "flag"; an absent field path is the empty one. */
  datatype Staged = Staged(id: Uuid, resourceId: Option<Uuid>, fieldPath: string, action: StagedAction)

  predicate SameTarget(a: Staged, b: Staged) { a.resourceId == b.resourceId && a.fieldPath == b.fieldPath }

  /** The unique index of the table: one row for each flag and field path. */
  ghost predicate Collapsed(rows: seq<Staged>) { forall i, j :: 0 <= i < j < |rows| ==> !SameTarget(rows[i], rows[j]) }

  /** Upsert: a row of the same target takes over the action and keeps its id and its place. */
  function Upserted(rows: seq<Staged>, s: Staged): seq<Staged>
    decreases |rows|
  {
    if rows == [] then [s]
    else if SameTarget(rows[0], s) then [rows[0].(action := s.action)] + rows[1..]
    else [rows[0]] + Upserted(rows[1..], s)
  }

  lemma {:induction false} UpsertCollapses(rows: seq<Staged>, s: Staged)
    requires Collapsed(rows)
    ensures Collapsed(Upserted(rows, s))
    ensures forall i :: 0 <= i < |Upserted(rows, s)| ==>
              SameTarget(Upserted(rows, s)[i], s) || exists j :: 0 <= j < |rows| && Upserted(rows, s)[i] == rows[j]
    decreases |rows|
  {
    if rows != [] && !SameTarget(rows[0], s) {
      var rest := Upserted(rows[1..], s);
      UpsertCollapses(rows[1..], s);
      forall i | 0 <= i < |rest| ensures !SameTarget(rows[0], rest[i]) {
        if !SameTarget(rest[i], s) {
          var j :| 0 <= j < |rows[1..]| && rest[i] == rows[1..][j];
          assert rows[1..][j] == rows[j + 1];
        }
      }
    }
  }

  lemma {:induction false} UpsertAt(rows: seq<Staged>, s: Staged, k: nat)
    requires k <= |rows| && (forall i :: 0 <= i < k ==> !SameTarget(rows[i], s)) && (k < |rows| ==> SameTarget(rows[k], s))
    ensures Upserted(rows, s) == if k < |rows| then rows[k := rows[k].(action := s.action)] else rows + [s]
    decreases |rows|
  {
    if k > 0 {
      UpsertAt(rows[1..], s, k - 1);
    } else if rows != [] {
      assert rows[0 := rows[0].(action := s.action)] == [rows[0].(action := s.action)] + rows[1..];
    }
  }

  /** A flag as the list endpoint shows it: the archived member is a field of its own. */
  datatype Shown = Shown(flag: Flag, archived: bool)

  function Show(f: Flag): Shown { Shown(f, f.IsArchived()) }

  // ---------------------------------------------------------------- preview

  /** flagApplyFunc; None: the row is dropped from the list. */
  function Applied(p: Shown, a: StagedAction, now: Time): Option<Shown> {
    match a
    case Toggle(on) => Some(if on.Some? then p.(flag := p.flag.(enabled := on.value)) else p)
    case Archive => Some(p.(flag := p.flag.(archivedAt := Some(now))))
    case Restore => Some(p.(flag := p.flag.(archivedAt := None, deleteAfter := None)))
    case Delete => None
  }

  function Patched(p: Shown, rows: seq<Staged>, now: Time): Option<Shown>
    decreases |rows|
  {
    if rows == [] then Some(p)
    else
      var next := Applied(p, rows[0].action, now);
      if next.None? then None else Patched(next.value, rows[1..], now)
  }

  /** The rows that name one flag, in their order. */
  function RowsFor(staged: seq<Staged>, id: Uuid): seq<Staged>
    decreases |staged|
  {
    if staged == [] then []
    else (if staged[0].resourceId == Some(id) then [staged[0]] else []) + RowsFor(staged[1..], id)
  }

  function Overlaid(page: seq<Shown>, staged: seq<Staged>, now: Time): seq<Shown>
    decreases |page|
  {
    if page == [] then []
    else
      var first := Patched(page[0], RowsFor(staged, page[0].flag.id), now);
      (if first.Some? then [first.value] else []) + Overlaid(page[1..], staged, now)
  }

  lemma {:induction false} RowsForOneMore(staged: seq<Staged>, s: Staged, id: Uuid)
    ensures RowsFor(staged + [s], id) == RowsFor(staged, id) + if s.resourceId == Some(id) then [s] else []
    decreases |staged|
  {
    if staged != [] {
      assert (staged + [s])[1..] == staged[1..] + [s];
      RowsForOneMore(staged[1..], s, id);
    }
  }

  lemma {:induction false} OverlaidOneMore(page: seq<Shown>, p: Shown, staged: seq<Staged>, now: Time)
    ensures var last := Patched(p, RowsFor(staged, p.flag.id), now);
            Overlaid(page + [p], staged, now) == Overlaid(page, staged, now) + if last.Some? then [last.value] else []
    decreases |page|
  {
    if page != [] {
      assert (page + [p])[1..] == page[1..] + [p];
      OverlaidOneMore(page[1..], p, staged, now);
    } else {
      assert page + [p] == [p] && Overlaid([p], staged, now)
             == (var last := Patched(p, RowsFor(staged, p.flag.id), now); if last.Some? then [last.value] else []) + Overlaid([p][1..], staged, now);
    }
  }

  function Bucket(buckets: map<Uuid, seq<Staged>>, id: Uuid): seq<Staged> { if id in buckets then buckets[id] else [] }

  /** The staged rows by resource id. */
  method Buckets(staged: seq<Staged>) returns (buckets: map<Uuid, seq<Staged>>)
    ensures forall id :: Bucket(buckets, id) == RowsFor(staged, id)
  {
    buckets := map[];
    for i := 0 to |staged|
      invariant forall id :: Bucket(buckets, id) == RowsFor(staged[..i], id)
    {
      var s := staged[i];
      forall id: Uuid ensures RowsFor(staged[..i + 1], id) == RowsFor(staged[..i], id) + if s.resourceId == Some(id) then [s] else [] {
        RowsForOneMore(staged[..i], s, id);
        assert staged[..i + 1] == staged[..i] + [s];
      }
      if s.resourceId.Some? {
        var id := s.resourceId.value;
        buckets := buckets[id := Bucket(buckets, id) + [s]];
      }
    }
    assert staged[..|staged|] == staged;
  }

  /** OverlayList over one page of flags. */
  method OverlayList(page: seq<Shown>, staged: seq<Staged>, now: Time) returns (out: seq<Shown>)
    ensures out == Overlaid(page, staged, now)
  {
    var buckets := Buckets(staged);
    out := [];
    for i := 0 to |page|
      invariant out == Overlaid(page[..i], staged, now)
    {
      OverlaidOneMore(page[..i], page[i], staged, now);
      assert page[..i + 1] == page[..i] + [page[i]];
      var rows := Bucket(buckets, page[i].flag.id);
      var patched, dropped := page[i], false;
      var k := 0;
      while k < |rows| && !dropped
        invariant 0 <= k <= |rows|
        invariant Patched(page[i], rows, now) == if dropped then None else Patched(patched, rows[k..], now)
        decreases |rows| - k + if dropped then 0 else 1
      {
        var next := Applied(patched, rows[k].action, now);
        assert rows[k..][0] == rows[k] && rows[k..][1..] == rows[k + 1..];
        if next.None? {
          dropped := true;
        } else {
          patched, k := next.value, k + 1;
        }
      }
      if !dropped {
        out := out + [patched];
      }
    }
    assert page[..|page|] == page;
  }

  // ---------------------------------------------------------------- commit

  /** The service call of a staged row; deletions have no commit handler. */
  function StagedCall(s: Staged): Result<Write> {
    if s.action.Delete? then Err(NotRevertible)
    else if s.resourceId.None? then Err(Malformed)
    else
      var id := s.resourceId.value;
      match s.action
      case Toggle(on) => if on.None? then Err(Malformed) else Ok(Toggling(id, on.value))
      case Archive => Ok(OnDates(ArchiveFlag(id)))
      case _ => Ok(OnDates(RestoreFlag(id)))
  }

  /** Dispatch of one row. The handlers go through the service, not through the transaction they are handed. */
  function CommitRow(px: Platform, w: World, now: Time, s: Staged): (World, Option<Error>) {
    match StagedCall(s)
    case Err(e) => (w, Some(e))
    case Ok(call) => (Serve(px, w, now, call), Reply(px, w, now, call))
  }

  /** The rows in the order they were loaded, up to the first failure: the new state, and how many succeeded. */
  function CommitRows(px: Platform, w: World, now: Time, rows: seq<Staged>): (World, nat)
    decreases |rows|
  {
    if rows == [] then (w, 0)
    else
      var (w1, err) := CommitRow(px, w, now, rows[0]);
      if err.Some? then (w1, 0)
      else
        var (w2, n) := CommitRows(px, w1, now, rows[1..]);
        (w2, n + 1)
  }

  predicate Commits(px: Platform, w: World, now: Time, rows: seq<Staged>) { CommitRows(px, w, now, rows).1 == |rows| }

  function Committed(px: Platform, w: World, now: Time, rows: seq<Staged>): World { CommitRows(px, w, now, rows).0 }

  /** Committing all rows from w0 comes down to committing those from i on from w. */
  ghost predicate Resumes(px: Platform, w0: World, w: World, now: Time, rows: seq<Staged>, i: nat) {
    i <= |rows| && var (end, n) := CommitRows(px, w, now, rows[i..]); CommitRows(px, w0, now, rows) == (end, i + n)
  }

  /** The first row decides how to go on; step is what committing it gives. */
  lemma CommitRowsFrom(px: Platform, w: World, now: Time, s: Staged, rest: seq<Staged>, step: (World, Option<Error>))
    requires step == CommitRow(px, w, now, s)
    ensures var (end, n) := CommitRows(px, step.0, now, rest);
            CommitRows(px, w, now, [s] + rest) == if step.1.Some? then (step.0, 0) else (end, n + 1)
  {
  }

  lemma ResumeRow(px: Platform, w0: World, w: World, now: Time, rows: seq<Staged>, i: nat, step: (World, Option<Error>))
    requires i < |rows| && Resumes(px, w0, w, now, rows, i)
    requires var (end, n) := CommitRows(px, step.0, now, rows[i + 1..]);
             CommitRows(px, w, now, rows[i..]) == if step.1.Some? then (step.0, 0) else (end, n + 1)
    ensures if step.1.Some? then CommitRows(px, w0, now, rows) == (step.0, i) else Resumes(px, w0, step.0, now, rows, i + 1)
  {
  }

  class StagingService {
    const flags: FlagService
    var staged: seq<Staged>

    constructor (flags: FlagService)
      ensures this.flags == flags && staged == []
    {
      this.flags, staged := flags, [];
    }

    method Stage(row: Staged)
      requires Collapsed(staged)
      modifies this`staged
      ensures staged == Upserted(old(staged), row) && Collapsed(staged)
    {
      var k := 0;
      while k < |staged| && !SameTarget(staged[k], row)
        invariant 0 <= k <= |staged| && forall i :: 0 <= i < k ==> !SameTarget(staged[i], row)
      {
        k := k + 1;
      }
      UpsertCollapses(staged, row);
      UpsertAt(staged, row, k);
      if k < |staged| {
        staged := staged[k := staged[k].(action := row.action)];
      } else {
        staged := staged + [row];
      }
    }

    /** Commit of the rows GetByIDs loaded. Only a complete batch leaves the staging table; what a failing batch
        had done to the flags by then stays done. */
    method Commit(rows: seq<Staged>, now: Time) returns (committed: seq<Uuid>, failed: Option<Uuid>)
      modifies this`staged, flags.repo, flags.cache
      ensures flags.State() == Committed(flags.px, old(flags.State()), now, rows)
      ensures failed.None? <==> Commits(flags.px, old(flags.State()), now, rows)
      ensures |committed| == CommitRows(flags.px, old(flags.State()), now, rows).1
      ensures forall i :: 0 <= i < |committed| ==> i < |rows| && committed[i] == rows[i].id
      ensures failed.Some? ==> |committed| < |rows| && failed == Some(rows[|committed|].id) && staged == old(staged)
      ensures failed.None? ==> staged == Unstaged(old(staged), committed)
    {
      committed, failed := [], None;
      var i := 0;
      while i < |rows|
        invariant 0 <= i <= |rows| && failed.None? && |committed| == i && staged == old(staged)
        invariant forall k :: 0 <= k < i ==> committed[k] == rows[k].id
        invariant Resumes(flags.px, old(flags.State()), flags.State(), now, rows, i)
      {
        ghost var step := CommitRow(flags.px, flags.State(), now, rows[i]);
        CommitRowsFrom(flags.px, flags.State(), now, rows[i], rows[i + 1..], step);
        assert rows[i..] == [rows[i]] + rows[i + 1..];
        ResumeRow(flags.px, old(flags.State()), flags.State(), now, rows, i, step);
        var call := StagedCall(rows[i]);
        if call.Err? {
          failed := Some(rows[i].id);
          return;
        }
        var err := flags.Mutate(call.value, now);
        if err.Some? {
          failed := Some(rows[i].id);
          return;
        }
        committed := committed + [rows[i].id];
        i := i + 1;
      }
      staged := Unstaged(staged, committed);
    }
  }

  function Unstaged(staged: seq<Staged>, ids: seq<Uuid>): seq<Staged>
    decreases |staged|
  {
    if staged == [] then [] else (if staged[0].id in ids then [] else [staged[0]]) + Unstaged(staged[1..], ids)
  }

  // ---------------------------------------------------------------- preview against commit

  /** What the preview promises of a flag. */
  predicate Agree(p: Shown, f: Flag) {
    p.flag.enabled == f.enabled && p.flag.archivedAt.Some? == f.archivedAt.Some? && p.flag.deleteAfter.Some? == f.deleteAfter.Some?
  }

  /** A successful write to one flag row, if it is there. */
  ghost predicate Touches(before: map<Uuid, Flag>, after: map<Uuid, Flag>, id: Uuid) {
    if id in before then id in after && after == before[id := after[id]] && after[id].id == id else after == before
  }

  lemma ToggleTouches(px: Platform, w: World, now: Time, id: Uuid, on: bool)
    requires Sql.Keyed(w.rows.flags) && Reply(px, w, now, Toggling(id, on)).None?
    ensures var after := Serve(px, w, now, Toggling(id, on)).rows.flags; var before := w.rows.flags;
            && Touches(before, after, id) && id in before && !before[id].IsArchived()
            && after[id].enabled == on && after[id].archivedAt == before[id].archivedAt && after[id].deleteAfter == before[id].deleteAfter
  {
  }

  lemma ArchiveTouches(px: Platform, w: World, now: Time, id: Uuid)
    requires Sql.Keyed(w.rows.flags)
    ensures var after := Serve(px, w, now, OnDates(ArchiveFlag(id))).rows.flags; var before := w.rows.flags;
            && Touches(before, after, id) && Reply(px, w, now, OnDates(ArchiveFlag(id))).None?
            && (id in before ==> after[id] == before[id].(archivedAt := after[id].archivedAt) && after[id].IsArchived())
  {
    assert id in w.rows.flags ==> w.rows.flags[id := w.rows.flags[id]] == w.rows.flags;
  }

  lemma RestoreTouches(px: Platform, w: World, now: Time, id: Uuid)
    requires Sql.Keyed(w.rows.flags) && Reply(px, w, now, OnDates(RestoreFlag(id))).None?
    ensures var after := Serve(px, w, now, OnDates(RestoreFlag(id))).rows.flags; var before := w.rows.flags;
            && Touches(before, after, id) && id in before && after[id] == before[id].(archivedAt := None, deleteAfter := None)
  {
  }

  /** One committed row moves the flag it names as the preview does, and leaves the others alone. */
  lemma RowAgrees(px: Platform, w: World, now: Time, s: Staged, id: Uuid, p: Shown, seen: Time)
    requires CommitRow(px, w, now, s).1.None? && Sql.Keyed(w.rows.flags)
    requires id in w.rows.flags && Agree(p, w.rows.flags[id])
    ensures var flags := CommitRow(px, w, now, s).0.rows.flags;
            && Sql.Keyed(flags) && id in flags
            && if s.resourceId == Some(id) then
                 Applied(p, s.action, seen).Some? && Agree(Applied(p, s.action, seen).value, flags[id])
               else flags[id] == w.rows.flags[id]
  {
    var r := s.resourceId.value;
    match s.action
    case Toggle(on) => ToggleTouches(px, w, now, r, on.value);
    case Archive => ArchiveTouches(px, w, now, r);
    case Restore => RestoreTouches(px, w, now, r);
  }

  /** Over rows that name any number of flags: the preview of each one is what committing all rows makes of it. */
  lemma {:induction false} FlagPreviewed(px: Platform, w: World, now: Time, rows: seq<Staged>, id: Uuid, p: Shown, seen: Time)
    requires Sql.Keyed(w.rows.flags) && Commits(px, w, now, rows)
    requires id in w.rows.flags && Agree(p, w.rows.flags[id])
    ensures var after := Committed(px, w, now, rows).rows.flags; var q := Patched(p, RowsFor(rows, id), seen);
            id in after && q.Some? && Agree(q.value, after[id]) && q.value.archived == p.archived
    decreases |rows|
  {
    if rows != [] {
      var s := rows[0];
      RowAgrees(px, w, now, s, id, p, seen);
      var q := if s.resourceId == Some(id) then Applied(p, s.action, seen).value else p;
      assert RowsFor(rows, id)[if s.resourceId == Some(id) then 1 else 0..] == RowsFor(rows[1..], id);
      FlagPreviewed(px, CommitRow(px, w, now, s).0, now, rows[1..], id, q, seen);
    }
  }

  /** The flags of a page as they are shown without staged rows. */
  function Shows(page: seq<Flag>): seq<Shown> { seq(|page|, i requires 0 <= i < |page| => Show(page[i])) }

  lemma OverlaidFrom(page: seq<Flag>, rows: seq<Staged>, seen: Time)
    requires page != []
    ensures var first := Patched(Show(page[0]), RowsFor(rows, page[0].id), seen);
            Overlaid(Shows(page), rows, seen) == (if first.Some? then [first.value] else []) + Overlaid(Shows(page[1..]), rows, seen)
  {
    assert Shows(page)[1..] == Shows(page[1..]);
  }

  /** The previewed page is, flag by flag, the page after a successful commit in the same order: enabled, archived or
      not, queued or not. Its archived member, which no staged action touches, is the one from before. */
  lemma {:induction false} PagePreviewed(px: Platform, w: World, now: Time, rows: seq<Staged>, page: seq<Flag>, seen: Time)
    requires Sql.Keyed(w.rows.flags) && Commits(px, w, now, rows)
    requires forall f :: f in page ==> f.id in w.rows.flags && w.rows.flags[f.id] == f
    ensures var after := Committed(px, w, now, rows).rows.flags;
            var shown := Overlaid(Shows(page), rows, seen);
            && |shown| == |page|
            && forall i :: 0 <= i < |page| ==>
                 page[i].id in after && Agree(shown[i], after[page[i].id])
                 && (shown[i].archived == after[page[i].id].IsArchived() <==> page[i].IsArchived() == after[page[i].id].IsArchived())
    decreases |page|
  {
    if page != [] {
      FlagPreviewed(px, w, now, rows, page[0].id, Show(page[0]), seen);
      PagePreviewed(px, w, now, rows, page[1..], seen);
      OverlaidFrom(page, rows, seen);
    }
  }

  // ---------------------------------------------------------------- when a batch commits

  /** What the preview alone can tell: no row is undecodable or deletes, and none toggles a row shown archived. */
  predicate Clear(p: Shown, rows: seq<Staged>, seen: Time)
    decreases |rows|
  {
    rows == [] ||
    (&& StagedCall(rows[0]).Ok?
     && (rows[0].action.Toggle? ==> !p.flag.IsArchived())
     && Clear(Applied(p, rows[0].action, seen).value, rows[1..], seen))
  }

  lemma RowSucceedsIff(px: Platform, w: World, now: Time, s: Staged, id: Uuid)
    requires Lawful(px) && Sql.Valid(px, w.rows) && id in w.rows.flags && s.resourceId == Some(id)
    ensures CommitRow(px, w, now, s).1.None? <==>
              StagedCall(s).Ok? && (s.action.Toggle? ==> !w.rows.flags[id].IsArchived())
  {
  }

  /** A failing batch is not rolled back: it leaves exactly what its succeeding rows, committed alone, would leave. */
  lemma {:induction false} FailedBatchKeepsPrefix(px: Platform, w: World, now: Time, rows: seq<Staged>)
    ensures var (w1, n) := CommitRows(px, w, now, rows);
            && n <= |rows|
            && Commits(px, w, now, rows[..n]) && Committed(px, w, now, rows[..n]) == w1
            && (n < |rows| ==> CommitRow(px, w1, now, rows[n]).1.Some?)
    decreases |rows|
  {
    if rows != [] {
      var (w1, err) := CommitRow(px, w, now, rows[0]);
      if err.None? {
        FailedBatchKeepsPrefix(px, w1, now, rows[1..]);
        var n := CommitRows(px, w1, now, rows[1..]).1;
        assert rows[..n + 1][1..] == rows[1..][..n];
      }
    }
  }
}
