/** Any number of schedulers listing, marking and emitting in any interleaving with each other, with crashes and with
    every other call of the service. */
module Racing {
  import opened Model
  import opened Service
  import opened Runs
  import Sql = Store

  /** One setting of a flag's scheduled removal: every ScheduleRemoval or CancelScheduledRemoval begins a new epoch. */
  datatype Token = Token(id: Uuid, epoch: nat)

  /** A flag as a tick listed it. */
  datatype Listed = Listed(token: Token, row: Flag)

  datatype Event = Event(token: Token, listedAt: Time, row: Flag)

  datatype Phase =
    | Idle
    | Working(listedAt: Time, page: seq<Listed>, done: nat)
    | Emitting(listedAt: Time, page: seq<Listed>, done: nat, token: Token)   // page[done] is marked, its event not yet out

  datatype Shared = Shared(
    rows: Sql.Db,
    epochs: map<Uuid, nat>,          // one entry for every flag id ever used
    phases: map<nat, Phase>,         // by scheduler
    sent: seq<Event>,
    lost: set<Token>,                // marked, but the scheduler crashed or failed to publish before the event was out
    skipped: set<Token>,             // listed, but the mark failed for reasons of its own
    before: set<Token>)              // marked before the run

  datatype Move =
    | List(s: nat, now: Time, ids: seq<Uuid>)
    | Mark(s: nat)
    | Skip(s: nat)                   // the mark does not reach the database
    | Emit(s: nat)
    | Misfire(s: nat)                // publishing fails, which is logged; also a mark that went through unknown to its caller
    | Finish(s: nat)
    | Crash(s: nat)
    | Call(call: Write, now: Time)

  function PhaseOf(sh: Shared, s: nat): Phase { if s in sh.phases then sh.phases[s] else Idle }

  function EpochOf(sh: Shared, id: Uuid): nat { if id in sh.epochs then sh.epochs[id] else 0 }

  predicate Reschedules(call: Write) { call.OnLife? && (call.l.ScheduleRemoval? || call.l.CancelScheduledRemoval?) }

  predicate Creates(call: Write) { call.OnFlag? && call.f.CreateFlag? }

  predicate Marks(call: Write) { call.OnDates? && call.d.MarkFlagRemovalFired? }

  /** Schedulers follow their program; ids of new flags are new; nobody else marks. */
  ghost predicate Enabled(sh: Shared, m: Move) {
    match m
    case List(s, now, ids) => PhaseOf(sh, s).Idle? && Sql.DuePage(sh.rows, now, ids)
    case Mark(s) => PhaseOf(sh, s).Working? && PhaseOf(sh, s).done < |PhaseOf(sh, s).page|
    case Skip(s) => PhaseOf(sh, s).Working? && PhaseOf(sh, s).done < |PhaseOf(sh, s).page|
    case Misfire(s) => PhaseOf(sh, s).Emitting? && PhaseOf(sh, s).done < |PhaseOf(sh, s).page|
    case Emit(s) => PhaseOf(sh, s).Emitting? && PhaseOf(sh, s).done < |PhaseOf(sh, s).page|
    case Finish(s) => PhaseOf(sh, s).Working? && PhaseOf(sh, s).done == |PhaseOf(sh, s).page|
    case Crash(s) => true
    case Call(call, _) => !Marks(call) && (Creates(call) ==> call.f.flag.id !in sh.epochs)
  }

  function ListedAs(sh: Shared, ids: seq<Uuid>): seq<Listed>
    requires forall i :: 0 <= i < |ids| ==> ids[i] in sh.rows.flags
  {
    seq(|ids|, i requires 0 <= i < |ids| => Listed(Token(ids[i], EpochOf(sh, ids[i])), sh.rows.flags[ids[i]]))
  }

  function EpochsAfter(sh: Shared, call: Write): map<Uuid, nat> {
    if Reschedules(call) then sh.epochs[call.l.id := EpochOf(sh, call.l.id) + 1]
    else if Creates(call) then sh.epochs[call.f.flag.id := 0]
    else sh.epochs
  }

  ghost function After(px: Platform, sh: Shared, m: Move): Shared
    requires Enabled(sh, m)
  {
    match m
    case List(s, now, ids) => sh.(phases := sh.phases[s := Working(now, ListedAs(sh, ids), 0)])
    case Mark(s) =>
      var p := PhaseOf(sh, s);
      var id := p.page[p.done].token.id;
      var r := Sql.MarkRemovalFired(sh.rows, id, p.listedAt);
      if r.Ok?
      then sh.(rows := r.value, phases := sh.phases[s := Emitting(p.listedAt, p.page, p.done, Token(id, EpochOf(sh, id)))])
      else sh.(phases := sh.phases[s := Working(p.listedAt, p.page, p.done + 1)])
    case Emit(s) =>
      var p := PhaseOf(sh, s);
      sh.(sent := sh.sent + [Event(p.token, p.listedAt, p.page[p.done].row)],
          phases := sh.phases[s := Working(p.listedAt, p.page, p.done + 1)])
    case Skip(s) =>
      var p := PhaseOf(sh, s);
      sh.(skipped := sh.skipped + {p.page[p.done].token}, phases := sh.phases[s := Working(p.listedAt, p.page, p.done + 1)])
    case Misfire(s) =>
      var p := PhaseOf(sh, s);
      sh.(lost := sh.lost + {p.token}, phases := sh.phases[s := Working(p.listedAt, p.page, p.done + 1)])
    case Finish(s) => sh.(phases := sh.phases[s := Idle])
    case Crash(s) =>
      var p := PhaseOf(sh, s);
      sh.(phases := sh.phases[s := Idle], lost := if p.Emitting? then sh.lost + {p.token} else sh.lost)
    case Call(call, now) =>
      var r := Statement(px, sh.rows, now, call);
      if r.Ok? then sh.(rows := r.value, epochs := EpochsAfter(sh, call)) else sh
  }

  // ---------------------------------------------------------------- the invariant

  predicate Pending(sh: Shared, s: nat, t: Token) { PhaseOf(sh, s).Emitting? && PhaseOf(sh, s).token == t }

  /** The event of t is out, about to go out, lost, or from before the run. */
  ghost predicate Accounted(sh: Shared, t: Token) {
    || (exists i :: 0 <= i < |sh.sent| && sh.sent[i].token == t)
    || t in sh.lost
    || t in sh.before
    || exists s: nat :: Pending(sh, s, t)
  }

  /** No event is out twice, or out and still pending, or pending twice. */
  ghost predicate Once(sh: Shared) {
    && (forall i, j :: 0 <= i < j < |sh.sent| ==> sh.sent[i].token != sh.sent[j].token)
    && (forall i, s: nat :: 0 <= i < |sh.sent| ==> !Pending(sh, s, sh.sent[i].token))
    && (forall i :: 0 <= i < |sh.sent| ==> sh.sent[i].token !in sh.lost && sh.sent[i].token !in sh.before)
    && (forall s1: nat, s2: nat, t :: Pending(sh, s1, t) && Pending(sh, s2, t) ==> s1 == s2)
    && (forall s: nat, t :: Pending(sh, s, t) ==> t !in sh.lost && t !in sh.before)
  }

  ghost predicate MarkedNow(sh: Shared, id: Uuid) { id in sh.rows.flags && sh.rows.flags[id].life.firedAt.Some? }

  /** The marker on a row stands for the event of its present epoch. */
  ghost predicate MarkersTell(sh: Shared) {
    && (forall t :: Accounted(sh, t) ==> t.id in sh.epochs && t.epoch <= sh.epochs[t.id])
    && (forall t | Accounted(sh, t) && t.id in sh.rows.flags && t.epoch == EpochOf(sh, t.id) :: MarkedNow(sh, t.id))
    && (forall id :: MarkedNow(sh, id) ==> Accounted(sh, Token(id, EpochOf(sh, id))))
  }

  /** The flag is gone, or an event of the listed setting or a later one is accounted for. */
  ghost predicate Settled(sh: Shared, t: Token) {
    t.id !in sh.rows.flags || exists e: nat :: t.epoch <= e && Accounted(sh, Token(t.id, e))
  }

  ghost predicate ListedOk(sh: Shared, l: Listed, listedAt: Time) {
    && l.token.id in sh.epochs && l.token.epoch <= sh.epochs[l.token.id] && l.row.id == l.token.id && Sql.Due(l.row, listedAt)
    && forall t :: t in sh.before && t.id == l.token.id ==> t.epoch < l.token.epoch
  }

  ghost predicate PhaseOk(sh: Shared, p: Phase) {
    match p
    case Idle => true
    case Working(at, page, done) =>
      && done <= |page|
      && (forall i :: 0 <= i < |page| ==> ListedOk(sh, page[i], at))
      && (forall i :: 0 <= i < done ==> Settled(sh, page[i].token) || page[i].token in sh.skipped)
    case Emitting(at, page, done, token) =>
      && done < |page|
      && (forall i :: 0 <= i < |page| ==> ListedOk(sh, page[i], at))
      && (forall i :: 0 <= i < done ==> Settled(sh, page[i].token) || page[i].token in sh.skipped)
      && token.id == page[done].token.id && page[done].token.epoch <= token.epoch
  }

  ghost predicate EventsOk(sh: Shared) {
    forall i :: 0 <= i < |sh.sent| ==>
      sh.sent[i].row.id == sh.sent[i].token.id && Sql.Due(sh.sent[i].row, sh.sent[i].listedAt)
  }

  ghost predicate Inv(px: Platform, sh: Shared) {
    && Sql.Valid(px, sh.rows) && sh.rows.flags.Keys <= sh.epochs.Keys
    && Once(sh) && MarkersTell(sh) && EventsOk(sh)
    && (forall s: nat :: PhaseOk(sh, PhaseOf(sh, s)))
  }

  // ---------------------------------------------------------------- every move keeps it

  /** Settled listings stay settled while events accumulate and flags only disappear. */
  ghost predicate Onward(sh: Shared, sh1: Shared) {
    && (forall t :: Accounted(sh, t) ==> Accounted(sh1, t))
    && sh1.before == sh.before && sh.skipped <= sh1.skipped
    && (forall id :: id in sh.epochs ==> id in sh1.epochs && sh.epochs[id] <= sh1.epochs[id])
    && (forall id :: id in sh1.rows.flags && id in sh.epochs ==> id in sh.rows.flags)
  }

  lemma PhaseOnward(sh: Shared, sh1: Shared, p: Phase)
    requires Onward(sh, sh1) && PhaseOk(sh, p)
    ensures PhaseOk(sh1, p)
  {
  }

  /** A move of scheduler s that leaves the rows alone. */
  ghost predicate OnlyPhase(sh: Shared, sh1: Shared, s: nat) {
    && sh1.rows == sh.rows && sh1.epochs == sh.epochs && sh1.before == sh.before && sh.skipped <= sh1.skipped
    && forall o: nat :: o != s ==> PhaseOf(sh1, o) == PhaseOf(sh, o)
  }

  lemma SameAccounts(px: Platform, sh: Shared, sh1: Shared, s: nat)
    requires Inv(px, sh) && OnlyPhase(sh, sh1, s)
    requires forall t :: Accounted(sh1, t) <==> Accounted(sh, t)
    requires Once(sh1) && EventsOk(sh1) && PhaseOk(sh1, PhaseOf(sh1, s))
    ensures Inv(px, sh1)
  {
    assert Onward(sh, sh1);
    forall o: nat ensures PhaseOk(sh1, PhaseOf(sh1, o)) {
      if o != s { PhaseOnward(sh, sh1, PhaseOf(sh, o)); }
    }
    assert MarkersTell(sh1) by {
      forall t | Accounted(sh1, t) && t.id in sh1.rows.flags && t.epoch == EpochOf(sh1, t.id) ensures MarkedNow(sh1, t.id) {
        assert Accounted(sh, t) && MarkedNow(sh, t.id);
      }
      forall id | MarkedNow(sh1, id) ensures Accounted(sh1, Token(id, EpochOf(sh1, id))) {
        assert MarkedNow(sh, id);
      }
    }
  }

  /** A move into Working or Idle from a phase with nothing pending. */
  lemma QuietMove(px: Platform, sh: Shared, sh1: Shared, s: nat)
    requires Inv(px, sh) && OnlyPhase(sh, sh1, s) && sh1.sent == sh.sent && sh1.lost == sh.lost
    requires !PhaseOf(sh, s).Emitting? && !PhaseOf(sh1, s).Emitting?
    requires PhaseOk(sh, PhaseOf(sh1, s))
    ensures Inv(px, sh1)
  {
    forall o: nat, t ensures Pending(sh1, o, t) <==> Pending(sh, o, t) {}
    assert forall t :: Accounted(sh1, t) <==> Accounted(sh, t);
    assert Once(sh1);
    PhaseOnward(sh, sh1, PhaseOf(sh1, s));
    SameAccounts(px, sh, sh1, s);
  }

  lemma ListKeeps(px: Platform, sh: Shared, m: Move)
    requires Inv(px, sh) && m.List? && Enabled(sh, m)
    ensures Inv(px, After(px, sh, m))
  {
    var sh1 := After(px, sh, m);
    var page := ListedAs(sh, m.ids);
    forall i | 0 <= i < |page| ensures ListedOk(sh, page[i], m.now) {
      assert m.ids[i] in Sql.DueIds(sh.rows, m.now);
    }
    assert OnlyPhase(sh, sh1, m.s);
    QuietMove(px, sh, sh1, m.s);
  }

  lemma FinishKeeps(px: Platform, sh: Shared, m: Move)
    requires Inv(px, sh) && m.Finish? && Enabled(sh, m)
    ensures Inv(px, After(px, sh, m))
  {
    assert OnlyPhase(sh, After(px, sh, m), m.s);
    QuietMove(px, sh, After(px, sh, m), m.s);
  }

  /** A refused mark: the flag is gone or another scheduler marked it in its present epoch. */
  lemma RefusedMarkKeeps(px: Platform, sh: Shared, m: Move)
    requires Inv(px, sh) && m.Mark? && Enabled(sh, m)
    requires var p := PhaseOf(sh, m.s); Sql.MarkRemovalFired(sh.rows, p.page[p.done].token.id, p.listedAt).Err?
    ensures Inv(px, After(px, sh, m))
  {
    var sh1, p := After(px, sh, m), PhaseOf(sh, m.s);
    assert PhaseOk(sh, p);
    var t := p.page[p.done].token;
    assert ListedOk(sh, p.page[p.done], p.listedAt);
    if t.id in sh.rows.flags {
      assert MarkedNow(sh, t.id);
      assert Accounted(sh, Token(t.id, EpochOf(sh, t.id)));
    }
    assert Settled(sh, t);
    assert OnlyPhase(sh, sh1, m.s);
    QuietMove(px, sh, sh1, m.s);
  }

  lemma EmitKeeps(px: Platform, sh: Shared, m: Move)
    requires Inv(px, sh) && m.Emit? && Enabled(sh, m)
    ensures Inv(px, After(px, sh, m))
  {
    var sh1, p := After(px, sh, m), PhaseOf(sh, m.s);
    assert PhaseOk(sh, p) && Pending(sh, m.s, p.token);
    assert OnlyPhase(sh, sh1, m.s);
    forall o: nat, t ensures Pending(sh1, o, t) <==> Pending(sh, o, t) && o != m.s {}
    forall t ensures Accounted(sh1, t) <==> Accounted(sh, t) {
      EmittedAccounted(sh, sh1, m.s, p.token, t);
    }
    assert Once(sh1);
    assert ListedOk(sh, p.page[p.done], p.listedAt);
    forall i | 0 <= i < p.done + 1 ensures Settled(sh1, p.page[i].token) || p.page[i].token in sh1.skipped {
      if i == p.done {
        assert Accounted(sh1, p.token) && p.token == Token(p.page[i].token.id, p.token.epoch);
      } else {
        assert Settled(sh, p.page[i].token) || p.page[i].token in sh.skipped;
      }
    }
    SameAccounts(px, sh, sh1, m.s);
  }

  lemma EmittedAccounted(sh: Shared, sh1: Shared, s: nat, token: Token, t: Token)
    requires sh1.lost == sh.lost && sh1.before == sh.before && |sh1.sent| == |sh.sent| + 1 && sh1.sent[..|sh.sent|] == sh.sent
    requires sh1.sent[|sh.sent|].token == token && Pending(sh, s, token)
    requires forall o: nat, u :: Pending(sh1, o, u) <==> Pending(sh, o, u) && o != s
    ensures Accounted(sh1, t) <==> Accounted(sh, t)
  {
  }

  /** The pending token of s becomes a lost one. */
  lemma LosingKeeps(px: Platform, sh: Shared, sh1: Shared, s: nat)
    requires Inv(px, sh) && PhaseOf(sh, s).Emitting? && OnlyPhase(sh, sh1, s) && !PhaseOf(sh1, s).Emitting?
    requires sh1.sent == sh.sent && sh1.lost == sh.lost + {PhaseOf(sh, s).token}
    requires (forall t :: Accounted(sh, t) ==> Accounted(sh1, t)) ==> PhaseOk(sh1, PhaseOf(sh1, s))
    ensures Inv(px, sh1)
  {
    var token := PhaseOf(sh, s).token;
    assert Pending(sh, s, token);
    forall o: nat, t ensures Pending(sh1, o, t) <==> Pending(sh, o, t) && o != s {}
    forall t ensures Accounted(sh1, t) <==> Accounted(sh, t) {
      if o: nat :| Pending(sh, o, t) {
        assert o == s || Pending(sh1, o, t);
      }
    }
    assert Once(sh1);
    SameAccounts(px, sh, sh1, s);
  }

  lemma CrashKeeps(px: Platform, sh: Shared, m: Move)
    requires Inv(px, sh) && m.Crash?
    ensures Inv(px, After(px, sh, m))
  {
    var sh1 := After(px, sh, m);
    assert OnlyPhase(sh, sh1, m.s);
    if PhaseOf(sh, m.s).Emitting? {
      LosingKeeps(px, sh, sh1, m.s);
    } else {
      QuietMove(px, sh, sh1, m.s);
    }
  }

  lemma MisfireKeeps(px: Platform, sh: Shared, m: Move)
    requires Inv(px, sh) && m.Misfire? && Enabled(sh, m)
    ensures Inv(px, After(px, sh, m))
  {
    var sh1, p := After(px, sh, m), PhaseOf(sh, m.s);
    assert PhaseOk(sh, p) && OnlyPhase(sh, sh1, m.s);
    if forall t :: Accounted(sh, t) ==> Accounted(sh1, t) {
      assert p.token in sh1.lost && Accounted(sh1, p.token) && p.token == Token(p.page[p.done].token.id, p.token.epoch);
      assert ListedOk(sh, p.page[p.done], p.listedAt);
      forall i | 0 <= i < p.done + 1 ensures Settled(sh1, p.page[i].token) || p.page[i].token in sh1.skipped {
        assert i < p.done ==> Settled(sh, p.page[i].token) || p.page[i].token in sh.skipped;
      }
    }
    LosingKeeps(px, sh, sh1, m.s);
  }

  lemma SkipKeeps(px: Platform, sh: Shared, m: Move)
    requires Inv(px, sh) && m.Skip? && Enabled(sh, m)
    ensures Inv(px, After(px, sh, m))
  {
    var sh1, p := After(px, sh, m), PhaseOf(sh, m.s);
    assert PhaseOk(sh, p) && OnlyPhase(sh, sh1, m.s);
    forall o: nat, t ensures Pending(sh1, o, t) <==> Pending(sh, o, t) {}
    assert forall t :: Accounted(sh1, t) <==> Accounted(sh, t);
    assert Onward(sh, sh1);
    forall i | 0 <= i < p.done + 1 ensures Settled(sh1, p.page[i].token) || p.page[i].token in sh1.skipped {
      assert i < p.done ==> Settled(sh, p.page[i].token) || p.page[i].token in sh.skipped;
    }
    assert Once(sh1);
    SameAccounts(px, sh, sh1, m.s);
  }

  /** A mark that goes through creates the token of the row's present epoch, which nothing accounted for before. */
  lemma MarkKeeps(px: Platform, sh: Shared, m: Move)
    requires Inv(px, sh) && m.Mark? && Enabled(sh, m)
    requires var p := PhaseOf(sh, m.s); Sql.MarkRemovalFired(sh.rows, p.page[p.done].token.id, p.listedAt).Ok?
    ensures Inv(px, After(px, sh, m))
  {
    var sh1, p := After(px, sh, m), PhaseOf(sh, m.s);
    var id := p.page[p.done].token.id;
    var token := Token(id, EpochOf(sh, id));
    assert PhaseOk(sh, p) && ListedOk(sh, p.page[p.done], p.listedAt);
    assert !Accounted(sh, token) by { assert !MarkedNow(sh, id); }
    forall o: nat, t ensures Pending(sh1, o, t) <==> Pending(sh, o, t) || (o == m.s && t == token) {}
    forall t ensures Accounted(sh1, t) <==> Accounted(sh, t) || t == token {
      assert Pending(sh1, m.s, token);
      if o: nat :| Pending(sh, o, t) { assert Pending(sh1, o, t); }
    }
    MarkedOnce(sh, sh1, m.s, token);
    MarkRows(px, sh, sh1, id, p.listedAt);
    MarkedTell(sh, sh1, token);
    forall o: nat ensures PhaseOk(sh1, PhaseOf(sh1, o)) {
      PhaseOnward(sh, sh1, PhaseOf(sh, o));
    }
  }

  lemma MarkedOnce(sh: Shared, sh1: Shared, s: nat, token: Token)
    requires Once(sh) && sh1.sent == sh.sent && sh1.lost == sh.lost && sh1.before == sh.before && !Accounted(sh, token)
    requires forall o: nat, t :: Pending(sh1, o, t) <==> Pending(sh, o, t) || (o == s && t == token)
    ensures Once(sh1)
  {
  }

  lemma MarkRows(px: Platform, sh: Shared, sh1: Shared, id: Uuid, at: Time)
    requires Sql.Valid(px, sh.rows) && Sql.MarkRemovalFired(sh.rows, id, at) == Ok(sh1.rows)
    ensures Sql.Valid(px, sh1.rows) && sh1.rows.flags.Keys == sh.rows.flags.Keys && MarkedNow(sh1, id)
    ensures forall x :: x != id ==> (MarkedNow(sh1, x) <==> MarkedNow(sh, x))
  {
    DateCallValid(px, sh.rows, at, MarkFlagRemovalFired(id, at));
  }

  lemma MarkedTell(sh: Shared, sh1: Shared, token: Token)
    requires MarkersTell(sh) && sh1.epochs == sh.epochs && sh1.rows.flags.Keys == sh.rows.flags.Keys
    requires token.id in sh.epochs && token.epoch == EpochOf(sh, token.id) && MarkedNow(sh1, token.id)
    requires forall x :: x != token.id ==> (MarkedNow(sh1, x) <==> MarkedNow(sh, x))
    requires forall t :: Accounted(sh1, t) <==> Accounted(sh, t) || t == token
    ensures MarkersTell(sh1)
  {
  }

  /** Apart from marking and rescheduling nothing touches the marker of a row that stays. */
  lemma CallKeepsMarker(px: Platform, db: Sql.Db, now: Time, call: Write, x: Uuid)
    requires Sql.FlagsOk(px, db.flags) && Statement(px, db, now, call).Ok? && !Marks(call)
    requires x in db.flags && x in Statement(px, db, now, call).value.flags
    ensures Statement(px, db, now, call).value.flags[x].life.firedAt
            == if Reschedules(call) && call.l.id == x then None else db.flags[x].life.firedAt
  {
    match call
    case OnFlag(f) => FlagCallRow(px, db, now, f, x);
    case OnDates(d) => DateCallRow(db, now, d);
    case OnLife(_) =>
    case _ => OtherCallRows(px, db, now, call);
  }

  lemma CallKeepsRows(px: Platform, db: Sql.Db, now: Time, call: Write, x: Uuid)
    requires Sql.FlagsOk(px, db.flags) && Statement(px, db, now, call).Ok?
    ensures var db1 := Statement(px, db, now, call).value;
            x in db1.flags && x !in db.flags ==>
              Creates(call) && call.f.flag.id == x && db1.flags[x].life.firedAt.None?
    ensures Reschedules(call) ==> call.l.id in db.flags
  {
    if call.OnFlag? {
      FlagCallAddsRemoves(px, db, now, call.f, x);
    } else {
      RowsKept(px, db, now, call);
    }
  }

  lemma CallTells(px: Platform, sh: Shared, call: Write, now: Time)
    requires Inv(px, sh) && Enabled(sh, Call(call, now)) && Statement(px, sh.rows, now, call).Ok?
    ensures MarkersTell(After(px, sh, Call(call, now)))
    ensures Onward(sh, After(px, sh, Call(call, now)))
    ensures After(px, sh, Call(call, now)).rows.flags.Keys <= After(px, sh, Call(call, now)).epochs.Keys
  {
    var db := sh.rows;
    var sh1 := After(px, sh, Call(call, now));
    forall o: nat, t ensures Pending(sh1, o, t) <==> Pending(sh, o, t) {}
    assert forall t :: Accounted(sh1, t) <==> Accounted(sh, t);
    forall x ensures x in sh1.rows.flags ==> x in sh1.epochs && (x in sh.epochs ==> x in db.flags)
             ensures MarkedNow(sh1, x) <==> MarkedNow(sh, x) && x in sh1.rows.flags && !(Reschedules(call) && call.l.id == x)
    {
      CallKeepsRows(px, db, now, call, x);
      if x in db.flags && x in sh1.rows.flags { CallKeepsMarker(px, db, now, call, x); }
    }
    CallMarkers(sh, sh1, call);
  }

  lemma CallMarkers(sh: Shared, sh1: Shared, call: Write)
    requires MarkersTell(sh) && sh1.epochs == EpochsAfter(sh, call) && (Creates(call) ==> call.f.flag.id !in sh.epochs)
    requires forall t :: Accounted(sh1, t) <==> Accounted(sh, t)
    requires forall x :: x in sh1.rows.flags && x in sh.epochs ==> x in sh.rows.flags
    requires forall x :: MarkedNow(sh1, x) <==> MarkedNow(sh, x) && x in sh1.rows.flags && !(Reschedules(call) && call.l.id == x)
    ensures MarkersTell(sh1)
  {
  }

  lemma CallKeeps(px: Platform, sh: Shared, m: Move)
    requires Lawful(px) && Inv(px, sh) && m.Call? && Enabled(sh, m)
    ensures Inv(px, After(px, sh, m))
  {
    if Statement(px, sh.rows, m.now, m.call).Ok? {
      var sh1 := After(px, sh, m);
      StatementValid(px, sh.rows, m.now, m.call);
      CallTells(px, sh, m.call, m.now);
      forall o: nat, t ensures Pending(sh1, o, t) <==> Pending(sh, o, t) {}
      assert Once(sh1);
      forall o: nat ensures PhaseOk(sh1, PhaseOf(sh1, o)) {
        PhaseOnward(sh, sh1, PhaseOf(sh, o));
      }
    }
  }

  lemma MoveKeeps(px: Platform, sh: Shared, m: Move)
    requires Lawful(px) && Inv(px, sh) && Enabled(sh, m)
    ensures Inv(px, After(px, sh, m))
  {
    match m
    case List(_, _, _) => ListKeeps(px, sh, m);
    case Mark(s) =>
      var p := PhaseOf(sh, s);
      if Sql.MarkRemovalFired(sh.rows, p.page[p.done].token.id, p.listedAt).Ok? { MarkKeeps(px, sh, m); } else { RefusedMarkKeeps(px, sh, m); }
    case Skip(_) => SkipKeeps(px, sh, m);
    case Emit(_) => EmitKeeps(px, sh, m);
    case Misfire(_) => MisfireKeeps(px, sh, m);
    case Finish(_) => FinishKeeps(px, sh, m);
    case Crash(_) => CrashKeeps(px, sh, m);
    case Call(_, _) => CallKeeps(px, sh, m);
  }

  // ---------------------------------------------------------------- every interleaving

  ghost predicate Interleaving(px: Platform, states: seq<Shared>, moves: seq<Move>) {
    && |states| == |moves| + 1
    && forall i :: 0 <= i < |moves| ==> Enabled(states[i], moves[i]) && states[i + 1] == After(px, states[i], moves[i])
  }

  /** No scheduler of the run has begun; markers on rows are from before it. */
  ghost predicate Fresh(px: Platform, sh: Shared) {
    && Sql.Valid(px, sh.rows) && sh.rows.flags.Keys <= sh.epochs.Keys
    && sh.phases == map[] && sh.sent == [] && sh.lost == {} && sh.skipped == {}
    && (forall t :: t in sh.before ==> t.id in sh.epochs && t.epoch <= sh.epochs[t.id])
    && (forall id :: id in sh.rows.flags ==> (MarkedNow(sh, id) <==> Token(id, EpochOf(sh, id)) in sh.before))
  }

  lemma {:induction false} InvAlways(px: Platform, states: seq<Shared>, moves: seq<Move>, n: nat)
    requires Lawful(px) && Interleaving(px, states, moves) && Fresh(px, states[0]) && n <= |moves|
    ensures Inv(px, states[n])
  {
    if n > 0 {
      InvAlways(px, states, moves, n - 1);
      MoveKeeps(px, states[n - 1], moves[n - 1]);
    }
  }

  /** Whatever the interleaving, one setting of a removal date sends at most one due event, and only for a row that was
      due when its scheduler listed it. */
  lemma AtMostOneEvent(px: Platform, states: seq<Shared>, moves: seq<Move>, n: nat)
    requires Lawful(px) && Interleaving(px, states, moves) && Fresh(px, states[0]) && n <= |moves|
    ensures forall i, j :: 0 <= i < j < |states[n].sent| ==> states[n].sent[i].token != states[n].sent[j].token
    ensures forall i :: 0 <= i < |states[n].sent| ==>
              states[n].sent[i].row.id == states[n].sent[i].token.id && Sql.Due(states[n].sent[i].row, states[n].sent[i].listedAt)
  {
    InvAlways(px, states, moves, n);
  }

  /** When a tick finishes, every flag it listed is gone, or its mark never reached the database, or the event of the
      listed setting or a later one is out, about to go out, or lost; and where no mark failed, nothing was lost and nobody is
      between marking and emitting, it is out. */
  lemma FinishedTickSettles(px: Platform, states: seq<Shared>, moves: seq<Move>, n: nat, s: nat, i: nat)
    requires Lawful(px) && Interleaving(px, states, moves) && Fresh(px, states[0]) && n < |moves|
    requires moves[n] == Finish(s) && i < |PhaseOf(states[n], s).page|
    ensures var t := PhaseOf(states[n], s).page[i].token; t in states[n].skipped || Settled(states[n], t)
    ensures var t := PhaseOf(states[n], s).page[i].token;
            t !in states[n].skipped && states[n].lost == {} && (forall o: nat :: !PhaseOf(states[n], o).Emitting?) ==>
              || t.id !in states[n].rows.flags
              || exists k :: 0 <= k < |states[n].sent| && states[n].sent[k].token.id == t.id && t.epoch <= states[n].sent[k].token.epoch
  {
    InvAlways(px, states, moves, n);
    var sh := states[n];
    var p := PhaseOf(sh, s);
    assert PhaseOk(sh, p) && ListedOk(sh, p.page[i], p.listedAt);
    if p.page[i].token !in sh.skipped && sh.lost == {} && forall o: nat :: !PhaseOf(sh, o).Emitting? {
      SettledMeansSent(sh, p.page[i].token);
    }
  }

  lemma SettledMeansSent(sh: Shared, t: Token)
    requires Settled(sh, t) && sh.lost == {} && forall o: nat :: !PhaseOf(sh, o).Emitting?
    requires forall u :: u in sh.before && u.id == t.id ==> u.epoch < t.epoch
    ensures t.id !in sh.rows.flags
            || exists k :: 0 <= k < |sh.sent| && sh.sent[k].token.id == t.id && t.epoch <= sh.sent[k].token.epoch
  {
  }
}
