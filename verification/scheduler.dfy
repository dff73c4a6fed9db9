/** The due events of internal/flags/lifecycle_scheduler.go: one tick by itself, and many schedulers at once. */
module Scheduler {
  import opened Model
  import opened Service
  import Sql = Store

  // ---------------------------------------------------------------- one tick

  function Marking(id: Uuid, now: Time): Write { OnDates(MarkFlagRemovalFired(id, now)) }

  function Ticked(px: Platform, w: World, now: Time, ids: seq<Uuid>): World
    decreases |ids|
  {
    if ids == [] then w else Ticked(px, Serve(px, w, now, Marking(ids[0], now)), now, ids[1..])
  }

  /** The flags whose due event goes out: those whose mark succeeds. */
  function Emitted(px: Platform, w: World, now: Time, ids: seq<Uuid>): seq<Uuid>
    decreases |ids|
  {
    if ids == [] then []
    else
      var rest := Emitted(px, Serve(px, w, now, Marking(ids[0], now)), now, ids[1..]);
      if Reply(px, w, now, Marking(ids[0], now)).None? then [ids[0]] + rest else rest
  }

  class LifecycleScheduler {
    const service: FlagService
    var events: seq<Uuid>

    constructor (service: FlagService)
      ensures this.service == service && events == []
    {
      this.service, events := service, [];
    }

    method Tick(now: Time) returns (ghost page: seq<Uuid>)
      modifies this`events, service.repo, service.cache
      ensures Sql.DuePage(old(service.repo.rows), now, page)
      ensures service.State() == Ticked(service.px, old(service.State()), now, page)
      ensures events == old(events) + Emitted(service.px, old(service.State()), now, page)
    {
      var due := service.repo.ListFlagsDueForRemoval(now);
      page := due;
      ghost var px, w0, before := service.px, service.State(), events;
      for i := 0 to |due|
        invariant Ticked(px, w0, now, due) == Ticked(px, service.State(), now, due[i..])
        invariant before + Emitted(px, w0, now, due) == events + Emitted(px, service.State(), now, due[i..])
      {
        assert due[i..][0] == due[i] && due[i..][1..] == due[i + 1..];
        ghost var rest := Emitted(px, Serve(px, service.State(), now, Marking(due[i], now)), now, due[i + 1..]);
        assert events + ([due[i]] + rest) == events + [due[i]] + rest;
        var err := service.Mutate(Marking(due[i], now), now);
        if err.None? {
          events := events + [due[i]];
        }
      }
    }
  }

  function Fired(f: Flag, now: Time): Flag { f.(life := f.life.(firedAt := Some(now))) }

  lemma MarkingOne(px: Platform, w: World, now: Time, id: Uuid)
    requires id in w.rows.flags && w.rows.flags[id].id == id && w.rows.flags[id].life.firedAt.None?
    ensures Serve(px, w, now, Marking(id, now)).rows.flags == w.rows.flags[id := Fired(w.rows.flags[id], now)]
    ensures Reply(px, w, now, Marking(id, now)).None?
  {
  }

  ghost predicate Unfired(flags: map<Uuid, Flag>, ids: seq<Uuid>) {
    && (forall i :: 0 <= i < |ids| ==> ids[i] in flags && flags[ids[i]].id == ids[i] && flags[ids[i]].life.firedAt.None?)
    && (forall i, j :: 0 <= i < j < |ids| ==> ids[i] != ids[j])
  }

  /** Left alone, a tick emits every listed flag once and marks exactly those, so that none of them is due again. */
  lemma {:induction false} LoneTick(px: Platform, w: World, now: Time, ids: seq<Uuid>)
    requires Unfired(w.rows.flags, ids)
    ensures Emitted(px, w, now, ids) == ids
    ensures Ticked(px, w, now, ids).rows.flags
            == map x | x in w.rows.flags :: if x in ids then Fired(w.rows.flags[x], now) else w.rows.flags[x]
    decreases |ids|
  {
    if ids != [] {
      var w1 := Serve(px, w, now, Marking(ids[0], now));
      MarkingOne(px, w, now, ids[0]);
      assert ids[0] !in ids[1..];
      LoneTick(px, w1, now, ids[1..]);
      assert forall x :: x in ids <==> x == ids[0] || x in ids[1..];
      assert ids == [ids[0]] + ids[1..];
    }
  }
}
