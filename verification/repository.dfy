/** The stored rows as the object the service shares: internal/flags/repository.go over PostgreSQL. */
module Repository {
  import opened Model
  import opened Store

  const FLAG_PAGE: nat := 1000

  /** What ListFlags(project, archived = false, limit) may return: its order is not used by any caller modelled here. */
  ghost predicate ActivePage(db: Db, projectId: Uuid, limit: nat, fs: seq<Flag>) {
    && |fs| <= limit
    && (forall i, j :: 0 <= i < j < |fs| ==> fs[i].id != fs[j].id)
    && (forall i :: 0 <= i < |fs| ==>
          fs[i].id in db.flags && db.flags[fs[i].id] == fs[i] && fs[i].projectId == projectId && !fs[i].IsArchived())
    && (|fs| < limit ==> forall id :: id in db.flags && db.flags[id].projectId == projectId && !db.flags[id].IsArchived()
                                      ==> db.flags[id] in fs)
  }

  /** ORDER BY ... LIMIT 1 over a non-empty set of rows finds one. */
  lemma {:induction false} LowestExists(key: Uuid -> int, ids: set<Uuid>) returns (low: Uuid)
    requires ids != {}
    ensures low in ids && forall j :: j in ids ==> key(low) <= key(j)
    decreases ids
  {
    var id :| id in ids;
    low := id;
    if ids != {id} {
      var other := LowestExists(key, ids - {id});
      low := if key(other) < key(id) then other else id;
      assert forall j :: j in ids ==> j == id || j in ids - {id};
    }
  }

  function PriorityIn(rules: map<Uuid, Rule>, id: Uuid): int { if id in rules then rules[id].priority else 0 }

  function DateIn(flags: map<Uuid, Flag>, id: Uuid): Time {
    if id in flags && flags[id].deleteAfter.Some? then flags[id].deleteAfter.value else 0
  }

  /** Between two rounds of the selection: rs is sorted, left holds the rules not yet taken, all of them later. */
  ghost predicate Selected(rules: map<Uuid, Rule>, flagId: Uuid, rs: seq<Rule>, left: set<Uuid>) {
    && (forall id :: id in left ==> id in rules && rules[id].id == id && rules[id].flagId == flagId)
    && (forall id :: id in rules && rules[id].flagId == flagId ==> id in left || rules[id] in rs)
    && (forall i :: 0 <= i < |rs| ==> rs[i].id in rules && rules[rs[i].id] == rs[i] && rs[i].flagId == flagId && rs[i].id !in left)
    && (forall i, j :: 0 <= i < j < |rs| ==> rs[i].priority <= rs[j].priority && rs[i].id != rs[j].id)
    && (forall i, id :: 0 <= i < |rs| && id in left ==> rs[i].priority <= rules[id].priority)
  }

  lemma SelectNext(rules: map<Uuid, Rule>, flagId: Uuid, rs: seq<Rule>, left: set<Uuid>, next: Uuid)
    requires Selected(rules, flagId, rs, left)
    requires next in left && forall j :: j in left ==> rules[next].priority <= rules[j].priority
    ensures Selected(rules, flagId, rs + [rules[next]], left - {next})
  {
    var rs1 := rs + [rules[next]];
    forall id | id in rules && rules[id].flagId == flagId ensures id in left - {next} || rules[id] in rs1 {
      if id == next { assert rs1[|rs|] == rules[id]; }
    }
  }

  lemma {:induction false} ListingFrom(rules: map<Uuid, Rule>, flagId: Uuid, rs: seq<Rule>, left: set<Uuid>) returns (all: seq<Rule>)
    requires Selected(rules, flagId, rs, left)
    ensures Selected(rules, flagId, all, {})
    decreases left
  {
    all := rs;
    if left != {} {
      var next := LowestExists((id: Uuid) => PriorityIn(rules, id), left);
      assert forall j :: j in left ==> PriorityIn(rules, j) == rules[j].priority;
      SelectNext(rules, flagId, rs, left, next);
      all := ListingFrom(rules, flagId, rs + [rules[next]], left - {next});
    }
  }

  /** ListRules always has an order to return. */
  lemma ListingExists(px: Platform, db: Db, flagId: Uuid) returns (rs: seq<Rule>)
    requires Valid(px, db)
    ensures Listing(db, flagId, rs)
  {
    rs := ListingFrom(db.rules, flagId, [], set id | id in db.rules && db.rules[id].flagId == flagId);
  }

  function RemovalIn(flags: map<Uuid, Flag>, id: Uuid): Time {
    if id in flags && flags[id].life.removalAt.Some? then flags[id].life.removalAt.value else 0
  }

  /** Between two rounds: ids is sorted by key, left holds the ids of the pool not yet taken, none of them earlier. */
  ghost predicate Taken(key: Uuid -> int, pool: set<Uuid>, ids: seq<Uuid>, left: set<Uuid>) {
    && left <= pool
    && (forall id :: id in pool ==> id in left || id in ids)
    && (forall i :: 0 <= i < |ids| ==> ids[i] in pool && ids[i] !in left)
    && (forall i, j :: 0 <= i < j < |ids| ==> ids[i] != ids[j] && key(ids[i]) <= key(ids[j]))
    && (forall i, id :: 0 <= i < |ids| && id in left ==> key(ids[i]) <= key(id))
  }

  lemma TakeNext(key: Uuid -> int, pool: set<Uuid>, ids: seq<Uuid>, left: set<Uuid>, next: Uuid)
    requires Taken(key, pool, ids, left)
    requires next in left && forall j :: j in left ==> key(next) <= key(j)
    ensures Taken(key, pool, ids + [next], left - {next})
  {
  }

  /** SELECT id ... ORDER BY key LIMIT limit */
  method TakeLowest(key: Uuid -> int, pool: set<Uuid>, limit: nat) returns (ids: seq<Uuid>, ghost left: set<Uuid>)
    ensures Taken(key, pool, ids, left) && |ids| <= limit && (left != {} ==> |ids| == limit)
  {
    ids := [];
    var rest := pool;
    while rest != {} && |ids| < limit
      invariant Taken(key, pool, ids, rest) && |ids| <= limit
      decreases rest
    {
      ghost var low := LowestExists(key, rest);
      var next: Uuid :| next in rest && forall j :: j in rest ==> key(next) <= key(j);
      TakeNext(key, pool, ids, rest, next);
      ids := ids + [next];
      rest := rest - {next};
    }
    left := rest;
  }

  class FlagRepository {
    const px: Platform
    var rows: Db

    constructor (px: Platform)
      ensures this.px == px && rows == EMPTY
    {
      this.px := px;
      rows := EMPTY;
    }

    /** Runs one write; a refused statement changes nothing. */
    method Exec(w: Result<Db>) returns (err: Option<Error>)
      modifies this
      ensures w.Ok? ==> rows == w.value && err == None
      ensures w.Err? ==> rows == old(rows) && err == Some(w.error)
    {
      err := None;
      match w {
        case Ok(db) => rows := db;
        case Err(e) => err := Some(e);
      }
    }

    method GetFlag(id: Uuid) returns (r: Result<Flag>)
      ensures r == if id in rows.flags then Ok(rows.flags[id]) else Err(NotFound)
    {
      r := if id in rows.flags then Ok(rows.flags[id]) else Err(NotFound);
    }

    method GetFlagByKey(projectId: Uuid, environmentId: Uuid, key: string) returns (r: Option<Flag>)
      requires Store.Valid(px, rows)
      ensures r == FindFlag(rows, projectId, environmentId, key)
    {
      r := None;
      if id :| id in rows.flags && Answers(rows.flags[id], projectId, environmentId, key) {
        r := Some(rows.flags[id]);
        OneAnswer(px, rows, projectId, environmentId, key, id);
      }
    }

    method ListRules(flagId: Uuid) returns (rs: seq<Rule>)
      requires Store.Valid(px, rows)
      ensures Listing(rows, flagId, rs)
    {
      rs := [];
      var rules := rows.rules;
      var left := set id | id in rules && rules[id].flagId == flagId;
      while left != {}
        invariant Selected(rules, flagId, rs, left)
        decreases left
      {
        ghost var low := LowestExists((id: Uuid) => PriorityIn(rules, id), left);
        var next: Uuid :| next in left && forall j :: j in left ==> PriorityIn(rules, next) <= PriorityIn(rules, j);
        assert forall j :: j in left ==> PriorityIn(rules, j) == rules[j].priority;
        SelectNext(rules, flagId, rs, left, next);
        rs := rs + [rules[next]];
        left := left - {next};
      }
    }

    method ListActiveFlags(projectId: Uuid) returns (fs: seq<Flag>)
      requires Store.Valid(px, rows)
      ensures ActivePage(rows, projectId, FLAG_PAGE, fs)
    {
      fs := [];
      var flags := rows.flags;
      var left := set id | id in flags && flags[id].projectId == projectId && !flags[id].IsArchived();
      while left != {} && |fs| < FLAG_PAGE
        invariant left <= flags.Keys && |fs| <= FLAG_PAGE
        invariant forall i, j :: 0 <= i < j < |fs| ==> fs[i].id != fs[j].id
        invariant forall i :: 0 <= i < |fs| ==>
                    && fs[i].id !in left && fs[i].id in flags && flags[fs[i].id] == fs[i]
                    && fs[i].projectId == projectId && !fs[i].IsArchived()
        invariant forall id :: id in left ==> flags[id].projectId == projectId && !flags[id].IsArchived()
        invariant forall id :: id in flags && flags[id].projectId == projectId && !flags[id].IsArchived()
                               ==> id in left || flags[id] in fs
        decreases left
      {
        var id :| id in left;
        fs := fs + [flags[id]];
        left := left - {id};
      }
    }

    method ListFlagsToHardDelete(limit: nat, now: Time) returns (ids: seq<Uuid>)
      ensures DeletionBatch(rows, limit, now, ids)
    {
      var flags, overdue := rows.flags, OverdueIds(rows, now);
      ghost var left;
      ids, left := TakeLowest((id: Uuid) => DateIn(flags, id), overdue, limit);
      assert forall x :: x in overdue ==> flags[x].deleteAfter == Some(DateIn(flags, x));
    }

    method ListFlagsDueForRemoval(now: Time) returns (ids: seq<Uuid>)
      ensures DuePage(rows, now, ids)
    {
      var flags, due := rows.flags, DueIds(rows, now);
      ghost var left;
      ids, left := TakeLowest((id: Uuid) => RemovalIn(flags, id), due, DUE_PAGE);
      assert forall x :: x in due ==> flags[x].life.removalAt == Some(RemovalIn(flags, x));
    }
  }
}
