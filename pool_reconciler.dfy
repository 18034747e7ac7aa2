/**
 * The machine-pool diff of resourceClusterVirtUpdate: index the pools of the
 * previous `machine_pool` set by name, walk the new set issuing a create for
 * an unknown name and an update for a known name whose hash changed, remove
 * each walked name from the index, then delete whatever names are left.  The
 * first call the API rejects ends the pass; calls already made stay made.
 */
module PoolReconciler {
  import opened Wrappers
  import opened LibvirtPools

  /** A machine-pool call against the cluster's cloud configuration. */
  datatype PoolOp =
    | CreatePool(pool: MachinePoolState)
    | UpdatePool(pool: MachinePoolState)
    | DeletePool(name: string)

  /**
   * The remote client as the reconciler sees it: every call it receives is
   * appended to `log`, and `rejects(n, op)` says whether the API answers the
   * n-th call of the log, `op`, with an error.
   */
  class MachinePoolApi {
    var log: seq<PoolOp>
    const rejects: (nat, PoolOp) -> bool

    constructor (rejects: (nat, PoolOp) -> bool)
      ensures log == [] && this.rejects == rejects
    {
      log := [];
      this.rejects := rejects;
    }

    method CreateMachinePool(pool: MachinePoolState) returns (failed: bool)
      modifies this
      ensures log == old(log) + [CreatePool(pool)]
      ensures failed == rejects(|old(log)|, CreatePool(pool))
    {
      failed := rejects(|log|, CreatePool(pool));
      log := log + [CreatePool(pool)];
    }

    method UpdateMachinePool(pool: MachinePoolState) returns (failed: bool)
      modifies this
      ensures log == old(log) + [UpdatePool(pool)]
      ensures failed == rejects(|old(log)|, UpdatePool(pool))
    {
      failed := rejects(|log|, UpdatePool(pool));
      log := log + [UpdatePool(pool)];
    }

    method DeleteMachinePool(name: string) returns (failed: bool)
      modifies this
      ensures log == old(log) + [DeletePool(name)]
      ensures failed == rejects(|old(log)|, DeletePool(name))
    {
      failed := rejects(|log|, DeletePool(name));
      log := log + [DeletePool(name)];
    }
  }

  // ---------------------------------------------------------------------------
  // The specification of one pass
  // ---------------------------------------------------------------------------

  function Names(pools: seq<MachinePoolState>): set<string>
  {
    set p | p in pools :: p.name
  }

  predicate DistinctNames(pools: seq<MachinePoolState>)
  {
    forall i, j :: 0 <= i < j < |pools| ==> pools[i].name != pools[j].name
  }

  /** The name-to-pool index of the old set; a later pool of the same name replaces an earlier one. */
  function Index(pools: seq<MachinePoolState>): (index: map<string, MachinePoolState>)
    ensures index.Keys == Names(pools)
    ensures forall n :: n in index ==> index[n].name == n && index[n] in pools
  {
    if pools == [] then map[]
    else
      var last := pools[|pools| - 1];
      var init := pools[..|pools| - 1];
      assert pools == init + [last];
      assert Names(pools) == Names(init) + {last.name};
      Index(init)[last.name := last]
  }

  /** The call, if any, a new pool gets against the names still in `remaining`. */
  function Action(remaining: map<string, MachinePoolState>, pool: MachinePoolState,
                  hash: MachinePoolState -> int): seq<PoolOp>
  {
    if pool.name !in remaining then [CreatePool(pool)]
    else if hash(pool) != hash(remaining[pool.name]) then [UpdatePool(pool)]
    else []
  }

  /** The calls of the walk over the new pools, each name leaving the index once it has been seen. */
  function WalkOps(remaining: map<string, MachinePoolState>, news: seq<MachinePoolState>,
                   hash: MachinePoolState -> int): seq<PoolOp>
    decreases |news|
  {
    if news == [] then []
    else Action(remaining, news[0], hash) + WalkOps(remaining - {news[0].name}, news[1..], hash)
  }

  /** The index as the walk leaves it. */
  function Unvisited(remaining: map<string, MachinePoolState>, news: seq<MachinePoolState>): map<string, MachinePoolState>
    decreases |news|
  {
    if news == [] then remaining
    else Unvisited(remaining - {news[0].name}, news[1..])
  }

  /** The same decisions taken against the untouched index. */
  function Plan(index: map<string, MachinePoolState>, news: seq<MachinePoolState>,
                hash: MachinePoolState -> int): seq<PoolOp>
    decreases |news|
  {
    if news == [] then []
    else Action(index, news[0], hash) + Plan(index, news[1..], hash)
  }

  /** The names of old pools that no new pool carries. */
  function Leftover(olds: seq<MachinePoolState>, news: seq<MachinePoolState>): set<string>
  {
    Names(olds) - Names(news)
  }

  function DeleteOps(names: seq<string>): seq<PoolOp>
  {
    seq(|names|, i requires 0 <= i < |names| => DeletePool(names[i]))
  }

  predicate NoDuplicates(names: seq<string>)
  {
    forall i, j :: 0 <= i < j < |names| ==> names[i] != names[j]
  }

  predicate IsPrefix(a: seq<PoolOp>, b: seq<PoolOp>)
  {
    |a| <= |b| && b[..|a|] == a
  }

  /** No call among `ops`, issued from log position `base` on, was rejected. */
  predicate AcceptedFrom(rejects: (nat, PoolOp) -> bool, base: nat, ops: seq<PoolOp>)
  {
    forall k :: 0 <= k < |ops| ==> !rejects(base + k, ops[k])
  }

  /**
   * How a run of calls issued from log position `base` ended: when `failed`,
   * the last call was rejected and every earlier one accepted; otherwise all
   * of them were accepted.
   */
  predicate Outcome(rejects: (nat, PoolOp) -> bool, base: nat, ops: seq<PoolOp>, failed: bool)
  {
    if failed then
      |ops| > 0 && AcceptedFrom(rejects, base, ops[..|ops| - 1])
      && rejects(base + |ops| - 1, ops[|ops| - 1])
    else AcceptedFrom(rejects, base, ops)
  }

  /**
   * What one pass did, given the calls `walk` of the walk over the new set
   * and the names `leftover` it is to delete.  `issued` is a prefix of the
   * walk's calls followed by deletes of `deleted`, whose names are leftover
   * ones without repeats; deletes start only once the whole walk is issued,
   * and every name visited was deleted; the first rejected call ends the pass; a pass with
   * no rejection issued the whole walk and deleted every leftover name.
   */
  predicate PassOutcome(rejects: (nat, PoolOp) -> bool, base: nat, walk: seq<PoolOp>, leftover: set<string>,
                        issued: seq<PoolOp>, deleted: seq<string>, failed: bool)
  {
    && IsPrefix(issued, walk + DeleteOps(deleted))
    && (deleted != [] ==> issued == walk + DeleteOps(deleted))
    && NoDuplicates(deleted) && (set n | n in deleted) <= leftover
    && Outcome(rejects, base, issued, failed)
    && (!failed ==> issued == walk + DeleteOps(deleted) && (set n | n in deleted) == leftover)
  }

  // ---------------------------------------------------------------------------
  // resourceClusterVirtUpdate, the `machine_pool` branch
  // ---------------------------------------------------------------------------

  /**
   * One reconciliation pass.  `issued` is what the pass appended to the log
   * and `deleted` the order in which the leftover names were visited (Go's map
   * order, which the source leaves unspecified).  The pass issues a prefix of
   * the walk's calls followed by deletes and stops at the first rejected call;
   * a pass that fails nowhere deletes every leftover name exactly once.
   */
  method ReconcileMachinePools(api: MachinePoolApi, olds: seq<MachinePoolState>,
                               news: seq<MachinePoolState>, hash: MachinePoolState -> int)
    returns (failed: bool, ghost issued: seq<PoolOp>, ghost deleted: seq<string>)
    modifies api
    ensures api.log == old(api.log) + issued
    ensures PassOutcome(api.rejects, |old(api.log)|, WalkOps(Index(olds), news, hash), Leftover(olds, news),
                        issued, deleted, failed)
  {
    var osMap := IndexPools(olds);
    UnvisitedIsLeftover(osMap, news);
    assert Leftover(olds, news) == Unvisited(osMap, news).Keys;
    failed, issued, deleted := ReconcileIndexed(api, osMap, news, hash);
  }

  /** The pass against the index of the old set: the walk, then the deletes when the walk went through. */
  method ReconcileIndexed(api: MachinePoolApi, index: map<string, MachinePoolState>,
                          news: seq<MachinePoolState>, hash: MachinePoolState -> int)
    returns (failed: bool, ghost issued: seq<PoolOp>, ghost deleted: seq<string>)
    modifies api
    ensures api.log == old(api.log) + issued
    ensures PassOutcome(api.rejects, |old(api.log)|, WalkOps(index, news, hash), Unvisited(index, news).Keys,
                        issued, deleted, failed)
  {
    var remaining;
    ghost var walked;
    var walkFailed;
    walkFailed, remaining, walked := ApplyNewPools(api, index, news, hash);
    failed := walkFailed;
    deleted := [];
    if !walkFailed {
      failed, deleted := DeleteLeftovers(api, remaining);
    }
    issued := walked + DeleteOps(deleted);
    AppendAssociates(old(api.log), walked, DeleteOps(deleted));
    PassComposes(api.rejects, |old(api.log)|, WalkOps(index, news, hash), Unvisited(index, news).Keys,
                 walked, walkFailed, deleted, failed);
  }

  /** The name-to-pool map `osMap` built from the old set. */
  method IndexPools(olds: seq<MachinePoolState>) returns (osMap: map<string, MachinePoolState>)
    ensures osMap == Index(olds)
  {
    osMap := map[];
    for i := 0 to |olds|
      invariant osMap == Index(olds[..i])
    {
      assert olds[..i + 1][..i] == olds[..i];
      osMap := osMap[olds[i].name := olds[i]];
    }
    assert olds[..|olds|] == olds;
  }

  /**
   * The walk over the new set: create or update each pool as Action decides,
   * dropping its name from the index.  The calls issued are a prefix of
   * WalkOps, all of it when nothing was rejected, and `remaining` is then the
   * index without the new names.
   */
  method ApplyNewPools(api: MachinePoolApi, index: map<string, MachinePoolState>,
                       news: seq<MachinePoolState>, hash: MachinePoolState -> int)
    returns (failed: bool, remaining: map<string, MachinePoolState>, ghost issued: seq<PoolOp>)
    modifies api
    ensures api.log == old(api.log) + issued
    ensures IsPrefix(issued, WalkOps(index, news, hash))
    ensures Outcome(api.rejects, |old(api.log)|, issued, failed)
    ensures !failed ==> issued == WalkOps(index, news, hash) && remaining == Unvisited(index, news)
  {
    ghost var base := |api.log|;
    issued := [];
    remaining := index;
    failed := false;
    for i := 0 to |news|
      invariant issued + WalkOps(remaining, news[i..], hash) == WalkOps(index, news, hash)
      invariant Unvisited(remaining, news[i..]) == Unvisited(index, news)
      invariant api.log == old(api.log) + issued
      invariant AcceptedFrom(api.rejects, base, issued)
    {
      var pool := news[i];
      ghost var step;
      failed, step := ApplyPool(api, remaining, pool, hash);
      assert news[i..][0] == pool && news[i..][1..] == news[i + 1..];
      WalkAdvance(remaining, news[i..], issued, WalkOps(index, news, hash), hash);
      OutcomeAfter(api.rejects, base, issued, step, failed);
      issued := issued + step;
      if failed {
        PrefixOfSum(issued, WalkOps(remaining - {pool.name}, news[i + 1..], hash));
        return;
      }
      remaining := remaining - {pool.name};
    }
    assert issued + [] == issued;
    PrefixOfSum(issued, []);
  }

  /**
   * One new pool: create it when its name is not in the index, update it when
   * its hash differs from the indexed pool's, otherwise leave it alone.
   */
  method ApplyPool(api: MachinePoolApi, remaining: map<string, MachinePoolState>,
                   pool: MachinePoolState, hash: MachinePoolState -> int)
    returns (failed: bool, ghost step: seq<PoolOp>)
    modifies api
    ensures step == Action(remaining, pool, hash)
    ensures api.log == old(api.log) + step
    ensures Outcome(api.rejects, |old(api.log)|, step, failed)
  {
    failed := false;
    step := [];
    if pool.name !in remaining {
      failed := api.CreateMachinePool(pool);
      step := [CreatePool(pool)];
    } else if hash(pool) != hash(remaining[pool.name]) {
      failed := api.UpdateMachinePool(pool);
      step := [UpdatePool(pool)];
    }
  }

  /**
   * The deletes: visit the names left in the index in an arbitrary order and
   * delete each, stopping at the first rejection.  Every name is visited at
   * most once; when nothing was rejected, every name was.
   */
  method DeleteLeftovers(api: MachinePoolApi, remaining: map<string, MachinePoolState>)
    returns (failed: bool, ghost deleted: seq<string>)
    modifies api
    ensures api.log == old(api.log) + DeleteOps(deleted)
    ensures NoDuplicates(deleted) && (set n | n in deleted) <= remaining.Keys
    ensures Outcome(api.rejects, |old(api.log)|, DeleteOps(deleted), failed)
    ensures !failed ==> (set n | n in deleted) == remaining.Keys
  {
    ghost var base := |api.log|;
    deleted := [];
    failed := false;
    var osMap := remaining;
    while osMap != map[]
      invariant osMap.Keys !! (set n | n in deleted)
      invariant osMap.Keys + (set n | n in deleted) == remaining.Keys
      invariant NoDuplicates(deleted)
      invariant api.log == old(api.log) + DeleteOps(deleted)
      invariant AcceptedFrom(api.rejects, base, DeleteOps(deleted))
      invariant !failed
      decreases osMap.Keys
    {
      var name :| name in osMap;
      ghost var before := DeleteOps(deleted);
      failed := api.DeleteMachinePool(name);
      assert DeleteOps(deleted + [name]) == before + [DeletePool(name)];
      if failed {
        RejectedLast(api.rejects, base, before, DeletePool(name));
        deleted := deleted + [name];
        return;
      }
      AcceptedExtend(api.rejects, base, before, DeletePool(name));
      deleted := deleted + [name];
      osMap := osMap - {name};
    }
  }

  /** One step of the walk: the calls so far, then the next pool's, then those of the rest. */
  lemma WalkAdvance(remaining: map<string, MachinePoolState>, rest: seq<MachinePoolState>,
                    issued: seq<PoolOp>, total: seq<PoolOp>, hash: MachinePoolState -> int)
    requires rest != []
    requires issued + WalkOps(remaining, rest, hash) == total
    ensures (issued + Action(remaining, rest[0], hash)) + WalkOps(remaining - {rest[0].name}, rest[1..], hash) == total
  {
    var step := Action(remaining, rest[0], hash);
    var tail := WalkOps(remaining - {rest[0].name}, rest[1..], hash);
    AppendAssociates(issued, step, tail);
  }

  lemma AppendAssociates<T>(a: seq<T>, b: seq<T>, c: seq<T>)
    ensures a + (b + c) == (a + b) + c
  {
  }

  /** The index the walk leaves holds exactly the names no new pool carries. */
  lemma {:induction false} UnvisitedIsLeftover(remaining: map<string, MachinePoolState>, news: seq<MachinePoolState>)
    ensures Unvisited(remaining, news) == remaining - Names(news)
    decreases |news|
  {
    if news != [] {
      UnvisitedIsLeftover(remaining - {news[0].name}, news[1..]);
      assert Names(news) == {news[0].name} + Names(news[1..]) by {
        assert news == [news[0]] + news[1..];
      }
    }
  }

  /**
   * The walk's calls followed by the deletes: a failed walk is followed by no
   * delete, a complete one by the deletes' own outcome.
   */
  lemma PassComposes(rejects: (nat, PoolOp) -> bool, base: nat, walk: seq<PoolOp>, leftover: set<string>,
                     walked: seq<PoolOp>, walkFailed: bool, deleted: seq<string>, failed: bool)
    requires IsPrefix(walked, walk) && Outcome(rejects, base, walked, walkFailed)
    requires walkFailed ==> deleted == [] && failed
    requires !walkFailed ==> walked == walk && Outcome(rejects, base + |walked|, DeleteOps(deleted), failed)
    requires !walkFailed ==> NoDuplicates(deleted) && (set n | n in deleted) <= leftover
    requires !walkFailed && !failed ==> (set n | n in deleted) == leftover
    ensures PassOutcome(rejects, base, walk, leftover, walked + DeleteOps(deleted), deleted, failed)
  {
    if walkFailed {
      assert (set n | n in deleted) == {};
      assert DeleteOps(deleted) == [] && walked + [] == walked;
      PrefixOfConcat(walked, walk, []);
    } else {
      OutcomeAfter(rejects, base, walked, DeleteOps(deleted), failed);
      PrefixOfSum(walked + DeleteOps(deleted), []);
      assert walked + DeleteOps(deleted) + [] == walked + DeleteOps(deleted);
    }
  }

  lemma PrefixOfSum(a: seq<PoolOp>, b: seq<PoolOp>)
    ensures IsPrefix(a, a + b)
  {
    assert (a + b)[..|a|] == a;
  }

  lemma PrefixOfConcat(a: seq<PoolOp>, b: seq<PoolOp>, c: seq<PoolOp>)
    requires IsPrefix(a, b)
    ensures IsPrefix(a, b + c)
  {
    assert (b + c)[..|a|] == b[..|a|];
  }

  /** An accepted run followed by one rejected call failed at that call. */
  lemma RejectedLast(rejects: (nat, PoolOp) -> bool, base: nat, ops: seq<PoolOp>, op: PoolOp)
    requires AcceptedFrom(rejects, base, ops) && rejects(base + |ops|, op)
    ensures Outcome(rejects, base, ops + [op], true)
  {
    assert (ops + [op])[..|ops|] == ops;
  }

  lemma AcceptedExtend(rejects: (nat, PoolOp) -> bool, base: nat, ops: seq<PoolOp>, op: PoolOp)
    requires AcceptedFrom(rejects, base, ops) && !rejects(base + |ops|, op)
    ensures AcceptedFrom(rejects, base, ops + [op])
  {
    forall k | 0 <= k < |ops| + 1
      ensures !rejects(base + k, (ops + [op])[k])
    {
      if k < |ops| {
        assert (ops + [op])[k] == ops[k];
      }
    }
  }

  /** An accepted run followed by a run with some outcome has that outcome as a whole. */
  lemma OutcomeAfter(rejects: (nat, PoolOp) -> bool, base: nat, first: seq<PoolOp>,
                     second: seq<PoolOp>, failed: bool)
    requires AcceptedFrom(rejects, base, first)
    requires Outcome(rejects, base + |first|, second, failed)
    ensures Outcome(rejects, base, first + second, failed)
  {
    var all := first + second;
    var n := if failed then |all| - 1 else |all|;
    forall k | 0 <= k < n
      ensures !rejects(base + k, all[k])
    {
      if k >= |first| {
        assert all[k] == second[k - |first|];
      }
    }
    if failed {
      assert all[..n] == first + second[..|second| - 1];
      assert all[|all| - 1] == second[|second| - 1];
    }
  }

  // ---------------------------------------------------------------------------
  // What a pass does, stated per pool
  // ---------------------------------------------------------------------------

  /** The walk only creates and updates, and only pools of the new set. */
  lemma {:induction false} WalkOnlyTouchesNewPools(remaining: map<string, MachinePoolState>,
                                                   news: seq<MachinePoolState>, hash: MachinePoolState -> int)
    ensures forall op :: op in WalkOps(remaining, news, hash) ==> !op.DeletePool? && op.pool in news
    decreases |news|
  {
    if news != [] {
      WalkOnlyTouchesNewPools(remaining - {news[0].name}, news[1..], hash);
      assert forall p :: p in news[1..] ==> p in news;
    }
  }

  /** `a` and `b` hold the same entries under the names of `pools`. */
  predicate AgreeOn(a: map<string, MachinePoolState>, b: map<string, MachinePoolState>, pools: seq<MachinePoolState>)
  {
    forall i :: 0 <= i < |pools| ==>
      (pools[i].name in a <==> pools[i].name in b)
      && (pools[i].name in a ==> a[pools[i].name] == b[pools[i].name])
  }

  lemma {:induction false} WalkIsPlanFrom(remaining: map<string, MachinePoolState>,
                                          index: map<string, MachinePoolState>,
                                          news: seq<MachinePoolState>, hash: MachinePoolState -> int)
    requires DistinctNames(news) && AgreeOn(remaining, index, news)
    ensures WalkOps(remaining, news, hash) == Plan(index, news, hash)
    decreases |news|
  {
    if news != [] {
      var rest := news[1..];
      assert forall i :: 0 <= i < |rest| ==> rest[i] == news[i + 1];
      assert Action(remaining, news[0], hash) == Action(index, news[0], hash) by {
        assert 0 < |news|;
      }
      WalkIsPlanFrom(remaining - {news[0].name}, index, rest, hash);
    }
  }

  /** With distinct names in the new set, removing walked names changes no decision. */
  lemma WalkIsPlan(index: map<string, MachinePoolState>, news: seq<MachinePoolState>,
                   hash: MachinePoolState -> int)
    requires DistinctNames(news)
    ensures WalkOps(index, news, hash) == Plan(index, news, hash)
  {
    WalkIsPlanFrom(index, index, news, hash);
  }

  /** A new pool gets exactly the call Action decides against the untouched index. */
  lemma {:induction false} PlanMembership(index: map<string, MachinePoolState>, news: seq<MachinePoolState>,
                                          hash: MachinePoolState -> int, op: PoolOp)
    requires !op.DeletePool?
    ensures op in Plan(index, news, hash) <==> op.pool in news && op in Action(index, op.pool, hash)
    decreases |news|
  {
    if news != [] {
      PlanMembership(index, news[1..], hash, op);
      assert news == [news[0]] + news[1..];
      if op in Action(index, news[0], hash) {
        assert op.pool == news[0];
      }
    }
  }

  /**
   * For a new set of distinct names: a pool is created exactly when its name
   * is not among the old names, updated exactly when it is and the hashes
   * differ, and otherwise left alone.
   */
  lemma Classification(olds: seq<MachinePoolState>, news: seq<MachinePoolState>,
                       hash: MachinePoolState -> int, pool: MachinePoolState)
    requires DistinctNames(news)
    ensures CreatePool(pool) in WalkOps(Index(olds), news, hash)
          <==> pool in news && pool.name !in Names(olds)
    ensures UpdatePool(pool) in WalkOps(Index(olds), news, hash)
          <==> pool in news && pool.name in Names(olds) && hash(pool) != hash(Index(olds)[pool.name])
  {
    WalkIsPlan(Index(olds), news, hash);
    PlanMembership(Index(olds), news, hash, CreatePool(pool));
    PlanMembership(Index(olds), news, hash, UpdatePool(pool));
  }

  /** In a set of distinct names the index finds every pool under its own name. */
  lemma {:induction false} IndexOfDistinct(pools: seq<MachinePoolState>, i: nat)
    requires DistinctNames(pools) && i < |pools|
    ensures Index(pools)[pools[i].name] == pools[i]
  {
    var k := |pools| - 1;
    if i < k {
      IndexOfDistinct(pools[..k], i);
    }
  }

  /** Reconciling a set of distinct names against itself issues no call at all. */
  lemma Idempotent(pools: seq<MachinePoolState>, hash: MachinePoolState -> int)
    requires DistinctNames(pools)
    ensures WalkOps(Index(pools), pools, hash) == []
    ensures Leftover(pools, pools) == {}
  {
    forall i | 0 <= i < |pools|
      ensures Action(Index(pools), pools[i], hash) == []
    {
      IndexOfDistinct(pools, i);
    }
    WalkIsPlan(Index(pools), pools, hash);
    PlanEmpty(Index(pools), pools, hash);
  }

  lemma {:induction false} PlanEmpty(index: map<string, MachinePoolState>, news: seq<MachinePoolState>,
                                     hash: MachinePoolState -> int)
    requires forall i :: 0 <= i < |news| ==> Action(index, news[i], hash) == []
    ensures Plan(index, news, hash) == []
    decreases |news|
  {
    if news != [] {
      assert forall i :: 0 <= i < |news| - 1 ==> news[1..][i] == news[i + 1];
      PlanEmpty(index, news[1..], hash);
    }
  }

  // ---------------------------------------------------------------------------
  // One call per name
  // ---------------------------------------------------------------------------

  /** The pool name a call is about. */
  function OpName(op: PoolOp): string
  {
    match op
    case CreatePool(p) => p.name
    case UpdatePool(p) => p.name
    case DeletePool(n) => n
  }

  predicate DistinctOpNames(ops: seq<PoolOp>)
  {
    forall i, j :: 0 <= i < j < |ops| ==> OpName(ops[i]) != OpName(ops[j])
  }

  /** Every call of the walk is about a new name, and there are no more calls than new pools. */
  lemma {:induction false} WalkNamesWithin(remaining: map<string, MachinePoolState>, news: seq<MachinePoolState>,
                                           hash: MachinePoolState -> int)
    ensures forall op :: op in WalkOps(remaining, news, hash) ==> OpName(op) in Names(news)
    ensures |WalkOps(remaining, news, hash)| <= |news|
    decreases |news|
  {
    if news != [] {
      WalkNamesWithin(remaining - {news[0].name}, news[1..], hash);
      assert Names(news) == {news[0].name} + Names(news[1..]) by {
        assert news == [news[0]] + news[1..];
      }
    }
  }

  /** For a new set of distinct names the walk makes at most one call per name, each about a new name. */
  lemma {:induction false} WalkNamesDistinct(remaining: map<string, MachinePoolState>, news: seq<MachinePoolState>,
                                             hash: MachinePoolState -> int)
    requires DistinctNames(news)
    ensures DistinctOpNames(WalkOps(remaining, news, hash))
    ensures forall op :: op in WalkOps(remaining, news, hash) ==> OpName(op) in Names(news)
    ensures |WalkOps(remaining, news, hash)| <= |news|
    decreases |news|
  {
    WalkNamesWithin(remaining, news, hash);
    if news != [] {
      var rest := news[1..];
      assert forall i :: 0 <= i < |rest| ==> rest[i] == news[i + 1];
      WalkNamesDistinct(remaining - {news[0].name}, rest, hash);
      assert news[0].name !in Names(rest);
      DistinctOpNamesConcat(Action(remaining, news[0], hash), WalkOps(remaining - {news[0].name}, rest, hash));
    }
  }

  /**
   * A whole pass, walk then deletes, touches each name at most once when the
   * new set has distinct names: the deleted names are old names that no new
   * pool carries, so no name is both updated and deleted.
   */
  lemma OneCallPerName(olds: seq<MachinePoolState>, news: seq<MachinePoolState>,
                       hash: MachinePoolState -> int, deleted: seq<string>)
    requires DistinctNames(news)
    requires NoDuplicates(deleted) && (set n | n in deleted) <= Leftover(olds, news)
    ensures DistinctOpNames(WalkOps(Index(olds), news, hash) + DeleteOps(deleted))
  {
    var w := WalkOps(Index(olds), news, hash);
    WalkNamesDistinct(Index(olds), news, hash);
    DeleteOpNames(deleted);
    forall x, y | x in w && y in DeleteOps(deleted)
      ensures OpName(x) != OpName(y)
    {
      assert OpName(y) in Leftover(olds, news);
    }
    DistinctOpNamesConcat(w, DeleteOps(deleted));
  }

  lemma DeleteOpNames(names: seq<string>)
    requires NoDuplicates(names)
    ensures DistinctOpNames(DeleteOps(names))
    ensures forall op :: op in DeleteOps(names) ==> OpName(op) in names
  {
    var d := DeleteOps(names);
    assert forall k :: 0 <= k < |d| ==> OpName(d[k]) == names[k];
  }

  lemma DistinctOpNamesConcat(a: seq<PoolOp>, b: seq<PoolOp>)
    requires DistinctOpNames(a) && DistinctOpNames(b)
    requires forall x, y :: x in a && y in b ==> OpName(x) != OpName(y)
    ensures DistinctOpNames(a + b)
  {
    forall i, j | 0 <= i < j < |a + b|
      ensures OpName((a + b)[i]) != OpName((a + b)[j])
    {
      if j < |a| {
        assert (a + b)[i] == a[i] && (a + b)[j] == a[j];
      } else if i >= |a| {
        assert (a + b)[i] == b[i - |a|] && (a + b)[j] == b[j - |a|];
      } else {
        assert (a + b)[i] in a && (a + b)[j] in b;
      }
    }
  }

  /**
   * Counting the calls of a pass that fails nowhere: creates and updates go
   * to new names, deletes to leftover old names, so there are at most as many
   * calls as names in both sets together.
   */
  lemma CallCount(olds: seq<MachinePoolState>, news: seq<MachinePoolState>,
                  hash: MachinePoolState -> int, deleted: seq<string>)
    requires DistinctNames(news)
    requires NoDuplicates(deleted) && (set n | n in deleted) == Leftover(olds, news)
    ensures |WalkOps(Index(olds), news, hash) + DeleteOps(deleted)| <= |Names(olds) + Names(news)|
  {
    WalkNamesDistinct(Index(olds), news, hash);
    NamesCount(news);
    DeletedCount(deleted);
    assert Names(olds) + Names(news) == Names(news) + Leftover(olds, news);
    assert Names(news) !! Leftover(olds, news);
  }

  /** Distinct names: one name per pool. */
  lemma {:induction false} NamesCount(pools: seq<MachinePoolState>)
    requires DistinctNames(pools)
    ensures |Names(pools)| == |pools|
  {
    if pools != [] {
      var k := |pools| - 1;
      NamesCount(pools[..k]);
      assert Names(pools) == Names(pools[..k]) + {pools[k].name} by {
        assert pools == pools[..k] + [pools[k]];
      }
      assert pools[k].name !in Names(pools[..k]);
    }
  }

  lemma {:induction false} DeletedCount(names: seq<string>)
    requires NoDuplicates(names)
    ensures |set n | n in names| == |names|
  {
    if names != [] {
      var k := |names| - 1;
      DeletedCount(names[..k]);
      assert (set n | n in names) == (set n | n in names[..k]) + {names[k]} by {
        assert names == names[..k] + [names[k]];
      }
      assert names[k] !in names[..k];
    }
  }

  // ---------------------------------------------------------------------------
  // A worked pass
  // ---------------------------------------------------------------------------

  function SamplePool(name: string, count: int, controlPlane: bool): MachinePoolState
  {
    MachinePoolState(controlPlane, false, name, count, "RollingUpdateScaleOut",
                     InstanceTypeState(None, 0, 65, 8192, 4), [])
  }

  /**
   * Observed {worker: 2, edge: 1}, declared {worker: 3, control: 1}: the
   * worker is updated, the control pool created and the edge pool deleted.
   */
  lemma WorkerControlEdge(hash: MachinePoolState -> int)
    requires hash(SamplePool("worker", 3, false)) != hash(SamplePool("worker", 2, false))
    ensures var olds := [SamplePool("worker", 2, false), SamplePool("edge", 1, false)];
            var news := [SamplePool("worker", 3, false), SamplePool("control", 1, true)];
            WalkOps(Index(olds), news, hash)
              == [UpdatePool(SamplePool("worker", 3, false)), CreatePool(SamplePool("control", 1, true))]
            && Leftover(olds, news) == {"edge"}
  {
    var w2, e1 := SamplePool("worker", 2, false), SamplePool("edge", 1, false);
    var w3, c1 := SamplePool("worker", 3, false), SamplePool("control", 1, true);
    var olds, news := [w2, e1], [w3, c1];
    assert Names(olds) == {"worker", "edge"} by {
      assert olds[0] == w2 && olds[1] == e1;
    }
    assert Names(news) == {"worker", "control"} by {
      assert news[0] == w3 && news[1] == c1;
    }
    assert "edge" != "worker" && "edge" != "control" && "worker" != "control";
    var index := Index(olds);
    assert index["worker"] == w2 by {
      assert olds[..1] == [w2];
    }
    assert news[1..] == [c1] && news[1..][1..] == [];
    assert Action(index, w3, hash) == [UpdatePool(w3)];
    assert Action(index - {"worker"}, c1, hash) == [CreatePool(c1)];
    assert Leftover(olds, news) == {"edge"};
  }
  /**
   * The walk does not check that new names are distinct. A second new pool
   * with a name already walked finds it removed from the index and is always
   * created, whatever the first pool led to.
   */
  lemma RepeatedNewName(remaining: map<string, MachinePoolState>, first: MachinePoolState,
                        second: MachinePoolState, hash: MachinePoolState -> int)
    requires first.name == second.name
    ensures WalkOps(remaining, [first, second], hash)
              == Action(remaining, first, hash) + [CreatePool(second)]
    ensures (!DistinctOpNames(WalkOps(remaining, [first, second], hash)))
            <==> (first.name !in remaining || hash(first) != hash(remaining[first.name]))
  {
    var rest := remaining - {first.name};
    assert second.name !in rest;
    assert [first, second][1..] == [second] && [second][1..] == [];
    assert WalkOps(rest, [second], hash) == [CreatePool(second)];
    var ops := WalkOps(remaining, [first, second], hash);
    if Action(remaining, first, hash) != [] {
      assert OpName(ops[0]) == OpName(ops[1]);
    }
  }

  /**
   * Two concrete passes with a repeated new name: an old name is updated and
   * then created, and with no old pools one name receives two creates, which
   * is more calls than the pass has names.
   */
  lemma RepeatedNewNameCalls(hash: MachinePoolState -> int)
    requires hash(SamplePool("a", 3, false)) != hash(SamplePool("a", 1, false))
    ensures WalkOps(Index([SamplePool("a", 1, false)]), [SamplePool("a", 3, false), SamplePool("a", 5, false)], hash)
              == [UpdatePool(SamplePool("a", 3, false)), CreatePool(SamplePool("a", 5, false))]
    ensures var news := [SamplePool("a", 3, false), SamplePool("a", 5, false)];
            |WalkOps(map[], news, hash)| == 2 > |Names([]) + Names(news)|
  {
    var a1, a3, a5 := SamplePool("a", 1, false), SamplePool("a", 3, false), SamplePool("a", 5, false);
    assert [a1][..0] == [];
    assert Index([a1])["a"] == a1;
    RepeatedNewName(Index([a1]), a3, a5, hash);
    RepeatedNewName(map[], a3, a5, hash);
    assert Names([a3, a5]) == {"a"} by {
      assert [a3, a5][0] == a3 && [a3, a5][1] == a5;
    }
  }

}
