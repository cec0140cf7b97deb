/** A bounded map from task id to result. Storing into a full store first
    evicts the results with the oldest completion times. */
module ResultStore {
  import opened JavaTypes
  import opened TaskResults

  /** Every result kept in `m` under a key of `kept` completed no earlier than
      every result in `m` outside `kept`. */
  ghost predicate KeepsNewest(m: map<string, TaskResult>, kept: set<string>)
    reads m.Values
  {
    forall k, j :: k in kept && k in m && j in m && j !in kept ==>
      m[j].completedAt <= m[k].completedAt
  }

  /** `r` is `m` restricted to some of its keys. */
  predicate SubMap(r: map<string, TaskResult>, m: map<string, TaskResult>)
  {
    r.Keys <= m.Keys && forall k :: k in r ==> r[k] == m[k]
  }

  /** `ConcurrentHashMap.size()`: the entry count, capped at the largest `int`. */
  function JavaSize(n: nat): (s: Int32)
    ensures 0 <= s <= n
    ensures n < 0x8000_0000 ==> s == n
  {
    if n < 0x8000_0000 then n else 0x7FFF_FFFF
  }

  /** The `limit` argument `storeResult` passes to `Stream.limit`, computed
      in Java `int` arithmetic. */
  function EvictionLimit(size: nat, maxResultsToKeep: Int32): (l: Int32)
    ensures 1 <= maxResultsToKeep <= JavaSize(size) ==> l == JavaSize(size) - maxResultsToKeep + 1
  {
    Wrap32(JavaSize(size) - maxResultsToKeep + 1)
  }

  /** Whether `storeResult` throws on a store of `size` entries: it evicts,
      and the eviction limit is negative. */
  predicate EvictionThrows(size: nat, maxResultsToKeep: Int32)
    ensures EvictionThrows(size, maxResultsToKeep) <==>
      0x8000_0000 <= JavaSize(size) - maxResultsToKeep + 1 < 0x1_0000_0000
    ensures EvictionThrows(size, maxResultsToKeep) ==> maxResultsToKeep <= 0
  {
    JavaSize(size) >= maxResultsToKeep && EvictionLimit(size, maxResultsToKeep) < 0
  }

  /** How many entries a store of `size` entries evicts before an insert. */
  function EvictionCount(size: nat, maxResultsToKeep: Int32): (n: nat)
    requires !EvictionThrows(size, maxResultsToKeep)
    ensures n <= size
    ensures 1 <= maxResultsToKeep && size < 0x8000_0000 ==>
      n == if size < maxResultsToKeep then 0 else size - maxResultsToKeep + 1
  {
    if JavaSize(size) < maxResultsToKeep then 0
    else
      var limit := EvictionLimit(size, maxResultsToKeep);
      if limit < size then limit else size
  }

  /** With a positive capacity the eviction never throws and leaves room. */
  lemma PositiveCapacityNeverThrows(size: nat, maxResultsToKeep: Int32)
    requires 1 <= maxResultsToKeep && size <= maxResultsToKeep
    ensures !EvictionThrows(size, maxResultsToKeep)
    ensures size - EvictionCount(size, maxResultsToKeep) < maxResultsToKeep
  {
  }

  /** A key among `keys` whose result in `m` has the earliest completion time. */
  method OldestKey(m: map<string, TaskResult>, keys: set<string>) returns (k: string)
    requires keys != {} && keys <= m.Keys
    ensures k in keys
    ensures forall j :: j in keys ==> m[k].completedAt <= m[j].completedAt
  {
    var unseen := keys;
    k :| k in unseen;
    unseen := unseen - {k};
    while unseen != {}
      invariant unseen <= keys && k in keys
      invariant forall j :: j in keys && j !in unseen ==> m[k].completedAt <= m[j].completedAt
      decreases unseen
    {
      var j :| j in unseen;
      if m[j].completedAt < m[k].completedAt {
        k := j;
      }
      unseen := unseen - {j};
    }
  }

  /** A key among `keys` whose result in `m` has the latest completion time. */
  method NewestKey(m: map<string, TaskResult>, keys: set<string>) returns (k: string)
    requires keys != {} && keys <= m.Keys
    ensures k in keys
    ensures forall j :: j in keys ==> m[j].completedAt <= m[k].completedAt
  {
    var unseen := keys;
    k :| k in unseen;
    unseen := unseen - {k};
    while unseen != {}
      invariant unseen <= keys && k in keys
      invariant forall j :: j in keys && j !in unseen ==> m[j].completedAt <= m[k].completedAt
      decreases unseen
    {
      var j :| j in unseen;
      if m[k].completedAt < m[j].completedAt {
        k := j;
      }
      unseen := unseen - {j};
    }
  }

  lemma UpdateCard(m: map<string, TaskResult>, k: string, v: TaskResult)
    ensures |m[k := v]| <= |m| + 1
  {
    assert m[k := v].Keys == m.Keys + {k};
  }

  /** Adding to the kept keys a newest key among the others keeps the
      kept ones newest. */
  lemma KeepNewest(m: map<string, TaskResult>, kept: set<string>, k: string)
    requires KeepsNewest(m, kept) && k in m
    requires forall j :: j in m && j !in kept ==> m[j].completedAt <= m[k].completedAt
    ensures KeepsNewest(m, kept + {k})
  {
  }

  /** Dropping from the kept keys an oldest one keeps the rest newest. */
  lemma DropOldest(m: map<string, TaskResult>, kept: set<string>, k: string)
    requires KeepsNewest(m, kept) && k in m
    requires forall j :: j in m && j in kept ==> m[k].completedAt <= m[j].completedAt
    ensures KeepsNewest(m, kept - {k})
  {
  }

  /** After `i` steps of evicting the oldest entries of `m`: `evicted`
      holds `i` keys, and `remaining` the keys still in the map. */
  ghost predicate EvictingOldest(m: map<string, TaskResult>, evicted: set<string>, remaining: set<string>, i: nat)
    reads m.Values
  {
    evicted <= m.Keys && |evicted| == i &&
    remaining == m.Keys - evicted && |remaining| == |m| - i &&
    KeepsNewest(m, remaining)
  }

  /** Moving a remaining key into `evicted` keeps `remaining` the rest. */
  lemma MoveKey(m: map<string, TaskResult>, evicted: set<string>, remaining: set<string>, k: string)
    requires evicted <= m.Keys && remaining == m.Keys - evicted && k in remaining
    ensures evicted + {k} <= m.Keys && |evicted + {k}| == |evicted| + 1
    ensures remaining - {k} == m.Keys - (evicted + {k}) && |remaining - {k}| == |remaining| - 1
  {
  }

  /** Evicting an oldest remaining key is one more step of the eviction. */
  lemma EvictOne(m: map<string, TaskResult>, evicted: set<string>, remaining: set<string>, i: nat, k: string)
    requires EvictingOldest(m, evicted, remaining, i)
    requires k in remaining
    requires forall j :: j in remaining ==> m[k].completedAt <= m[j].completedAt
    ensures EvictingOldest(m, evicted + {k}, remaining - {k}, i + 1)
  {
    MoveKey(m, evicted, remaining, k);
    DropOldest(m, remaining, k);
  }

  /** Remove the `n` entries of `m` with the oldest completion times, one
      at a time, as the sorted stream's `forEach(remove)` does. */
  method EvictOldest(m: map<string, TaskResult>, n: nat) returns (rest: map<string, TaskResult>, evicted: set<string>)
    requires n <= |m|
    ensures evicted <= m.Keys && |evicted| == n
    ensures rest == m - evicted
    ensures KeepsNewest(m, m.Keys - evicted)
  {
    evicted := {};
    var remaining := m.Keys;
    var i := 0;
    while i < n
      invariant i <= n
      invariant EvictingOldest(m, evicted, remaining, i)
    {
      var k := OldestKey(m, remaining);
      EvictOne(m, evicted, remaining, i, k);
      evicted := evicted + {k};
      remaining := remaining - {k};
      i := i + 1;
    }
    rest := m - evicted;
  }

  /** After `i` steps of collecting the newest entries of `m`: `recent`
      holds `i` of them, and `remaining` the keys not yet taken. */
  ghost predicate CollectingNewest(m: map<string, TaskResult>, recent: map<string, TaskResult>, remaining: set<string>, i: nat)
    reads m.Values
  {
    SubMap(recent, m) && |recent| == i &&
    remaining == m.Keys - recent.Keys && |remaining| == |m| - i &&
    KeepsNewest(m, recent.Keys)
  }

  /** Moving a remaining key's entry into `recent` keeps `recent` a part of
      `m` and `remaining` the rest of its keys. */
  lemma TakeEntry(m: map<string, TaskResult>, recent: map<string, TaskResult>, remaining: set<string>, k: string)
    requires SubMap(recent, m) && remaining == m.Keys - recent.Keys && k in remaining
    ensures SubMap(recent[k := m[k]], m)
    ensures |recent[k := m[k]]| == |recent| + 1
    ensures remaining - {k} == m.Keys - recent[k := m[k]].Keys
  {
    assert k !in recent;
    assert recent[k := m[k]].Keys == recent.Keys + {k};
  }

  /** Taking a newest remaining key is one more step of the collection. */
  lemma CollectNewest(m: map<string, TaskResult>, recent: map<string, TaskResult>, remaining: set<string>, i: nat, k: string)
    requires CollectingNewest(m, recent, remaining, i)
    requires k in remaining
    requires forall j :: j in remaining ==> m[j].completedAt <= m[k].completedAt
    ensures CollectingNewest(m, recent[k := m[k]], remaining - {k}, i + 1)
  {
    TakeEntry(m, recent, remaining, k);
    KeepNewest(m, recent.Keys, k);
  }

  /** The `n` entries of `m` with the latest completion times, taken one at
      a time, as the descending sort followed by `limit(n)` yields them. */
  method NewestEntries(m: map<string, TaskResult>, n: nat) returns (recent: map<string, TaskResult>)
    requires n <= |m|
    ensures SubMap(recent, m) && |recent| == n
    ensures KeepsNewest(m, recent.Keys)
  {
    var remaining := m.Keys;
    recent := map[];
    var i := 0;
    while i < n
      invariant i <= n
      invariant CollectingNewest(m, recent, remaining, i)
    {
      var k := NewestKey(m, remaining);
      CollectNewest(m, recent, remaining, i, k);
      recent := recent[k := m[k]];
      remaining := remaining - {k};
      i := i + 1;
    }
  }

  class TaskResultStore {
    var results: map<string, TaskResult>
    const maxResultsToKeep: Int32

    /** With a positive capacity the store never holds more than it. */
    ghost predicate Valid()
      reads this
    {
      1 <= maxResultsToKeep ==> |results| <= maxResultsToKeep
    }

    constructor (maxResultsToKeep: Int32)
      ensures Valid()
      ensures results == map[] && this.maxResultsToKeep == maxResultsToKeep
    {
      this.maxResultsToKeep := maxResultsToKeep;
      results := map[];
    }

    /** `getResult`: `null` (here `null` as well) when no result has the id. */
    function GetResult(taskId: string): (r: TaskResult?)
      reads this
      ensures r == null <==> taskId !in results
      ensures r != null ==> r == results[taskId]
    {
      if taskId in results then results[taskId] else null
    }

    /** `getAllResults`: a snapshot of every retained entry. */
    function GetAllResults(): (m: map<string, TaskResult>)
      reads this
      ensures SubMap(m, results) && m.Keys == results.Keys
    {
      results
    }

    /** `storeResult`: when the store holds `maxResultsToKeep` entries or more,
        remove the `size - maxResultsToKeep + 1` oldest ones (all of them if
        that exceeds the size), then put `result` under its task id. `ok` is
        false when that count, computed in `int` arithmetic, is negative: the
        stream then throws IllegalArgumentException before anything changes.
        `evicted` names the keys removed. */
    method StoreResult(result: TaskResult) returns (ok: bool, ghost evicted: set<string>)
      requires Valid()
      modifies this
      ensures Valid()
      ensures ok <==> !EvictionThrows(|old(results)|, maxResultsToKeep)
      ensures |old(results)| < maxResultsToKeep ==>
        ok && evicted == {} && results == old(results)[result.taskId := result]
      ensures !ok ==> results == old(results) && evicted == {}
      ensures ok ==> evicted <= old(results).Keys
      ensures ok ==> |evicted| == EvictionCount(|old(results)|, maxResultsToKeep)
      ensures ok ==> KeepsNewest(old(results), old(results).Keys - evicted)
      ensures ok ==> results == (old(results) - evicted)[result.taskId := result]
      ensures ok ==> GetResult(result.taskId) == result
    {
      ghost var before := results;
      evicted := {};
      var size := |results|;
      if JavaSize(size) >= maxResultsToKeep {
        var limit := EvictionLimit(size, maxResultsToKeep);
        if limit < 0 {
          return false, {};
        }
        var n := EvictionCount(size, maxResultsToKeep);
        if 1 <= maxResultsToKeep {
          PositiveCapacityNeverThrows(size, maxResultsToKeep);
        }
        results, evicted := EvictOldest(results, n);
      }
      UpdateCard(results, result.taskId, result);
      results := results[result.taskId := result];
      ok := true;
    }

    /** `getRecentResults`: the `limit` entries with the latest completion
        times (all of them if the store holds fewer). A negative limit makes
        `Stream.limit` throw. The store is not changed. */
    method GetRecentResults(limit: Int32) returns (r: Result<map<string, TaskResult>, Exception>)
      ensures r.Failure? <==> limit < 0
      ensures r.Failure? ==> r.error.IllegalArgumentException?
      ensures r.Success? ==> SubMap(r.value, results)
      ensures r.Success? ==> |r.value| == if limit < |results| then limit else |results|
      ensures r.Success? ==> KeepsNewest(results, r.value.Keys)
    {
      if limit < 0 {
        return Failure(IllegalArgumentException("limit must not be negative"));
      }
      var n := if limit < |results| then limit else |results|;
      var recent := NewestEntries(results, n);
      return Success(recent);
    }
  }
}
