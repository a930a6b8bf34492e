/** shard-router.js and the wakeup filter of base-worker.js. */
module ShardRouter {
  import opened Basics
  import Q = LeaseQueue
  import Runs = LeaseRuns

  /** The first eight hex digits of SHA-256 are an arbitrary number here. */
  function ComputeShardKey(hash: nat, total: nat): (key: nat)
    requires total >= 1
    ensures key < total && hash == (hash / total) * total + key
  {
    hash % total
  }

  /** A remainder by zero is NaN in the source and equals no index. */
  predicate Owns(s: nat, index: nat, workers: nat) { workers != 0 && s % workers == index }

  function OwnedBelow(n: nat, index: nat, workers: nat): seq<nat> {
    if n == 0 then []
    else OwnedBelow(n - 1, index, workers) + (if Owns(n - 1, index, workers) then [n - 1] else [])
  }

  function AllBelow(n: nat): (r: seq<nat>)
    ensures |r| == n && forall i :: 0 <= i < n ==> r[i] == i
  {
    seq(n, i => i)
  }

  function WorkerShards(index: nat, workers: nat, total: nat): seq<nat> {
    var own := OwnedBelow(total, index, workers);
    if |own| > 0 then own else AllBelow(total)
  }

  /** `cache` holds the affinities of worker and queue pairs. */
  class Router {
    var cache: map<(string, string), seq<nat>>
    const totalShards: map<string, nat>

    constructor (totalShards: map<string, nat>)
      ensures this.totalShards == totalShards && cache == map[]
    {
      this.totalShards := totalShards;
      cache := map[];
    }

    /** Queues without an entry have eight shards. */
    function Total(queue: string): nat { if queue in totalShards then totalShards[queue] else 8 }

    method ComputeWorkerShards(index: nat, workers: nat, queue: string) returns (shards: seq<nat>)
      ensures shards == WorkerShards(index, workers, Total(queue))
    {
      var total := Total(queue);
      shards := [];
      var s := 0;
      while s < total
        invariant 0 <= s <= total
        invariant shards == OwnedBelow(s, index, workers)
      {
        if workers != 0 && s % workers == index {
          shards := shards + [s];
        }
        s := s + 1;
      }
      if |shards| == 0 {
        shards := AllBelow(total);
      }
    }

    method RegisterWorkerShards(worker: string, queue: string, shards: seq<nat>)
      modifies this`cache
      ensures cache == old(cache)[(worker, queue) := shards]
    {
      cache := cache[(worker, queue) := shards];
    }

    /** `found`: the active rows of queue_shards for this worker, or None if the query failed. An empty
        cached array counts as present. */
    method GetWorkerShards(worker: string, queue: string, found: Option<seq<nat>>) returns (shards: seq<nat>)
      modifies this`cache
      ensures shards == if (worker, queue) in old(cache) then old(cache)[(worker, queue)]
                        else if found.Some? && |found.value| > 0 then found.value else AllBelow(Total(queue))
      ensures (worker, queue) !in old(cache) && found == None && queue !in totalShards ==>
              shards == [0, 1, 2, 3, 4, 5, 6, 7]
      ensures cache == if (worker, queue) !in old(cache) && found.Some? && |found.value| > 0
                       then old(cache)[(worker, queue) := shards] else old(cache)
    {
      if (worker, queue) in cache {
        return cache[(worker, queue)];
      }
      if found.Some? && |found.value| > 0 {
        cache := cache[(worker, queue) := found.value];
        return found.value;
      }
      shards := AllBelow(Total(queue));
    }

    method ClearCache(worker: string, queue: string)
      modifies this`cache
      ensures cache == old(cache) - {(worker, queue)}
    {
      cache := cache - {(worker, queue)};
    }
  }

  // ----- properties -----

  lemma {:induction false} OwnedIsExact(n: nat, index: nat, workers: nat, s: nat)
    ensures s in OwnedBelow(n, index, workers) <==> s < n && Owns(s, index, workers)
  {
    if n == 0 {
    } else {
      OwnedIsExact(n - 1, index, workers, s);
    }
  }

  /** How many of the numbers below n are congruent to `index`. */
  function ShareOf(n: nat, index: nat, workers: nat): nat
    requires workers >= 1
  {
    n / workers + (if index < n % workers then 1 else 0)
  }

  lemma NextQuotient(n: nat, w: nat)
    requires w >= 1
    ensures (n + 1) / w == n / w + (if n % w == w - 1 then 1 else 0)
    ensures (n + 1) % w == (if n % w == w - 1 then 0 else n % w + 1)
  {
    var q, r := n / w, n % w;
    assert n + 1 == q * w + (r + 1);
    if r == w - 1 {
      assert n + 1 == (q + 1) * w + 0 by { assert (q + 1) * w == q * w + w; }
      QuotientIsUnique(n + 1, w, q + 1, 0);
    } else {
      QuotientIsUnique(n + 1, w, q, r + 1);
    }
  }

  lemma {:induction false} OwnedCount(n: nat, index: nat, workers: nat)
    requires workers >= 1 && index < workers
    ensures |OwnedBelow(n, index, workers)| == ShareOf(n, index, workers)
  {
    if n == 0 {
      QuotientIsUnique(0, workers, 0, 0);
    } else {
      OwnedCount(n - 1, index, workers);
      NextQuotient(n - 1, workers);
    }
  }

  lemma ExactShards(workers: nat, total: nat, i: nat, s: nat)
    requires 1 <= workers <= total && i < workers
    ensures s in WorkerShards(i, workers, total) <==> s < total && Owns(s, i, workers)
  {
    AtLeastOne(workers, total, i);
    OwnedIsExact(total, i, workers, s);
  }

  /** With at least as many shards as workers: no shard belongs to two workers. */
  lemma ShardsAreDisjoint(workers: nat, total: nat, i: nat, j: nat, s: nat)
    requires 1 <= workers <= total && i < workers && j < workers && i != j
    ensures !(s in WorkerShards(i, workers, total) && s in WorkerShards(j, workers, total))
  {
    ExactShards(workers, total, i, s);
    ExactShards(workers, total, j, s);
  }

  /** ... and the sizes of two workers' sets differ by at most one. */
  lemma SharesAreFair(workers: nat, total: nat, i: nat, j: nat)
    requires 1 <= workers <= total && i < workers && j < workers
    ensures |WorkerShards(i, workers, total)| == ShareOf(total, i, workers)
    ensures -1 <= |WorkerShards(i, workers, total)| - |WorkerShards(j, workers, total)| <= 1
  {
    AtLeastOne(workers, total, i);
    OwnedCount(total, i, workers);
    AtLeastOne(workers, total, j);
    OwnedCount(total, j, workers);
  }

  lemma AtLeastOne(workers: nat, total: nat, i: nat)
    requires 1 <= workers && i < workers && i < total
    ensures |OwnedBelow(total, i, workers)| >= 1
  {
    QuotientIsUnique(i, workers, 0, i);
    OwnedIsExact(total, i, workers, i);
  }

  /** With more workers than shards, worker i below the number of shards owns exactly shard i, and
      every other worker falls back to all shards. */
  lemma SurplusWorkersTakeAll(workers: nat, total: nat, i: nat)
    requires 1 <= total < workers && i < workers
    ensures i < total ==> WorkerShards(i, workers, total) == [i]
    ensures i >= total ==> WorkerShards(i, workers, total) == AllBelow(total)
  {
    OwnedCount(total, i, workers);
    QuotientIsUnique(total, workers, 0, total);
    if i < total {
      AtLeastOne(workers, total, i);
      QuotientIsUnique(i, workers, 0, i);
      OwnedIsExact(total, i, workers, i);
    }
  }

  // ----- claims by shard -----

  /** Every claim passes the shards computed for the index of its worker. */
  predicate ClaimsOwnShards(steps: seq<Q.Step>, workers: nat, total: nat) {
    forall x :: x in steps && x.Claim? ==> x.worker < workers && x.shards == WorkerShards(x.worker, workers, total)
  }

  lemma {:induction false} ShardKeyStays(cfg: Q.Config, s: Q.State, steps: seq<Q.Step>, id: Q.JobId)
    requires id in s.rows
    ensures Runs.RowAt(cfg, s, steps, id).shardKey == s.rows[id].shardKey
    decreases |steps|
  {
    if steps == [] {
    } else {
      ShardKeyStays(cfg, Q.Apply(cfg, s, steps[0]), steps[1..], id);
    }
  }

  /** With at least as many shards as workers, over any run: a worker is given only rows whose shard key is
      congruent to its index, whatever else its claims and those of others do. */
  lemma ClaimsStayInShard(cfg: Q.Config, s: Q.State, steps: seq<Q.Step>, i: nat, id: Q.JobId, workers: nat, total: nat)
    requires 1 <= workers <= total && ClaimsOwnShards(steps, workers, total)
    requires id in s.rows && i < |steps| && Runs.EffectAt(cfg, s, steps, i, id) == Runs.WasClaimed
    ensures steps[i].Claim? && s.rows[id].shardKey < total && s.rows[id].shardKey % workers == steps[i].worker
  {
    var x, shard := steps[i], s.rows[id].shardKey;
    assert x in steps;
    ShardKeyStays(cfg, s, steps[..i], id);
    Runs.ExecKeys(cfg, s, steps[..i]);
    AtLeastOne(workers, total, x.worker);
    OwnedIsExact(total, x.worker, workers, shard);
    assert x.shards != [];
  }

  /** So no two workers are ever given rows of one shard. */
  lemma ShardsHaveOneWorker(cfg: Q.Config, s: Q.State, steps: seq<Q.Step>, i: nat, a: Q.JobId, j: nat, b: Q.JobId,
                            workers: nat, total: nat)
    requires 1 <= workers <= total && ClaimsOwnShards(steps, workers, total)
    requires a in s.rows && i < |steps| && Runs.EffectAt(cfg, s, steps, i, a) == Runs.WasClaimed
    requires b in s.rows && j < |steps| && Runs.EffectAt(cfg, s, steps, j, b) == Runs.WasClaimed
    requires s.rows[a].shardKey == s.rows[b].shardKey
    ensures steps[i].Claim? && steps[j].Claim? && steps[i].worker == steps[j].worker
  {
    ClaimsStayInShard(cfg, s, steps, i, a, workers, total);
    ClaimsStayInShard(cfg, s, steps, j, b, workers, total);
  }

  /** The wakeup filter: same table, and no shard given or a shard of this worker. */
  predicate MatchesWakeup(table: string, shards: seq<nat>, payloadTable: string, shard: Option<nat>) {
    payloadTable == table && (shard.Some? ==> shard.value in shards)
  }

  /** A worker is woken for exactly the shards it owns, and for a notice without a shard, of its own table
      only. */
  lemma WakesExactlyForItsShards(workers: nat, total: nat, i: nat, table: string, payloadTable: string, s: nat)
    requires 1 <= workers <= total && i < workers
    ensures MatchesWakeup(table, WorkerShards(i, workers, total), payloadTable, Some(s)) <==>
            payloadTable == table && s < total && s % workers == i
    ensures MatchesWakeup(table, WorkerShards(i, workers, total), payloadTable, None) <==> payloadTable == table
  {
    ExactShards(workers, total, i, s);
  }

  /** For any number of workers and shards, every job with a computed shard key is served: some worker's
      claim may take it as soon as it is pending and due, and the same worker is woken for it. */
  lemma EveryJobIsServed(workers: nat, total: nat, hash: nat, row: Q.Row, now: Q.Time, table: string)
    requires workers >= 1 && total >= 1 && row.shardKey == ComputeShardKey(hash, total)
    requires row.status == Q.Pending && (row.runAfter.Some? ==> row.runAfter.value <= now)
    ensures exists i: nat :: i < workers
                             && Q.Eligible(row, now, WorkerShards(i, workers, total), row.regionId)
                             && MatchesWakeup(table, WorkerShards(i, workers, total), table, Some(row.shardKey))
  {
    var i := row.shardKey % workers;
    OwnedIsExact(total, i, workers, row.shardKey);
    assert row.shardKey in WorkerShards(i, workers, total);
  }
}
