/** The pool of database servers: a queue of servers believed to work, used in rotation, and a queue
    of servers that failed, which are given another chance one at a time. */
module ConnectionRotation {
  import opened CommandTypes

  type Server = string

  datatype Pool = Pool(valid: seq<Server>, offline: seq<Server>, nextRetry: nat)

  /** One request: when it comes, and which servers answer at that time. */
  datatype Call = Call(now: nat, healthy: set<Server>)

  const RETRIEVE_MAX_TIME := 1500

  function NewPool(servers: seq<Server>): Pool
  {
    Pool(servers, [], 0)
  }

  predicate CanRetry(p: Pool, c: Call) {
    c.now > p.nextRetry
  }

  /** When the interval has passed, the first offline server goes to the end of the valid ones. */
  function Retried(p: Pool, c: Call): Pool
  {
    if !CanRetry(p, c) then p
    else if p.offline == [] then p.(nextRetry := c.now + RETRIEVE_MAX_TIME)
    else Pool(p.valid + [p.offline[0]], p.offline[1..], c.now + RETRIEVE_MAX_TIME)
  }

  /** Index of the first server that answers, or the number of servers. */
  function FirstHealthy(valid: seq<Server>, healthy: set<Server>): (k: nat)
    ensures k <= |valid| && (k < |valid| ==> valid[k] in healthy)
    ensures forall i :: 0 <= i < k ==> valid[i] !in healthy
  {
    if valid == [] || valid[0] in healthy then 0 else 1 + FirstHealthy(valid[1..], healthy)
  }

  /** The chosen server goes to the end of the queue, those that failed before it go offline. */
  function Probed(p: Pool, healthy: set<Server>): (Pool, Option<Server>)
  {
    var k := FirstHealthy(p.valid, healthy);
    if k == |p.valid| then (p.(valid := [], offline := p.offline + p.valid), None)
    else (p.(valid := p.valid[k + 1..] + [p.valid[k]], offline := p.offline + p.valid[..k]), Some(p.valid[k]))
  }

  function Served(p: Pool, c: Call): (Pool, Option<Server>)
  {
    Probed(Retried(p, c), c.healthy)
  }

  class MongoDBHAConnectionManager {
    var valid: seq<Server>
    var offline: seq<Server>
    var nextRetry: nat

    ghost function Abs(): Pool
      reads this
    {
      Pool(valid, offline, nextRetry)
    }

    constructor (servers: seq<Server>)
      ensures Abs() == NewPool(servers)
    {
      valid, offline, nextRetry := servers, [], 0;
    }

    method TestRetry(now: nat) returns (retry: bool)
      modifies this`nextRetry
      ensures retry == (now > old(nextRetry)) && nextRetry == if retry then now + RETRIEVE_MAX_TIME else old(nextRetry)
    {
      retry := now > nextRetry;
      if retry { nextRetry := now + RETRIEVE_MAX_TIME; }
    }

    /** The probing loop; `probes` lists the servers asked, in order. */
    method Probe(healthy: set<Server>) returns (chosen: Option<Server>, ghost probes: seq<Server>)
      modifies this`valid, this`offline
      ensures (Abs(), chosen) == Probed(old(Abs()), healthy)
      ensures probes <= old(valid) && (chosen.None? ==> probes == old(valid))
      ensures chosen.Some? ==> probes != [] && probes[|probes| - 1] == chosen.value
    {
      ghost var queue := valid;
      var serverNumber, index := |valid|, 0;
      probes := [];
      while index < serverNumber
        invariant index <= serverNumber == |queue|
        invariant probes == queue[..index] && valid == queue[index..] && offline == old(offline) + queue[..index]
        invariant forall i :: 0 <= i < index ==> queue[i] !in healthy
      {
        var next := valid[0];
        valid := valid[1..];
        probes := probes + [next];
        if next in healthy {
          valid := valid + [next];
          FirstIs(queue, healthy, index);
          return Some(next), probes;
        }
        offline := offline + [next];
        index := index + 1;
      }
      FirstIs(queue, healthy, |queue|);
      assert queue[..|queue|] == queue;
      chosen := None;
    }

    /** No place in the queue is asked twice, and the first server that answers is used. */
    method GetConnection(now: nat, healthy: set<Server>) returns (chosen: Option<Server>, ghost probes: seq<Server>)
      modifies this
      ensures (Abs(), chosen) == Served(old(Abs()), Call(now, healthy))
      ensures var queue := Retried(old(Abs()), Call(now, healthy)).valid;
              probes <= queue && (chosen.None? ==> probes == queue) &&
              (chosen.Some? ==> probes != [] && probes[|probes| - 1] == chosen.value)
    {
      var retry := TestRetry(now);
      if retry && offline != [] {
        valid := valid + [offline[0]];
        offline := offline[1..];
      }
      chosen, probes := Probe(healthy);
    }
  }

  lemma FirstIs(valid: seq<Server>, healthy: set<Server>, k: nat)
    requires k <= |valid| && (k < |valid| ==> valid[k] in healthy) && forall i :: 0 <= i < k ==> valid[i] !in healthy
    ensures FirstHealthy(valid, healthy) == k
  {
    var f := FirstHealthy(valid, healthy);
    assert forall i :: 0 <= i < f ==> valid[i] !in healthy;
  }

  // ---------- runs ----------

  predicate IsRun(pools: seq<Pool>, calls: seq<Call>)
  {
    |pools| == |calls| + 1 &&
    forall i {:trigger calls[i]} :: 0 <= i < |calls| ==> pools[i + 1] == Served(pools[i], calls[i]).0
  }

  function All(p: Pool): multiset<Server> {
    multiset(p.valid) + multiset(p.offline)
  }

  lemma RetriedKeepsServers(p: Pool, c: Call)
    ensures All(Retried(p, c)) == All(p)
  {
    if p.offline != [] { assert p.offline == [p.offline[0]] + p.offline[1..]; }
  }

  lemma ProbedKeepsServers(p: Pool, healthy: set<Server>)
    ensures All(Probed(p, healthy).0) == All(p)
  {
    var k := FirstHealthy(p.valid, healthy);
    if k < |p.valid| {
      assert p.valid == p.valid[..k] + [p.valid[k]] + p.valid[k + 1..];
    }
  }

  /** Over all calls, valid and offline servers together are the configured ones. */
  lemma {:induction false} ServersArePermuted(servers: seq<Server>, pools: seq<Pool>, calls: seq<Call>, i: nat)
    requires IsRun(pools, calls) && pools[0] == NewPool(servers) && i <= |calls|
    ensures multiset(pools[i].valid) + multiset(pools[i].offline) == multiset(servers)
  {
    if i > 0 {
      ServersArePermuted(servers, pools, calls, i - 1);
      assert All(pools[i]) == All(pools[i - 1]) by {
        assert pools[i] == Served(pools[i - 1], calls[i - 1]).0;
        ServedKeepsServers(pools[i - 1], calls[i - 1]);
      }
    }
  }

  lemma ServedKeepsServers(p: Pool, c: Call)
    ensures All(Served(p, c).0) == All(p)
  {
    RetriedKeepsServers(p, c);
    ProbedKeepsServers(Retried(p, c), c.healthy);
  }

  /** A call succeeds exactly when some server in the queue answers, and gets the first such one. */
  lemma SucceedsExactlyWhen(p: Pool, c: Call)
    ensures var queue := Retried(p, c).valid; var r := Served(p, c).1;
            (r.Some? <==> exists i :: 0 <= i < |queue| && queue[i] in c.healthy) &&
            (r.Some? ==> exists k :: 0 <= k < |queue| && r.value == queue[k] && queue[k] in c.healthy &&
                           forall i :: 0 <= i < k ==> queue[i] !in c.healthy)
  {
    var queue := Retried(p, c).valid;
    var k := FirstHealthy(queue, c.healthy);
    if i :| 0 <= i < |queue| && queue[i] in c.healthy { assert i >= k; }
  }

  // ---------- what one call does ----------

  predicate Distinct(queue: seq<Server>)
  {
    forall i, j :: 0 <= i < j < |queue| ==> queue[i] != queue[j]
  }

  /** The servers to be probed: the valid ones and, when the interval has passed, the first offline one. */
  function Queue(p: Pool, c: Call): seq<Server> {
    if c.now > p.nextRetry && p.offline != [] then p.valid + [p.offline[0]] else p.valid
  }

  /** The servers that stay offline whatever the probes say. */
  function Resting(p: Pool, c: Call): seq<Server> {
    if c.now > p.nextRetry && p.offline != [] then p.offline[1..] else p.offline
  }

  /** Exactly what a call does: with k the number of servers that fail before one answers, these k go to the
      end of the offline queue in the order in which they were probed, the one that answers goes to the end
      of the valid queue, and all others keep their places. */
  lemma CallOutcome(p: Pool, c: Call) returns (k: nat)
    ensures k <= |Queue(p, c)| && forall i :: 0 <= i < k ==> Queue(p, c)[i] !in c.healthy
    ensures Served(p, c).0.offline == Resting(p, c) + Queue(p, c)[..k]
    ensures k < |Queue(p, c)| ==>
              Queue(p, c)[k] in c.healthy && Served(p, c).1 == Some(Queue(p, c)[k]) &&
              Served(p, c).0.valid == Queue(p, c)[k + 1..] + [Queue(p, c)[k]]
    ensures k == |Queue(p, c)| ==> Served(p, c).1 == None && Served(p, c).0.valid == []
    ensures Served(p, c).0.nextRetry == if c.now > p.nextRetry then c.now + 1500 else p.nextRetry
  {
    k := FirstHealthy(Queue(p, c), c.healthy);
    assert Queue(p, c)[..|Queue(p, c)|] == Queue(p, c);
  }

  /** None of the servers before this place answers, so the server at this place is probed. */
  predicate Probes(queue: seq<Server>, healthy: set<Server>, i: nat)
    requires i < |queue|
  {
    forall j :: 0 <= j < i ==> queue[j] !in healthy
  }

  /** Hence, for distinct servers, a probed server is in use afterwards if and only if it answered, and offline if and
      only if it did not; a server that is not probed stays in use. */
  lemma ProbedStayExactlyWhenHealthy(p: Pool, c: Call, i: nat)
    requires Distinct(Queue(p, c) + Resting(p, c)) && i < |Queue(p, c)|
    ensures var q, x := Served(p, c).0, Queue(p, c)[i];
            if Probes(Queue(p, c), c.healthy, i)
            then (x in q.valid <==> x in c.healthy) && (x in q.offline <==> x !in c.healthy)
            else x in q.valid && x !in q.offline
  {
    var k := CallOutcome(p, c);
    var queue := Queue(p, c);
    Parted(queue, Resting(p, c), k, i);
    assert Probes(queue, c.healthy, i) <==> i <= k;
  }

  /** Where the server at place i is when the first k servers have gone to the back of the others. */
  lemma Parted(queue: seq<Server>, rest: seq<Server>, k: nat, i: nat)
    requires Distinct(queue + rest) && k <= |queue| && i < |queue|
    ensures queue[i] in rest + queue[..k] <==> i < k
    ensures k < |queue| ==> (queue[i] in queue[k + 1..] + [queue[k]] <==> i >= k)
  {
    var all, x := queue + rest, queue[i];
    assert forall j :: 0 <= j < |all| && j != i ==> all[j] != x by { assert all[i] == x; }
    assert x !in rest by { assert forall j :: 0 <= j < |rest| ==> all[|queue| + j] == rest[j]; }
    assert forall j :: 0 <= j < |queue| ==> all[j] == queue[j];
    if i < k {
      assert queue[..k][i] == x;
    } else if i > k {
      assert queue[k + 1..][i - k - 1] == x;
    }
  }

  // ---------- rotation ----------

  /** All servers of the queue answer all calls. */
  predicate AllHealthy(queue: seq<Server>, calls: seq<Call>)
  {
    forall i, j :: 0 <= i < |calls| && 0 <= j < |queue| ==> queue[j] in calls[i].healthy
  }

  lemma OneTurn(p: Pool, c: Call)
    requires p.valid != [] && p.offline == [] && p.valid[0] in c.healthy
    ensures var (q, r) := Served(p, c);
            q.valid == p.valid[1..] + [p.valid[0]] && q.offline == [] && r == Some(p.valid[0])
  {
    FirstIs(Retried(p, c).valid, c.healthy, 0);
  }

  /** With all servers answering and none offline, the calls use the servers strictly in turn. */
  lemma {:induction false} Rotation(pools: seq<Pool>, calls: seq<Call>, from: nat, j: nat)
    requires IsRun(pools, calls) && from + j <= |calls| && pools[from].valid != [] && pools[from].offline == []
    requires AllHealthy(pools[from].valid, calls) && j <= |pools[from].valid|
    ensures var queue := pools[from].valid;
            pools[from + j].valid == queue[j..] + queue[..j] && pools[from + j].offline == []
  {
    if j > 0 {
      Rotation(pools, calls, from, j - 1);
      var queue, c := pools[from].valid, calls[from + j - 1];
      assert (queue[j - 1..] + queue[..j - 1])[0] == queue[j - 1];
      OneTurn(pools[from + j - 1], c);
      assert (queue[j - 1..] + queue[..j - 1])[1..] + [queue[j - 1]] == queue[j..] + queue[..j];
    }
  }

  /** Hence from any such point on, the next n calls use each of the n servers exactly once, in queue
      order, and leave the queue as it was. */
  lemma EachServerOnce(pools: seq<Pool>, calls: seq<Call>, from: nat)
    requires IsRun(pools, calls) && from < |pools| && from + |pools[from].valid| <= |calls| &&
             pools[from].valid != [] && pools[from].offline == []
    requires AllHealthy(pools[from].valid, calls)
    ensures forall j :: 0 <= j < |pools[from].valid| ==>
              Served(pools[from + j], calls[from + j]).1 == Some(pools[from].valid[j])
    ensures pools[from + |pools[from].valid|].valid == pools[from].valid &&
            pools[from + |pools[from].valid|].offline == []
  {
    var queue := pools[from].valid;
    forall j | 0 <= j < |queue| ensures Served(pools[from + j], calls[from + j]).1 == Some(queue[j]) {
      Rotation(pools, calls, from, j);
      OneTurn(pools[from + j], calls[from + j]);
    }
    Rotation(pools, calls, from, |queue|);
    assert queue[|queue|..] + queue[..|queue|] == queue;
  }

  // ---------- recovery ----------

  /** The deadline never moves back. */
  lemma {:induction false} DeadlineGrows(pools: seq<Pool>, calls: seq<Call>, i: nat, j: nat)
    requires IsRun(pools, calls) && i <= j < |pools|
    ensures pools[i].nextRetry <= pools[j].nextRetry
    decreases j
  {
    if i < j {
      DeadlineGrows(pools, calls, i, j - 1);
      assert calls[j - 1] == calls[j - 1];
    }
  }

  /** Over all calls, two retries are more than the retry interval apart. */
  lemma RetriesAreSpaced(pools: seq<Pool>, calls: seq<Call>, i: nat, j: nat)
    requires IsRun(pools, calls) && i < j < |calls| && CanRetry(pools[i], calls[i]) && CanRetry(pools[j], calls[j])
    ensures calls[j].now > calls[i].now + RETRIEVE_MAX_TIME
  {
    assert pools[i + 1].nextRetry == calls[i].now + RETRIEVE_MAX_TIME by { assert calls[i] == calls[i]; }
    DeadlineGrows(pools, calls, i + 1, j);
  }

  /** Number of calls that come after the retry interval. */
  function Retries(pools: seq<Pool>, calls: seq<Call>, n: nat): nat
    requires |pools| == |calls| + 1 && n <= |calls|
  {
    if n == 0 then 0 else Retries(pools, calls, n - 1) + if CanRetry(pools[n - 1], calls[n - 1]) then 1 else 0
  }

  /** The server is in use, or among the first m offline ones. */
  predicate Within(p: Pool, x: Server, m: int)
  {
    x in p.valid || (exists i :: 0 <= i < m && i < |p.offline| && p.offline[i] == x)
  }

  lemma ServedWithin(p: Pool, c: Call, x: Server, m: int)
    requires x in c.healthy && Within(p, x, m)
    ensures Within(Served(p, c).0, x, if CanRetry(p, c) then m - 1 else m)
  {
    var q, n := Retried(p, c), if CanRetry(p, c) then m - 1 else m;
    assert Within(q, x, n) by {
      if x !in p.valid {
        var i :| 0 <= i < m && i < |p.offline| && p.offline[i] == x;
        if CanRetry(p, c) {
          if i == 0 { assert q.valid[|q.valid| - 1] == x; } else { assert q.offline[i - 1] == x; }
        }
      } else {
        var i :| 0 <= i < |p.valid| && p.valid[i] == x;
        assert q.valid[i] == x;
      }
    }
    var k, t := FirstHealthy(q.valid, c.healthy), Probed(q, c.healthy).0;
    if x in q.valid {
      var i :| 0 <= i < |q.valid| && q.valid[i] == x;
      assert k <= i;
      if i == k { assert t.valid[|t.valid| - 1] == x; } else { assert t.valid[i - k - 1] == x; }
    } else {
      var i :| 0 <= i < n && i < |q.offline| && q.offline[i] == x;
      assert t.offline[i] == x;
    }
  }

  /** A server that always answers, wherever it is in the offline queue and whatever the others do, is
      back in use after at most as many retries as its place there, and from then on every call
      succeeds. */
  lemma {:induction false} HealthyServerRecovers(pools: seq<Pool>, calls: seq<Call>, x: Server, m: nat, n: nat)
    requires IsRun(pools, calls) && n <= |calls| && Within(pools[0], x, m)
    requires forall i :: 0 <= i < |calls| ==> x in calls[i].healthy
    ensures Within(pools[n], x, m - Retries(pools, calls, n))
    ensures Retries(pools, calls, n) >= m ==> x in pools[n].valid
    ensures Retries(pools, calls, n) >= m && n < |calls| ==> Served(pools[n], calls[n]).1.Some?
  {
    if n > 0 {
      HealthyServerRecovers(pools, calls, x, m, n - 1);
      assert calls[n - 1] == calls[n - 1];
      ServedWithin(pools[n - 1], calls[n - 1], x, m - Retries(pools, calls, n - 1));
    }
    if x in pools[n].valid && n < |calls| {
      SucceedsWith(pools[n], calls[n], x);
    }
  }

  lemma SucceedsWith(p: Pool, c: Call, x: Server)
    requires x in p.valid && x in c.healthy
    ensures Served(p, c).1.Some?
  {
    var queue := Retried(p, c).valid;
    var i :| 0 <= i < |p.valid| && p.valid[i] == x;
    assert queue[i] == x;
    SucceedsExactlyWhen(p, c);
  }
}
