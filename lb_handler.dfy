/**
 * The v2 load-balancer handler (`LoadbalancerHandler` in v2/handler_lb.py):
 * setting and deleting the virtual server with their idempotency policy,
 * and the statistics call: the all-zero answer to an empty reply, the
 * reshaping of an ACOS 2.1 reply, and the counter merge of the 3.0 path.
 */
module LoadbalancerHandler {
  import opened Wrappers
  import opened Acos

  // ---------------------------------------------------------------------
  // Virtual server set and delete
  // ---------------------------------------------------------------------

  /** The fields of the neutron load balancer the handler reads. */
  datatype Loadbalancer = Loadbalancer(id: string, adminStateUp: bool, vipAddress: string)

  /** The client method handed to `_set`: `virtual_server.create` (from `_create`) or `virtual_server.update` (from `update`). */
  datatype SetMethod = CreateVirtualServer | UpdateVirtualServer

  /** The call `_set` makes for a load balancer with the given name, VRID and `virtual_server` metadata. */
  function SetCall(via: SetMethod, lb: Loadbalancer, name: string, vrid: Option<Value>, body: Dict): (call: Call)
    ensures call.VirtualServerCreate? || call.VirtualServerUpdate?
    ensures call.VirtualServerCreate? <==> via == CreateVirtualServer
    ensures (call.VirtualServerCreate? || call.VirtualServerUpdate?) && call.name == name && call.vip == lb.vipAddress
    ensures (call.VirtualServerCreate? || call.VirtualServerUpdate?) && (call.status == Down <==> !lb.adminStateUp)
  {
    match via
    case CreateVirtualServer => VirtualServerCreate(name, lb.vipAddress, StatusFor(lb.adminStateUp), vrid, body)
    case UpdateVirtualServer => VirtualServerUpdate(name, lb.vipAddress, StatusFor(lb.adminStateUp), vrid, body)
  }

  /** `_set`: one call to the given method; `Exists` is absorbed, anything else escapes. */
  method Set(c: Client, via: SetMethod, lb: Loadbalancer, name: string, vrid: Option<Value>, body: Dict) returns (escaped: Option<Outcome>)
    modifies c
    ensures c.trace == old(c.trace) + [SetCall(via, lb, name, vrid, body)]
    ensures escaped == Escapes(c.respond(old(c.trace), SetCall(via, lb, name, vrid, body)), {Exists})
  {
    var status := Up;
    if !lb.adminStateUp {
      status := Down;
    }
    var call := if via == CreateVirtualServer then VirtualServerCreate(name, lb.vipAddress, status, vrid, body)
                else VirtualServerUpdate(name, lb.vipAddress, status, vrid, body);
    var o := c.Send(call);
    escaped := if o == Ok || o == Exists then None else Some(o);
  }

  /** `_delete`: delete the virtual server; `NotFound` is absorbed, anything else escapes. */
  method DeleteOnDevice(c: Client, name: string) returns (escaped: Option<Outcome>)
    modifies c
    ensures c.trace == old(c.trace) + [VirtualServerDelete(name)]
    ensures escaped == Escapes(c.respond(old(c.trace), VirtualServerDelete(name)), {NotFound})
  {
    var o := c.Send(VirtualServerDelete(name));
    escaped := if o == Ok || o == NotFound then None else Some(o);
  }

  // ---------------------------------------------------------------------
  // Counter merge
  // ---------------------------------------------------------------------

  /** A set of named numeric counters. */
  type Counters = map<string, int>

  /** A counter's value, an absent counter counting as 0. */
  function Count(m: Counters, k: string): int {
    if k in m then m[k] else 0
  }

  /** The counters of `m` whose names are in `names`. */
  function Restrict(m: Counters, names: set<string>): (r: Counters)
    ensures r.Keys == m.Keys * names
    ensures forall k :: k in r ==> r[k] == m[k]
  {
    map k | k in m && k in names :: m[k]
  }

  /**
   * The effect of merging `incoming` into `acc`: every counter of either,
   * holding the sum of its two values; counters `incoming` lacks keep their
   * value.
   */
  function AddCounters(acc: Counters, incoming: Counters): (r: Counters)
    ensures r.Keys == acc.Keys + incoming.Keys
    ensures forall k :: k in r ==> r[k] == Count(acc, k) + Count(incoming, k)
    ensures forall k :: k in acc && k !in incoming ==> r[k] == acc[k]
  {
    map k | k in acc.Keys + incoming.Keys :: Count(acc, k) + Count(incoming, k)
  }

  /** Merging one more counter is adding its value at its key. */
  lemma AddOneCounter(acc: Counters, m: Counters, done: set<string>, k: string)
    requires k in m && k !in done
    ensures AddCounters(acc, Restrict(m, done + {k})) == AddCounters(acc, Restrict(m, done))[k := Count(acc, k) + m[k]]
  {
    var l := AddCounters(acc, Restrict(m, done + {k}));
    var r := AddCounters(acc, Restrict(m, done))[k := Count(acc, k) + m[k]];
    assert l.Keys == r.Keys;
    forall j | j in l
      ensures l[j] == r[j]
    {
      if j != k {
        assert Count(Restrict(m, done + {k}), j) == Count(Restrict(m, done), j);
      }
    }
  }

  /**
   * One step of `_stats_thread`: adding to a set (non-zero) counter, or
   * storing the value otherwise, both add the incoming value to the
   * accumulated one.
   */
  lemma MergeStep(base: Counters, counters: Counters, done: set<string>, k: string, stats: Counters)
    requires k in counters && k !in done
    requires stats == AddCounters(base, Restrict(counters, done))
    ensures (if k in stats && stats[k] != 0 then stats[k := stats[k] + counters[k]] else stats[k := counters[k]])
      == AddCounters(base, Restrict(counters, done + {k}))
  {
    AddOneCounter(base, counters, done, k);
    assert k !in Restrict(counters, done);
    assert Count(stats, k) == Count(base, k);
  }

  /** Merging two counter sets in either order gives the same counters. */
  lemma AddCountersCommute(acc: Counters, x: Counters, y: Counters)
    ensures AddCounters(AddCounters(acc, x), y) == AddCounters(AddCounters(acc, y), x)
  {
    var l := AddCounters(AddCounters(acc, x), y);
    var r := AddCounters(AddCounters(acc, y), x);
    assert l.Keys == r.Keys;
    forall k | k in l
      ensures l[k] == r[k]
    {
      assert Count(AddCounters(acc, x), k) == Count(acc, k) + Count(x, k);
      assert Count(AddCounters(acc, y), k) == Count(acc, k) + Count(y, k);
    }
  }

  /** The accumulator after merging `ms` in order into an empty one. */
  function MergeAll(ms: seq<Counters>): Counters
    decreases |ms|
  {
    if ms == [] then map[] else AddCounters(MergeAll(ms[..|ms| - 1]), ms[|ms| - 1])
  }

  /** The sum of one counter over several counter sets. */
  function SumAt(ms: seq<Counters>, k: string): int
    decreases |ms|
  {
    if ms == [] then 0 else SumAt(ms[..|ms| - 1], k) + Count(ms[|ms| - 1], k)
  }

  /** Every counter name of several counter sets. */
  function NamesOf(ms: seq<Counters>): set<string>
    decreases |ms|
  {
    if ms == [] then {} else NamesOf(ms[..|ms| - 1]) + ms[|ms| - 1].Keys
  }

  /** Merging several counter sets into an empty accumulator yields their key-wise sum. */
  lemma {:induction false} MergeAllIsKeywiseSum(ms: seq<Counters>)
    ensures MergeAll(ms).Keys == NamesOf(ms)
    ensures forall k :: Count(MergeAll(ms), k) == SumAt(ms, k)
    decreases |ms|
  {
    if ms != [] {
      MergeAllIsKeywiseSum(ms[..|ms| - 1]);
    }
  }

  /** The merge of a sequence equals the merge without its `i`-th element, followed by that element. */
  lemma {:induction false} MergeAllWithout(ms: seq<Counters>, i: nat)
    requires i < |ms|
    ensures MergeAll(ms) == AddCounters(MergeAll(ms[..i] + ms[i + 1..]), ms[i])
    decreases |ms|
  {
    var n := |ms| - 1;
    var p := ms[..n];
    assert MergeAll(ms) == AddCounters(MergeAll(p), ms[n]);
    if i == n {
      assert ms[..i] + ms[i + 1..] == p;
    } else {
      var q := p[..i] + p[i + 1..];
      var qx := q + [ms[n]];
      MergeAllWithout(p, i);
      assert MergeAll(p) == AddCounters(MergeAll(q), ms[i]);
      AddCountersCommute(MergeAll(q), ms[i], ms[n]);
      assert qx[..|qx| - 1] == q;
      assert MergeAll(qx) == AddCounters(MergeAll(q), ms[n]);
      assert ms[..i] == p[..i];
      assert ms[i + 1..] == p[i + 1..] + [ms[n]];
      assert ms[..i] + ms[i + 1..] == qx;
    }
  }

  /**
   * The merged counters do not depend on the order the sets are merged in:
   * whichever fetch finishes first, the accumulator ends the same.
   */
  lemma {:induction false} MergeOrderIrrelevant(ms: seq<Counters>, ns: seq<Counters>)
    requires multiset(ms) == multiset(ns)
    ensures MergeAll(ms) == MergeAll(ns)
    decreases |ns|
  {
    if ns == [] {
      assert |ms| == |multiset(ms)| == 0;
    } else {
      var n := |ns| - 1;
      var x := ns[n];
      assert ns == ns[..n] + [x];
      assert x in multiset(ms);
      var i :| 0 <= i < |ms| && ms[i] == x;
      var rest := ms[..i] + ms[i + 1..];
      assert ms == ms[..i] + [ms[i]] + ms[i + 1..];
      assert multiset(ms) == multiset(ms[..i]) + multiset([x]) + multiset(ms[i + 1..]);
      assert multiset(rest) == multiset(ms[..i]) + multiset(ms[i + 1..]);
      assert multiset(ns) == multiset(ns[..n]) + multiset([x]);
      assert multiset(rest) + multiset([x]) == multiset(ns[..n]) + multiset([x]);
      assert multiset(rest) == multiset(rest) + multiset([x]) - multiset([x]);
      assert multiset(ns[..n]) == multiset(ns[..n]) + multiset([x]) - multiset([x]);
      MergeOrderIrrelevant(rest, ns[..n]);
      MergeAllWithout(ms, i);
    }
  }

  /**
   * The statistics accumulator `self.stats` of the 3.0 path. Each fetch
   * thread merges its port's counters into it under a lock; the model runs
   * the merges one after the other.
   */
  class StatsAccumulator {
    var stats: Counters

    constructor ()
      ensures stats == map[]
    {
      stats := map[];
    }

    /**
     * `_stats_thread`, as evidently intended: for each counter of the port,
     * add it to the accumulated value if that is set (and non-zero),
     * otherwise store it.
     */
    method Merge(counters: Counters)
      modifies this
      ensures stats == AddCounters(old(stats), counters)
    {
      ghost var base := stats;
      ghost var done: set<string> := {};
      var pending := counters.Keys;
      while pending != {}
        invariant pending !! done && pending + done == counters.Keys
        invariant stats == AddCounters(base, Restrict(counters, done))
        decreases pending
      {
        var k :| k in pending;
        var v := counters[k];
        MergeStep(base, counters, done, k, stats);
        if k in stats && stats[k] != 0 {
          stats := stats[k := stats[k] + v];
        } else {
          stats := stats[k := v];
        }
        done := done + {k};
        pending := pending - {k};
      }
      assert Restrict(counters, done) == counters;
    }

    /** The sequential part of `_stats_v30`: the accumulator is emptied, then every port's counters are merged. */
    method Collect(ports: seq<Counters>)
      modifies this
      ensures stats == MergeAll(ports)
    {
      stats := map[];
      var i := 0;
      while i < |ports|
        invariant 0 <= i <= |ports|
        invariant stats == MergeAll(ports[..i])
      {
        Merge(ports[i]);
        assert ports[..i + 1][..i] == ports[..i];
        i := i + 1;
      }
      assert ports[..|ports|] == ports;
    }
  }

  /** The errors a statistics call can raise. */
  datatype StatsError = KeyError(key: string) | TypeError | NameError(name: string)

  /** How a statistics thread ends: the accumulator it leaves and the error it raised. */
  datatype ThreadEnd = ThreadEnd(stats: Counters, raised: StatsError)

  /**
   * `_stats_thread` as written: it is started with the port's counters as
   * keyword arguments, which its single parameter `resp` cannot take unless
   * they are exactly `resp`; and its body iterates `kwargs`, which is not
   * defined. It raises before merging anything, so the accumulator is left
   * as it was.
   */
  function StatsThreadAsWritten(acc: Counters, kwargs: Counters): (r: ThreadEnd)
    ensures r.stats == acc
    ensures r.raised == TypeError <==> kwargs.Keys != {"resp"}
    ensures r.raised != TypeError ==> r.raised == NameError("kwargs")
  {
    if kwargs.Keys != {"resp"} then ThreadEnd(acc, TypeError) else ThreadEnd(acc, NameError("kwargs"))
  }

  /** A port reporting `req_bytes` 10 leaves the accumulator without it as written, while the intended merge records it. */
  lemma StatsThreadDropsCounters()
    ensures var end := StatsThreadAsWritten(map[], map["req_bytes" := 10]);
      end.raised == TypeError && Count(end.stats, "req_bytes") == 0
    ensures Count(AddCounters(map[], map["req_bytes" := 10]), "req_bytes") == 10
  {
  }

  // ---------------------------------------------------------------------
  // Statistics replies
  // ---------------------------------------------------------------------

  /** The result of `stats`: four counters and the reshaped reply. */
  datatype LbStats = LbStats(bytesIn: Value, bytesOut: Value, activeConnections: Value, totalConnections: Value, extended: Dict)

  /** What `stats` returns for an empty reply. */
  const ZeroStats := LbStats(Num(0), Num(0), Num(0), Num(0), map[])

  /**
   * The appliance queries `_stats_v21` makes for each port: the service
   * group of the port's virtual service ("" when none) and that group's
   * statistics reply.
   */
  datatype ServiceQueries = ServiceQueries(serviceGroupOf: Value -> string, groupStats: string -> Dict)

  /**
   * The body of the port loop of `_stats_v21`: a port with a service group
   * gets that group's statistics merged into it, the group's
   * `service_group_stat` renamed to `pool_stat_list`.
   */
  function EnrichPort(port: Value, q: ServiceQueries): (r: Result<Value, StatsError>)
    ensures r.Success? ==> port.Obj? && "name" in port.fields && r.value.Obj?
    ensures r.Success? && q.serviceGroupOf(port.fields["name"]) == "" ==> r.value == port
    ensures r.Success? && q.serviceGroupOf(port.fields["name"]) != "" ==>
      var pool := q.groupStats(q.serviceGroupOf(port.fields["name"]));
      && "service_group_stat" in pool
      && r.value.fields.Keys == port.fields.Keys + (pool.Keys - {"service_group_stat"}) + {"pool_stat_list"}
      && r.value.fields["pool_stat_list"] == pool["service_group_stat"]
      && (forall k :: k in pool && k != "service_group_stat" && k != "pool_stat_list" ==> r.value.fields[k] == pool[k])
      && (forall k :: k in port.fields && k != "pool_stat_list" && (k !in pool || k == "service_group_stat") ==> r.value.fields[k] == port.fields[k])
    ensures r.Failure? <==> (!port.Obj? || "name" !in port.fields
      || (q.serviceGroupOf(port.fields["name"]) != "" && "service_group_stat" !in q.groupStats(q.serviceGroupOf(port.fields["name"]))))
  {
    if !port.Obj? then Failure(TypeError)
    else if "name" !in port.fields then Failure(KeyError("name"))
    else
      var group := q.serviceGroupOf(port.fields["name"]);
      if group == "" then Success(port)
      else
        var pool := q.groupStats(group);
        if "service_group_stat" !in pool then Failure(KeyError("service_group_stat"))
        else
          var renamed := (pool - {"service_group_stat"})["pool_stat_list" := pool["service_group_stat"]];
          Success(Obj(port.fields + renamed))
  }

  /** The port loop of `_stats_v21`: every port enriched, or the error of the first port that fails. */
  function EnrichAll(ports: seq<Value>, q: ServiceQueries): (r: Result<seq<Value>, StatsError>)
    ensures r.Success? <==> forall i :: 0 <= i < |ports| ==> EnrichPort(ports[i], q).Success?
    ensures r.Success? ==> |r.value| == |ports| && forall i :: 0 <= i < |ports| ==> r.value[i] == EnrichPort(ports[i], q).value
    ensures r.Failure? ==> exists i :: (0 <= i < |ports| && EnrichPort(ports[i], q) == Failure(r.error)
      && forall j :: 0 <= j < i ==> EnrichPort(ports[j], q).Success?)
    decreases |ports|
  {
    if ports == [] then Success([])
    else match EnrichPort(ports[0], q)
      case Failure(e) => Failure(e)
      case Success(p) =>
        match EnrichAll(ports[1..], q)
        case Failure(e) => Failure(e)
        case Success(rest) => Success([p] + rest)
  }

  /**
   * The key moves of `_stats_v21` once the ports are enriched: a non-empty
   * port list is renamed `listener_stat` (an empty collection, of whatever
   * kind, stays where it is), the virtual-server record moves to
   * `loadbalancer_stat`, and the four counters are read from it.
   */
  function ReshapeV21(resp: Dict, vss: Dict, ports: seq<Value>): (r: Result<LbStats, StatsError>)
    ensures r.Success? <==> "req_bytes" in vss && "resp_bytes" in vss && "cur_conns" in vss && "tot_conns" in vss
    ensures r.Success? ==>
      var ext := r.value.extended;
      && "virtual_server_stat" !in ext
      && "loadbalancer_stat" in ext && ext["loadbalancer_stat"].Obj?
      && (forall k :: k in resp && k != "virtual_server_stat" && k != "loadbalancer_stat" ==> k in ext && ext[k] == resp[k])
      && ext.Keys == resp.Keys - {"virtual_server_stat"} + {"loadbalancer_stat"}
      && var lbs := ext["loadbalancer_stat"].fields;
      && (ports != [] ==> "listener_stat" in lbs && lbs["listener_stat"] == Arr(ports) && "vport_stat_list" !in lbs)
      && (ports != [] ==> lbs.Keys == vss.Keys - {"vport_stat_list"} + {"listener_stat"})
      && (ports == [] ==> lbs == vss)
      && (forall k :: k in vss && k != "vport_stat_list" && k != "listener_stat" ==> k in lbs && lbs[k] == vss[k])
      && r.value.bytesIn == vss["req_bytes"] && r.value.bytesOut == vss["resp_bytes"]
      && r.value.activeConnections == vss["cur_conns"] && r.value.totalConnections == vss["tot_conns"]
  {
    var lbs := if ports != [] then (vss - {"vport_stat_list"})["listener_stat" := Arr(ports)] else vss;
    var extended := (resp - {"virtual_server_stat"})["loadbalancer_stat" := Obj(lbs)];
    if "req_bytes" !in lbs then Failure(KeyError("req_bytes"))
    else if "resp_bytes" !in lbs then Failure(KeyError("resp_bytes"))
    else if "cur_conns" !in lbs then Failure(KeyError("cur_conns"))
    else if "tot_conns" !in lbs then Failure(KeyError("tot_conns"))
    else Success(LbStats(lbs["req_bytes"], lbs["resp_bytes"], lbs["cur_conns"], lbs["tot_conns"], extended))
  }

  /**
   * `_stats_v21` on a reply: the lookups it makes, then the port loop, then
   * the key moves. An empty port collection is iterated zero times whatever
   * its kind; a non-empty one that is not a list raises.
   */
  function StatsV21Result(resp: Dict, q: ServiceQueries): Result<LbStats, StatsError> {
    if "virtual_server_stat" !in resp then Failure(KeyError("virtual_server_stat"))
    else if !resp["virtual_server_stat"].Obj? then Failure(TypeError)
    else
      var vss := resp["virtual_server_stat"].fields;
      if "vport_stat_list" !in vss then Failure(KeyError("vport_stat_list"))
      else if EmptyIterable(vss["vport_stat_list"]) then ReshapeV21(resp, vss, [])
      else if !vss["vport_stat_list"].Arr? then Failure(TypeError)
      else
        match EnrichAll(vss["vport_stat_list"].items, q)
        case Failure(e) => Failure(e)
        case Success(ports) => ReshapeV21(resp, vss, ports)
  }

  /** `_stats_v21`: the loop updates each port record in place, then the reply is reshaped. */
  method StatsV21(resp: Dict, q: ServiceQueries) returns (r: Result<LbStats, StatsError>)
    ensures r == StatsV21Result(resp, q)
  {
    if "virtual_server_stat" !in resp {
      return Failure(KeyError("virtual_server_stat"));
    }
    var vs := resp["virtual_server_stat"];
    if !vs.Obj? {
      return Failure(TypeError);
    }
    if "vport_stat_list" !in vs.fields {
      return Failure(KeyError("vport_stat_list"));
    }
    var list := vs.fields["vport_stat_list"];
    if EmptyIterable(list) {
      return ReshapeV21(resp, vs.fields, []);
    }
    if !list.Arr? {
      return Failure(TypeError);
    }
    var ports := list.items;
    var i := 0;
    while i < |ports|
      invariant 0 <= i <= |ports| == |list.items|
      invariant forall j :: 0 <= j < i ==> EnrichPort(list.items[j], q).Success? && ports[j] == EnrichPort(list.items[j], q).value
      invariant forall j :: i <= j < |ports| ==> ports[j] == list.items[j]
    {
      var enriched := EnrichPort(ports[i], q);
      if enriched.Failure? {
        ghost var all := EnrichAll(list.items, q);
        assert all.Failure?;
        ghost var first :| 0 <= first < |list.items| && EnrichPort(list.items[first], q) == Failure(all.error)
          && forall j :: 0 <= j < first ==> EnrichPort(list.items[j], q).Success?;
        assert first == i;
        return Failure(enriched.error);
      }
      ports := ports[i := enriched.value];
      i := i + 1;
    }
    ghost var all := EnrichAll(list.items, q);
    assert all.Success? && |all.value| == |ports|;
    assert all.value == ports;
    r := ReshapeV21(resp, vs.fields, ports);
  }

  /**
   * `_stats_v30` as written raises on every reply: with ports it indexes
   * their `stats` and then names the undefined `stat`; without ports it
   * reaches for `loadbalancer_stat` in an accumulator that nothing filled.
   */
  function StatsV30(resp: Dict): (e: StatsError)
    ensures e == KeyError("loadbalancer_stat") <==> ("port-list" in resp && EmptyIterable(resp["port-list"])
      && "virtual_server_stat" in resp && resp["virtual_server_stat"].Obj? && "vport_stat_list" in resp["virtual_server_stat"].fields)
    ensures e == NameError("stat") ==> "port-list" in resp && !EmptyIterable(resp["port-list"])
  {
    if "port-list" !in resp then KeyError("port-list")
    else
      var portList := resp["port-list"];
      if !EmptyIterable(portList) then
        if portList.Arr? && portList.items[0].Obj? then
          if "stats" in portList.items[0].fields then NameError("stat") else KeyError("stats")
        else TypeError
      else if "virtual_server_stat" !in resp then KeyError("virtual_server_stat")
      else if !resp["virtual_server_stat"].Obj? then TypeError
      else if "vport_stat_list" !in resp["virtual_server_stat"].fields then KeyError("vport_stat_list")
      else KeyError("loadbalancer_stat")
  }

  /** Python iterates a value without a single step: an empty list, string or dict. */
  predicate EmptyIterable(v: Value) {
    match v
    case Arr(items) => items == []
    case Str(s) => s == ""
    case Obj(fields) => fields == map[]
    case Num(_) => false
  }

  /** An empty reply: None or an empty dict. */
  predicate EmptyReply(resp: Option<Dict>) {
    resp.None? || resp.value == map[]
  }

  /**
   * `stats`: an empty reply yields all-zero counters and an empty extended
   * record; otherwise the device's `api_version` picks the 3.0 or the 2.1
   * reshaping.
   */
  method Stats(resp: Option<Dict>, apiVersion: Option<string>, q: ServiceQueries) returns (r: Result<LbStats, StatsError>)
    ensures EmptyReply(resp) ==> (r.Success? && r.value.extended == map[]
      && r.value.bytesIn == r.value.bytesOut == r.value.activeConnections == r.value.totalConnections == Num(0))
    ensures !EmptyReply(resp) && apiVersion == Some("3.0") ==> r == Failure(StatsV30(resp.value))
    ensures !EmptyReply(resp) && apiVersion != Some("3.0") ==> r == StatsV21Result(resp.value, q)
  {
    if resp.None? || resp.value == map[] {
      return Success(ZeroStats);
    }
    if apiVersion == Some("3.0") {
      return Failure(StatsV30(resp.value));
    }
    r := StatsV21(resp.value, q);
  }
}
