/**
 * The Yeelight discovery scanner, `YeelightScanner` in
 * homeassistant/components/yeelight/scanner.py.
 *
 * The scanner owns a host cache, an identity cache, the waiters of targeted lookups,
 * one listener per source address and one "connected" flag per listener. The
 * asynchronous transport is abstracted: what the network helper reports and which
 * listeners manage to start come in as an `Environment`, and the responses that
 * arrive while a coroutine is suspended come in as a sequence. Side effects that
 * leave the scanner are logged in fields: the searches sent, the flow starts
 * scheduled, the waiters signalled and whether the periodic re-scan is registered.
 */
module Scanner {
  import opened Wrappers
  import opened Seqs
  import opened Responses
  import opened Sources
  import opened Listeners

  /** `DISCOVERY_ATTEMPTS`: scan rounds in one bulk discover. */
  const DiscoveryAttempts: nat := 3

  /**
   * The facts the scanner consumes from its surroundings: whether only the default
   * interface is enabled, the enabled source addresses, and the source addresses on
   * which a listener's `async_start` succeeds.
   */
  datatype Environment = Environment(onlyDefaultInterface: bool, enabledSourceIps: seq<IpAddress>, startable: set<IpAddress>)

  function SourceSet(env: Environment): (sources: set<IpAddress>)
  {
    BuildSourceSet(env.onlyDefaultInterface, env.enabledSourceIps)
  }

  /** The responses that arrive during sleep number `k` of a bulk discover. */
  function Batch(during: seq<seq<Capabilities>>, k: nat): (batch: seq<Capabilities>)
  {
    if k < |during| then during[k] else []
  }

  /** The responses that arrive during the first `n` sleeps, in arrival order. */
  function Delivered(during: seq<seq<Capabilities>>, n: nat): (rs: seq<Capabilities>)
  {
    if n == 0 then [] else Delivered(during, n - 1) + Batch(during, n - 1)
  }

  /**
   * What the first `async_setup` leaves behind, for the listener list `created` made
   * from `sources`: one flag per created listener, the failed listeners dropped with
   * the survivors in their order, every failed listener's flag set. `SurvivorsCount`
   * turns this into counts.
   */
  predicate StartedFrom(listeners: seq<Listener>, connected: seq<bool>, created: seq<Listener>,
                        sources: set<IpAddress>, startable: set<IpAddress>)
  {
    && Enumerates(created, sources)
    && |connected| == |created|
    && listeners == Filter(created, startable, true)
    && (forall i :: 0 <= i < |created| && created[i].source !in startable ==> connected[i])
  }

  /** Filing an accepted record under its own hostname and id keeps both caches well formed. */
  lemma CachesKeepShape(byHost: map<string, Capabilities>, byId: map<string, Capabilities>, r: Capabilities)
    requires CachesWellFormed(byHost, byId) && Accepted(r)
    ensures CachesWellFormed(byHost[Host(r) := r], byId[Id(r) := r])
  {
  }

  /** One more sleep of a bulk discover: its batch is processed after the earlier ones. */
  lemma DeliveredStep(start: Observed, waiters: map<string, seq<WaiterId>>, during: seq<seq<Capabilities>>, n: nat,
                      before: Observed, after: Observed)
    requires before == Replay(start, waiters, Delivered(during, n))
    requires after == Replay(before, waiters, Batch(during, n))
    ensures after == Replay(start, waiters, Delivered(during, n + 1))
  {
    ReplayAppend(start, waiters, Delivered(during, n), Batch(during, n));
  }

  /** One more scan of a bulk discover: its searches follow the earlier rounds'. */
  lemma RoundStep(base: seq<Search>, round: seq<Search>, n: nat, before: seq<Search>, after: seq<Search>)
    requires before == base + Repeat(round, n)
    requires after == before + round
    ensures after == base + Repeat(round, n + 1)
  {
    ConcatAssoc(base, Repeat(round, n), round);
  }

  class YeelightScanner {
    /** `_host_capabilities`: hostname to latest record. */
    var hostCaps: map<string, Capabilities>
    /** `_unique_id_capabilities`: device id to latest record. */
    var uidCaps: map<string, Capabilities>
    /** `_host_discovered_events`: hostname to the waiters of pending lookups. */
    var hostWaiters: map<string, seq<WaiterId>>
    /** `_listeners`. */
    var listeners: seq<Listener>
    /** `_connected_events`: one flag per listener created, set once it is bound or has failed. */
    var connected: seq<bool>
    /**
     * Periodic re-scans registered through `async_track_time_interval`. Each one
     * registered keeps running, and `_track_interval` only holds the latest.
     */
    var rescanTimers: nat

    /** Flow starts scheduled through `async_call_later`, oldest first. */
    var scheduled: seq<Capabilities>
    /** Search datagrams sent, oldest first. */
    var searches: seq<Search>
    /** Waiters whose event has been set. */
    var signalled: set<WaiterId>
    /** Identity for the next waiter a lookup creates. */
    var nextWaiter: WaiterId

    ghost function Snapshot(): Observed
      reads this`hostCaps, this`uidCaps, this`scheduled, this`signalled
    {
      Observed(hostCaps, uidCaps, scheduled, signalled)
    }

    /** Both caches file accepted records under their own keys. */
    ghost predicate CachesValid()
      reads this`hostCaps, this`uidCaps
    {
      CachesWellFormed(hostCaps, uidCaps)
    }

    /** Waiter handles are unique and all were handed out before. */
    ghost predicate WaitersValid()
      reads this`hostWaiters, this`signalled, this`nextWaiter
    {
      && WaitersDistinct(hostWaiters)
      && (forall h, i :: h in hostWaiters && 0 <= i < |hostWaiters[h]| ==> hostWaiters[h][i] < nextWaiter)
      && (forall w :: w in signalled ==> w < nextWaiter)
    }

    /** Every active listener has its flag, and every flag has been set. */
    ghost predicate ListenersValid()
      reads this`listeners, this`connected
    {
      |listeners| <= |connected| && forall k :: 0 <= k < |connected| ==> connected[k]
    }

    ghost predicate Valid()
      reads this`hostCaps, this`uidCaps, this`hostWaiters, this`signalled, this`nextWaiter
      reads this`listeners, this`connected
    {
      CachesValid() && WaitersValid() && ListenersValid()
    }

    ghost predicate Pristine()
      reads this
    {
      && hostCaps == map[] && uidCaps == map[] && hostWaiters == map[]
      && listeners == [] && connected == [] && rescanTimers == 0
      && scheduled == [] && searches == [] && signalled == {}
    }

    /** `__init__`: every table empty. */
    constructor ()
      ensures Valid() && Pristine()
    {
      hostCaps, uidCaps, hostWaiters := map[], map[], map[];
      listeners, connected, rescanTimers := [], [], 0;
      scheduled, searches, signalled, nextWaiter := [], [], {}, 0;
    }

    /** `_async_discovered_by_ssdp`: schedule the delayed start of a discovery flow for `r`. */
    method ScheduleFlowStart(r: Capabilities)
      modifies this`scheduled
      ensures scheduled == old(scheduled) + [r]
    {
      scheduled := scheduled + [r];
    }

    /**
     * `_async_process_entry`. A record without an id or hostname raises before any
     * change, so it leaves the state as it was.
     */
    method ProcessEntry(r: Capabilities)
      requires Valid()
      modifies this`hostCaps, this`uidCaps, this`scheduled, this`signalled
      ensures Valid()
      ensures Snapshot() == Absorb(old(Snapshot()), hostWaiters, r)
      ensures !Accepted(r) ==> Snapshot() == old(Snapshot())
      ensures Accepted(r) ==> hostCaps == old(hostCaps)[Host(r) := r] && uidCaps == old(uidCaps)[Id(r) := r]
      ensures Accepted(r) ==>
        scheduled == old(scheduled) + (if NewOrMoved(old(uidCaps), r) then [r] else [])
      ensures Accepted(r) ==> signalled == old(signalled) + Elems(WaitersOf(hostWaiters, Host(r)))
    {
      if !Accepted(r) {
        return;
      }
      var u, h := Id(r), Host(r);
      if u !in uidCaps || uidCaps[u].hostname != r.hostname {
        ScheduleFlowStart(r);
      }
      CachesKeepShape(hostCaps, uidCaps, r);
      hostCaps := hostCaps[h := r];
      uidCaps := uidCaps[u := r];
      SetEvents(WaitersOf(hostWaiters, h));
    }

    /** `for event in events: event.set()`. */
    method SetEvents(events: seq<WaiterId>)
      requires forall i :: 0 <= i < |events| ==> events[i] < nextWaiter
      modifies this`signalled
      ensures signalled == old(signalled) + Elems(events)
      ensures old(WaitersValid()) ==> WaitersValid()
    {
      for i := 0 to |events|
        invariant signalled == old(signalled) + Elems(events[..i])
      {
        assert Elems(events[..i + 1]) == Elems(events[..i]) + {events[i]} by {
          assert events[..i + 1] == events[..i] + [events[i]];
        }
        signalled := signalled + {events[i]};
      }
      assert events[..|events|] == events;
    }

    /** The transport invoking the processing callback once per response, in order. */
    method DeliverResponses(rs: seq<Capabilities>)
      requires Valid()
      modifies this`hostCaps, this`uidCaps, this`scheduled, this`signalled
      ensures Valid()
      ensures Snapshot() == Replay(old(Snapshot()), hostWaiters, rs)
    {
      for i := 0 to |rs|
        invariant Valid()
        invariant Replay(Snapshot(), hostWaiters, rs[i..]) == Replay(old(Snapshot()), hostWaiters, rs)
      {
        assert rs[i..][0] == rs[i] && rs[i..][1..] == rs[i + 1..];
        ProcessEntry(rs[i]);
      }
    }

    /** One search through every active listener, in listener order. */
    method SearchOnEach(t: Target)
      modifies this`searches
      ensures searches == old(searches) + SearchAll(listeners, t)
    {
      var ls, sent := listeners, searches;
      for i := 0 to |ls|
        invariant sent + SearchAll(ls[i..], t) == old(searches) + SearchAll(ls, t)
      {
        var datagram := Search(ls[i].index, t);
        assert SearchAll(ls[i..], t) == [datagram] + SearchAll(ls[i + 1..], t) by {
          assert ls[i..][0] == ls[i] && ls[i..][1..] == ls[i + 1..];
        }
        ConcatAssoc(sent, [datagram], SearchAll(ls[i + 1..], t));
        sent := sent + [datagram];
      }
      assert SearchAll(ls[|ls|..], t) == [];
      searches := sent;
    }

    /** `async_scan`: a multicast search on every active listener. */
    method Scan()
      modifies this`searches
      ensures searches == old(searches) + SearchAll(listeners, Multicast)
    {
      SearchOnEach(Multicast);
    }

    /** `_async_wait_connected`: the startup barrier is passed once every flag is set. */
    method WaitConnected() returns (ready: bool)
      ensures ready <==> forall k :: 0 <= k < |connected| ==> connected[k]
    {
      ready := true;
      for k := 0 to |connected|
        invariant ready <==> forall j :: 0 <= j < k ==> connected[j]
      {
        ready := ready && connected[k];
      }
    }

    /** The creation loop of `async_setup`: one flag and one listener per source address. */
    method CreateListeners(sources: set<IpAddress>)
      requires listeners == [] && connected == []
      modifies this`listeners, this`connected
      ensures Enumerates(listeners, sources)
      ensures |connected| == |listeners| && forall k :: 0 <= k < |connected| ==> !connected[k]
    {
      var remaining := sources;
      while remaining != {}
        invariant remaining <= sources
        invariant Enumerates(listeners, sources - remaining)
        invariant |connected| == |listeners| && forall k :: 0 <= k < |connected| ==> !connected[k]
        decreases remaining
      {
        var ip :| ip in remaining;
        var l := Listener(|listeners|, ip);
        assert forall k :: 0 <= k < |listeners| ==> listeners[k].source != ip by {
          forall k | 0 <= k < |listeners| ensures listeners[k].source != ip {
            assert listeners[k].source in Addresses(listeners);
          }
        }
        assert Addresses(listeners + [l]) == Addresses(listeners) + {ip};
        connected := connected + [false];
        listeners := listeners + [l];
        remaining := remaining - {ip};
      }
    }

    /**
     * The `asyncio.gather` of `async_start`: `results[k]` says whether listener `k`
     * started; a listener that starts has been bound and its connect callback has set
     * its flag.
     */
    method StartListeners(startable: set<IpAddress>) returns (results: seq<bool>)
      requires |connected| == |listeners|
      modifies this`connected
      ensures |results| == |listeners| && |connected| == |listeners|
      ensures forall k :: 0 <= k < |results| ==> results[k] == (listeners[k].source in startable)
      ensures forall k :: 0 <= k < |connected| ==> connected[k] == (results[k] || old(connected[k]))
    {
      results := [];
      for i := 0 to |listeners|
        invariant |results| == i && |connected| == |listeners|
        invariant forall k :: 0 <= k < i ==> results[k] == (listeners[k].source in startable)
        invariant forall k :: 0 <= k < i ==> connected[k] == (results[k] || old(connected[k]))
        invariant forall k :: i <= k < |connected| ==> connected[k] == old(connected[k])
      {
        var ok := listeners[i].source in startable;
        if ok {
          connected := connected[i := true];
        }
        results := results + [ok];
      }
    }

    /** The result loop of `async_setup`: collect the failed listeners and set their flags. */
    method CollectFailed(results: seq<bool>, ghost startable: set<IpAddress>) returns (failed: seq<Listener>)
      requires |results| == |listeners| == |connected|
      requires forall k :: 0 <= k < |results| ==> results[k] == (listeners[k].source in startable)
      requires forall k :: 0 <= k < |results| ==> results[k] ==> connected[k]
      modifies this`connected
      ensures failed == Filter(listeners, startable, false)
      ensures |connected| == |listeners| && forall k :: 0 <= k < |connected| ==> connected[k]
    {
      var ls, flags := listeners, connected;
      failed := [];
      for i := 0 to |results|
        invariant |flags| == |ls| == |results|
        invariant failed + Filter(ls[i..], startable, false) == Filter(ls, startable, false)
        invariant forall k :: 0 <= k < i ==> flags[k]
        invariant forall k :: i <= k < |flags| ==> results[k] ==> flags[k]
      {
        FilterFrom(ls, startable, false, i);
        ghost var rest := Filter(ls[i + 1..], startable, false);
        if !results[i] {
          ConcatAssoc(failed, [ls[i]], rest);
          failed := failed + [ls[i]];
          flags := flags[i := true];
        } else {
          assert [] + rest == rest;
        }
      }
      assert ls[|ls|..] == [];
      connected := flags;
    }

    /** The removal loop of `async_setup`: `listeners.remove(l)` for every failed `l`. */
    method RemoveListeners(failed: seq<Listener>)
      requires Distinct(listeners) && Distinct(failed)
      requires forall k :: 0 <= k < |failed| ==> failed[k] in listeners
      modifies this`listeners
      ensures listeners == Without(old(listeners), Elems(failed))
    {
      var all := listeners;
      var ls := all;
      WithoutNothing(all);
      assert Elems(failed[..0]) == {};
      for k := 0 to |failed|
        invariant ls == Without(all, Elems(failed[..k]))
      {
        DistinctPrefix(failed, k);
        RemoveFirstWithout(all, Elems(failed[..k]), failed[k]);
        ls := RemoveFirst(ls, failed[k]);
      }
      assert failed[..|failed|] == failed;
      listeners := ls;
    }

    /**
     * `async_setup`. A second call, once flags exist, only waits on them. Otherwise it
     * creates one listener and one flag per source address, removes the listeners that
     * failed to start (their flags are set all the same), registers the periodic
     * re-scan and scans once. `created` is the listener list before the removal, in the
     * (unspecified) order the source set was enumerated in.
     */
    method Setup(env: Environment) returns (ghost created: seq<Listener>)
      requires Valid()
      modifies this`listeners, this`connected, this`rescanTimers, this`searches
      ensures Valid()
      ensures old(connected) != [] ==>
        listeners == old(listeners) && connected == old(connected) &&
        searches == old(searches) && rescanTimers == old(rescanTimers) && created == []
      ensures old(connected) == [] ==>
        && StartedFrom(listeners, connected, created, SourceSet(env), env.startable)
        && rescanTimers == old(rescanTimers) + 1
        && searches == old(searches) + SearchAll(listeners, Multicast)
    {
      if connected != [] {
        var ready := WaitConnected();
        assert ready;
        created := [];
        return;
      }
      created := FirstSetup(SourceSet(env), env.startable);
    }

    /**
     * The first call of `async_setup`, once the source set `sources` is built: start
     * the listeners, wait on the flags, register the periodic re-scan and scan once.
     */
    method FirstSetup(sources: set<IpAddress>, startable: set<IpAddress>) returns (ghost created: seq<Listener>)
      requires Valid() && connected == []
      modifies this`listeners, this`connected, this`rescanTimers, this`searches
      ensures Valid()
      ensures StartedFrom(listeners, connected, created, sources, startable)
      ensures rescanTimers == old(rescanTimers) + 1
      ensures searches == old(searches) + SearchAll(listeners, Multicast)
    {
      created := StartAll(sources, startable);
      var ready := WaitConnected();
      assert ready;
      rescanTimers := rescanTimers + 1;
      Scan();
    }

    /** The listener part of `async_setup`'s first call: create, start, drop the failed. */
    method StartAll(sources: set<IpAddress>, startable: set<IpAddress>) returns (ghost created: seq<Listener>)
      requires listeners == [] && connected == []
      modifies this`listeners, this`connected
      ensures StartedFrom(listeners, connected, created, sources, startable)
      ensures ListenersValid()
    {
      CreateListeners(sources);
      created := listeners;
      var results := StartListeners(startable);
      var failed := CollectFailed(results, startable);
      FailedAreRemovable(created, sources, startable);
      RemoveListeners(failed);
      WithoutFailedIsStarted(created, Elems(failed), startable);
    }

    /**
     * `async_discover`: set up, then `DiscoveryAttempts` rounds of a scan followed by a
     * sleep during which `Batch(during, k)` arrives; the result is every record held
     * by the identity cache at the end.
     */
    method Discover(env: Environment, during: seq<seq<Capabilities>>) returns (found: set<Capabilities>, ghost created: seq<Listener>)
      requires Valid()
      modifies this`hostCaps, this`uidCaps, this`scheduled, this`signalled
      modifies this`listeners, this`connected, this`rescanTimers, this`searches
      ensures Valid()
      ensures found == uidCaps.Values
      ensures Snapshot() == Replay(old(Snapshot()), hostWaiters, Delivered(during, DiscoveryAttempts))
      ensures uidCaps.Keys == old(uidCaps).Keys + IdsOf(Delivered(during, DiscoveryAttempts))
      ensures old(connected) == [] ==>
        StartedFrom(listeners, connected, created, SourceSet(env), env.startable) &&
        rescanTimers == old(rescanTimers) + 1
      ensures old(connected) != [] ==>
        listeners == old(listeners) && connected == old(connected) && rescanTimers == old(rescanTimers)
      ensures searches ==
        old(searches) + (if old(connected) == [] then SearchAll(listeners, Multicast) else []) +
        Repeat(SearchAll(listeners, Multicast), DiscoveryAttempts)
    {
      ghost var start := Snapshot();
      created := Setup(env);
      assert Snapshot() == start;
      ScanRounds(during, DiscoveryAttempts);
      ReplayCacheKeys(start, hostWaiters, Delivered(during, DiscoveryAttempts));
      found := uidCaps.Values;
    }

    /**
     * The attempt loop of `async_discover`, run `attempts` times: a scan, then a sleep
     * during which a batch arrives.
     */
    method ScanRounds(during: seq<seq<Capabilities>>, attempts: nat)
      requires Valid()
      modifies this`hostCaps, this`uidCaps, this`scheduled, this`signalled, this`searches
      ensures Valid()
      ensures Snapshot() == Replay(old(Snapshot()), hostWaiters, Delivered(during, attempts))
      ensures searches == old(searches) + Repeat(SearchAll(listeners, Multicast), attempts)
    {
      ghost var round := SearchAll(listeners, Multicast);
      ghost var start := Snapshot();
      for attempt := 0 to attempts
        invariant Valid()
        invariant searches == old(searches) + Repeat(round, attempt)
        invariant Snapshot() == Replay(start, hostWaiters, Delivered(during, attempt))
      {
        ghost var sent, seen := searches, Snapshot();
        ScanRound(Batch(during, attempt));
        RoundStep(old(searches), round, attempt, sent, searches);
        DeliveredStep(start, hostWaiters, during, attempt, seen, Snapshot());
      }
    }

    /** One attempt of `async_discover`: a scan, then the responses `batch` arrive. */
    method ScanRound(batch: seq<Capabilities>)
      requires Valid()
      modifies this`hostCaps, this`uidCaps, this`scheduled, this`signalled, this`searches
      ensures Valid()
      ensures searches == old(searches) + SearchAll(listeners, Multicast)
      ensures Snapshot() == Replay(old(Snapshot()), hostWaiters, batch)
    {
      Scan();
      DeliverResponses(batch);
    }

    /**
     * `async_get_capabilities`. A cached host is answered at once, with no search and no
     * waiter. Otherwise one waiter is registered under `host`, setup runs, one unicast
     * search goes out per active listener, the responses in `during` arrive while the
     * lookup waits (the wait ends by its event or by the timeout), the waiter is removed
     * again and the answer is whatever the host cache holds then.
     */
    method GetCapabilities(host: string, env: Environment, during: seq<Capabilities>) returns (caps: Option<Capabilities>, ghost created: seq<Listener>)
      requires Valid()
      modifies this`hostCaps, this`uidCaps, this`scheduled, this`signalled, this`hostWaiters, this`nextWaiter
      modifies this`listeners, this`connected, this`rescanTimers, this`searches
      ensures Valid()
      ensures old(host in hostCaps) ==> caps == Some(old(hostCaps[host])) && unchanged(this) && created == []
      ensures old(host !in hostCaps) ==>
        var w := old(nextWaiter);
        var registered := old(hostWaiters)[host := WaitersOf(old(hostWaiters), host) + [w]];
        && nextWaiter == w + 1
        && Snapshot() == Replay(old(Snapshot()), registered, during)
        && hostWaiters == old(hostWaiters)[host := WaitersOf(old(hostWaiters), host)]
        && (w in signalled <==> host in HostsOf(during))
        && caps == (if host in hostCaps then Some(hostCaps[host]) else None)
        && (caps.Some? <==> host in HostsOf(during))
        && (old(connected) == [] ==>
              StartedFrom(listeners, connected, created, SourceSet(env), env.startable) &&
              rescanTimers == old(rescanTimers) + 1)
        && (old(connected) != [] ==>
              listeners == old(listeners) && connected == old(connected) && rescanTimers == old(rescanTimers))
        && searches ==
             old(searches) + (if old(connected) == [] then SearchAll(listeners, Multicast) else []) +
             SearchAll(listeners, Unicast(host))
    {
      if host in hostCaps {
        caps := Some(hostCaps[host]);
        created := [];
        return;
      }
      ghost var before := hostWaiters;
      var w := RegisterWaiter(host);
      created := AwaitHost(host, w, env, during);
      UnregisterWaiter(host, w, before);
      caps := if host in hostCaps then Some(hostCaps[host]) else None;
    }

    /**
     * The part of a lookup while its waiter `w` is registered: setup, one unicast search
     * per listener, then the wait, during which the responses `during` arrive.
     */
    method AwaitHost(host: string, w: WaiterId, env: Environment, during: seq<Capabilities>) returns (ghost created: seq<Listener>)
      requires Valid()
      requires w in WaitersOf(hostWaiters, host) && w !in signalled
      requires forall h2 :: h2 in hostWaiters && h2 != host ==> w !in hostWaiters[h2]
      modifies this`hostCaps, this`uidCaps, this`scheduled, this`signalled
      modifies this`listeners, this`connected, this`rescanTimers, this`searches
      ensures Valid()
      ensures Snapshot() == Replay(old(Snapshot()), hostWaiters, during)
      ensures w in signalled <==> host in HostsOf(during)
      ensures hostCaps.Keys == old(hostCaps).Keys + HostsOf(during)
      ensures old(connected) == [] ==>
        StartedFrom(listeners, connected, created, SourceSet(env), env.startable) &&
        rescanTimers == old(rescanTimers) + 1
      ensures old(connected) != [] ==>
        listeners == old(listeners) && connected == old(connected) && rescanTimers == old(rescanTimers)
      ensures searches ==
        old(searches) + (if old(connected) == [] then SearchAll(listeners, Multicast) else []) +
        SearchAll(listeners, Unicast(host))
    {
      created := SetupAndSearch(host, env);
      DeliverResponses(during);
      ReplaySignals(old(Snapshot()), hostWaiters, during, host, w);
      ReplayCacheKeys(old(Snapshot()), hostWaiters, during);
    }

    /** The lookup's `await self.async_setup()`, then one unicast search per active listener. */
    method SetupAndSearch(host: string, env: Environment) returns (ghost created: seq<Listener>)
      requires Valid()
      modifies this`listeners, this`connected, this`rescanTimers, this`searches
      ensures Valid()
      ensures old(connected) == [] ==>
        StartedFrom(listeners, connected, created, SourceSet(env), env.startable) &&
        rescanTimers == old(rescanTimers) + 1
      ensures old(connected) != [] ==>
        listeners == old(listeners) && connected == old(connected) && rescanTimers == old(rescanTimers)
      ensures searches ==
        old(searches) + (if old(connected) == [] then SearchAll(listeners, Multicast) else []) +
        SearchAll(listeners, Unicast(host))
    {
      created := Setup(env);
      SearchOnEach(Unicast(host));
    }

    /** `self._host_discovered_events.setdefault(host, []).append(host_event)` with a new event. */
    method RegisterWaiter(host: string) returns (w: WaiterId)
      requires Valid()
      modifies this`hostWaiters, this`nextWaiter
      ensures Valid()
      ensures w == old(nextWaiter) && nextWaiter == w + 1
      ensures hostWaiters == old(hostWaiters)[host := WaitersOf(old(hostWaiters), host) + [w]]
      ensures w !in WaitersOf(old(hostWaiters), host) && w !in signalled
      ensures w in WaitersOf(hostWaiters, host)
      ensures forall h2 :: h2 in hostWaiters && h2 != host ==> w !in hostWaiters[h2]
    {
      w := nextWaiter;
      var pending := WaitersOf(hostWaiters, host);
      assert w !in pending;
      ghost var before := hostWaiters;
      nextWaiter := nextWaiter + 1;
      hostWaiters := hostWaiters[host := pending + [w]];
      assert WaitersDistinct(hostWaiters) by {
        forall h1, h2, i, j | h1 in hostWaiters && h2 in hostWaiters && 0 <= i < |hostWaiters[h1]| && 0 <= j < |hostWaiters[h2]| &&
          hostWaiters[h1][i] == hostWaiters[h2][j]
          ensures h1 == h2 && i == j
        {
          WaiterSlot(before, host, w, h1, i);
          WaiterSlot(before, host, w, h2, j);
        }
      }
      forall h2 | h2 in hostWaiters && h2 != host ensures w !in hostWaiters[h2] {
        assert hostWaiters[h2] == before[h2];
      }
      forall h, i | h in hostWaiters && 0 <= i < |hostWaiters[h]| ensures hostWaiters[h][i] < nextWaiter {
        WaiterSlot(before, host, w, h, i);
      }
    }

    /** `self._host_discovered_events[host].remove(host_event)`, after the matching `RegisterWaiter`. */
    method UnregisterWaiter(host: string, w: WaiterId, ghost before: map<string, seq<WaiterId>>)
      requires Valid() && WaitersDistinct(before)
      requires forall h, i :: h in before && 0 <= i < |before[h]| ==> before[h][i] < nextWaiter
      requires w !in WaitersOf(before, host)
      requires hostWaiters == before[host := WaitersOf(before, host) + [w]]
      modifies this`hostWaiters
      ensures Valid()
      ensures hostWaiters == before[host := WaitersOf(before, host)]
    {
      RemoveLastAdded(WaitersOf(before, host), w);
      hostWaiters := hostWaiters[host := RemoveFirst(hostWaiters[host], w)];
      if host in before {
        assert hostWaiters == before;
      } else {
        assert hostWaiters[host] == [];
        forall h | h in hostWaiters && h != host ensures hostWaiters[h] == before[h] { }
      }
    }

    /** Where a waiter sits once `w`, larger than every waiter so far, is appended under `host`. */
    static lemma WaiterSlot(waiters: map<string, seq<WaiterId>>, host: string, w: WaiterId, h: string, i: nat)
      requires forall h', k :: h' in waiters && 0 <= k < |waiters[h']| ==> waiters[h'][k] < w
      requires var ws := waiters[host := WaitersOf(waiters, host) + [w]]; h in ws && i < |ws[h]|
      ensures var ws := waiters[host := WaitersOf(waiters, host) + [w]];
        if h == host && i == |WaitersOf(waiters, host)| then ws[h][i] == w
        else h in waiters && i < |waiters[h]| && ws[h][i] == waiters[h][i] && waiters[h][i] < w
    {
    }
  }

  /** `YeelightScanner._scanner` with `async_get`: one scanner per process, made on first use. */
  class ScannerSlot {
    var scanner: YeelightScanner?

    constructor ()
      ensures scanner == null
    {
      scanner := null;
    }

    ghost predicate Valid()
      reads this, scanner
    {
      scanner != null ==> scanner.Valid()
    }

    method Get() returns (s: YeelightScanner)
      requires Valid()
      modifies this
      ensures Valid() && scanner == s
      ensures old(scanner) != null ==> s == old(scanner)
      ensures old(scanner) == null ==> fresh(s) && s.Pristine()
    {
      if scanner == null {
        scanner := new YeelightScanner();
      }
      s := scanner;
    }
  }
}
