/**
 * Discovery responses and the pure model of how the scanner absorbs them
 * (`YeelightScanner._async_process_entry`, homeassistant/components/yeelight/scanner.py).
 *
 * `Absorb` is one processed response, `Replay` a sequence of them; the scanner's
 * methods are proved to move their state exactly as these functions say, and the
 * lemmas below state what the source promises about such sequences.
 */
module Responses {
  import opened Wrappers
  import opened Seqs

  /** Identity of one `asyncio.Event` a targeted lookup waits on. */
  type WaiterId = nat

  /**
   * A capability record: the response's header dictionary, with the `id` header and the
   * hostname of the `location` header already extracted (None when the header is
   * missing, or the URL has no hostname). Header names are already normalised.
   */
  datatype Capabilities = Capabilities(id: Option<string>, hostname: Option<string>, headers: map<string, string>)

  /** A record the processing path accepts: it has an id and a non-empty hostname. */
  predicate Accepted(r: Capabilities)
  {
    r.id.Some? && r.hostname.Some? && r.hostname.value != ""
  }

  function Id(r: Capabilities): string
    requires Accepted(r)
  {
    r.id.value
  }

  function Host(r: Capabilities): string
    requires Accepted(r)
  {
    r.hostname.value
  }

  /** The hostname last recorded for device `u`, if any. */
  function PriorHost(byId: map<string, Capabilities>, u: string): (prior: Option<string>)
  {
    if u in byId then byId[u].hostname else None
  }

  /** The "new or moved" rule: no entry for the id yet, or the entry's hostname differs. */
  predicate NewOrMoved(byId: map<string, Capabilities>, r: Capabilities): (b: bool)
    requires Accepted(r)
    ensures b <==> PriorHost(byId, Id(r)) != r.hostname
  {
    Id(r) !in byId || byId[Id(r)].hostname != r.hostname
  }

  /** `waiters.get(h, [])`. */
  function WaitersOf(waiters: map<string, seq<WaiterId>>, h: string): (ws: seq<WaiterId>)
  {
    if h in waiters then waiters[h] else []
  }

  /** Every waiter handle is registered once, under one host. */
  predicate WaitersDistinct(waiters: map<string, seq<WaiterId>>)
  {
    forall h1, h2, i, j ::
      (h1 in waiters && h2 in waiters && 0 <= i < |waiters[h1]| && 0 <= j < |waiters[h2]| &&
       waiters[h1][i] == waiters[h2][j]) ==> h1 == h2 && i == j
  }

  /** Each cache entry is an accepted record filed under its own hostname / id. */
  predicate CachesWellFormed(byHost: map<string, Capabilities>, byId: map<string, Capabilities>)
  {
    (forall h :: h in byHost ==> Accepted(byHost[h]) && Host(byHost[h]) == h) &&
    (forall u :: u in byId ==> Accepted(byId[u]) && Id(byId[u]) == u)
  }

  /**
   * What response processing can change: the host cache, the identity cache, the
   * flow starts scheduled so far and the set of waiters signalled so far.
   */
  datatype Observed = Observed(
    byHost: map<string, Capabilities>,
    byId: map<string, Capabilities>,
    scheduled: seq<Capabilities>,
    signalled: set<WaiterId>)

  /** Processing one response while `waiters` are registered. */
  function Absorb(o: Observed, waiters: map<string, seq<WaiterId>>, r: Capabilities): (o': Observed)
    ensures !Accepted(r) ==> o' == o
    ensures Accepted(r) ==> Host(r) in o'.byHost && o'.byHost[Host(r)] == r && Id(r) in o'.byId && o'.byId[Id(r)] == r
    ensures o.scheduled <= o'.scheduled && |o'.scheduled| <= |o.scheduled| + 1
    ensures o.signalled <= o'.signalled
  {
    if !Accepted(r) then o
    else
      Observed(
        o.byHost[Host(r) := r],
        o.byId[Id(r) := r],
        if NewOrMoved(o.byId, r) then o.scheduled + [r] else o.scheduled,
        o.signalled + Elems(WaitersOf(waiters, Host(r))))
  }

  /** Processing the responses `rs` in order. */
  function Replay(o: Observed, waiters: map<string, seq<WaiterId>>, rs: seq<Capabilities>): (o': Observed)
    ensures o.scheduled <= o'.scheduled && |o'.scheduled| <= |o.scheduled| + |rs|
    ensures o.signalled <= o'.signalled
    decreases |rs|
  {
    if rs == [] then o else Replay(Absorb(o, waiters, rs[0]), waiters, rs[1..])
  }

  /** The hostnames of the accepted responses in `rs`. */
  function HostsOf(rs: seq<Capabilities>): (hosts: set<string>)
  {
    if rs == [] then {} else (if Accepted(rs[0]) then {Host(rs[0])} else {}) + HostsOf(rs[1..])
  }

  /** The ids of the accepted responses in `rs`. */
  function IdsOf(rs: seq<Capabilities>): (ids: set<string>)
  {
    if rs == [] then {} else (if Accepted(rs[0]) then {Id(rs[0])} else {}) + IdsOf(rs[1..])
  }

  /**
   * Reference definition of "one notification per change": the records of `rs` whose
   * hostname differs from the hostname before them (`prior` for the first one).
   */
  function Changes(prior: Option<string>, rs: seq<Capabilities>): (r: seq<Capabilities>)
    decreases |rs|
  {
    if rs == [] then [] else (if rs[0].hostname != prior then [rs[0]] else []) + Changes(rs[0].hostname, rs[1..])
  }

  lemma {:induction false} ReplayAppend(o: Observed, waiters: map<string, seq<WaiterId>>, a: seq<Capabilities>, b: seq<Capabilities>)
    ensures Replay(o, waiters, a + b) == Replay(Replay(o, waiters, a), waiters, b)
    decreases |a|
  {
    if a == [] {
      assert a + b == b;
    } else {
      assert (a + b)[0] == a[0] && (a + b)[1..] == a[1..] + b;
      ReplayAppend(Absorb(o, waiters, a[0]), waiters, a[1..], b);
    }
  }

  /** The caches only gain keys: exactly the hosts and ids of the accepted responses. */
  lemma {:induction false} ReplayCacheKeys(o: Observed, waiters: map<string, seq<WaiterId>>, rs: seq<Capabilities>)
    ensures Replay(o, waiters, rs).byHost.Keys == o.byHost.Keys + HostsOf(rs)
    ensures Replay(o, waiters, rs).byId.Keys == o.byId.Keys + IdsOf(rs)
    decreases |rs|
  {
    if rs != [] {
      ReplayCacheKeys(Absorb(o, waiters, rs[0]), waiters, rs[1..]);
    }
  }

  /** A host no response names keeps its cache entry. */
  lemma {:induction false} ReplayKeepsOtherHosts(o: Observed, waiters: map<string, seq<WaiterId>>, rs: seq<Capabilities>, h: string)
    requires h in o.byHost && h !in HostsOf(rs)
    ensures h in Replay(o, waiters, rs).byHost && Replay(o, waiters, rs).byHost[h] == o.byHost[h]
    decreases |rs|
  {
    if rs != [] {
      ReplayKeepsOtherHosts(Absorb(o, waiters, rs[0]), waiters, rs[1..], h);
    }
  }

  /** Most recent wins: after an accepted last response, both caches hold it. */
  lemma ReplayLastWins(o: Observed, waiters: map<string, seq<WaiterId>>, rs: seq<Capabilities>)
    requires rs != [] && Accepted(rs[|rs| - 1])
    ensures var last, o' := rs[|rs| - 1], Replay(o, waiters, rs);
      Host(last) in o'.byHost && o'.byHost[Host(last)] == last && Id(last) in o'.byId && o'.byId[Id(last)] == last
  {
    var n := |rs| - 1;
    assert rs == rs[..n] + [rs[n]];
    ReplayAppend(o, waiters, rs[..n], [rs[n]]);
  }

  /**
   * A waiter registered under host `h` alone ends up signalled exactly when it already
   * was, or some accepted response names `h`.
   */
  lemma {:induction false} ReplaySignals(o: Observed, waiters: map<string, seq<WaiterId>>, rs: seq<Capabilities>, h: string, w: WaiterId)
    requires w in WaitersOf(waiters, h)
    requires forall h2 :: h2 in waiters && h2 != h ==> w !in waiters[h2]
    ensures w in Replay(o, waiters, rs).signalled <==> w in o.signalled || h in HostsOf(rs)
    decreases |rs|
  {
    if rs != [] {
      var r := rs[0];
      if Accepted(r) {
        assert w in Elems(WaitersOf(waiters, Host(r))) <==> Host(r) == h;
      }
      ReplaySignals(Absorb(o, waiters, r), waiters, rs[1..], h, w);
    }
  }

  /**
   * Processing one response signals a waiter registered under `h` exactly when the
   * response is for `h`: waiters of other hosts are left alone.
   */
  lemma AbsorbSignalsOnlyItsHost(o: Observed, waiters: map<string, seq<WaiterId>>, r: Capabilities, h: string, i: nat)
    requires Accepted(r) && WaitersDistinct(waiters)
    requires h in waiters && i < |waiters[h]|
    ensures waiters[h][i] in Absorb(o, waiters, r).signalled <==> waiters[h][i] in o.signalled || h == Host(r)
  {
  }

  /**
   * For responses that all carry id `u`, a flow start is scheduled for exactly the
   * responses whose hostname differs from the one recorded before them.
   */
  lemma {:induction false} ReplayAnnouncesEachMove(o: Observed, waiters: map<string, seq<WaiterId>>, rs: seq<Capabilities>, u: string)
    requires forall k :: 0 <= k < |rs| ==> Accepted(rs[k]) && Id(rs[k]) == u
    ensures Replay(o, waiters, rs).scheduled == o.scheduled + Changes(PriorHost(o.byId, u), rs)
    decreases |rs|
  {
    if rs == [] {
      assert o.scheduled + [] == o.scheduled;
    } else {
      var r := rs[0];
      var step := if r.hostname != PriorHost(o.byId, u) then [r] else [];
      var o' := Absorb(o, waiters, r);
      AbsorbSchedules(o, waiters, r, u);
      ReplayAnnouncesEachMove(o', waiters, rs[1..], u);
      var later := Changes(r.hostname, rs[1..]);
      assert Changes(PriorHost(o.byId, u), rs) == step + later;
      ConcatAssoc(o.scheduled, step, later);
    }
  }

  /** One accepted response for device `u` schedules a flow start exactly when its hostname is new for `u`. */
  lemma AbsorbSchedules(o: Observed, waiters: map<string, seq<WaiterId>>, r: Capabilities, u: string)
    requires Accepted(r) && Id(r) == u
    ensures Absorb(o, waiters, r).scheduled ==
      o.scheduled + (if r.hostname != PriorHost(o.byId, u) then [r] else [])
    ensures PriorHost(Absorb(o, waiters, r).byId, u) == r.hostname
  {
  }

  /** The accepted records of `s` that carry id `u`, in order. */
  function OfDevice(s: seq<Capabilities>, u: string): (r: seq<Capabilities>)
    ensures |r| <= |s|
    ensures forall k :: 0 <= k < |r| ==> Accepted(r[k]) && Id(r[k]) == u
  {
    if s == [] then [] else (if Accepted(s[0]) && Id(s[0]) == u then [s[0]] else []) + OfDevice(s[1..], u)
  }

  lemma {:induction false} OfDeviceAppend(a: seq<Capabilities>, b: seq<Capabilities>, u: string)
    ensures OfDevice(a + b, u) == OfDevice(a, u) + OfDevice(b, u)
    decreases |a|
  {
    if a == [] {
      assert a + b == b;
    } else {
      assert (a + b)[0] == a[0] && (a + b)[1..] == a[1..] + b;
      OfDeviceAppend(a[1..], b, u);
      var head := if Accepted(a[0]) && Id(a[0]) == u then [a[0]] else [];
      ConcatAssoc(head, OfDevice(a[1..], u), OfDevice(b, u));
    }
  }

  /**
   * In any mix of responses, the flow starts scheduled for device `u` are exactly the
   * changes of `u`'s own hostname: responses of other devices, and rejected ones, never
   * add or suppress a notification for `u`.
   */
  lemma {:induction false} ReplayAnnouncesPerDevice(o: Observed, waiters: map<string, seq<WaiterId>>, rs: seq<Capabilities>, u: string)
    ensures OfDevice(Replay(o, waiters, rs).scheduled, u) ==
      OfDevice(o.scheduled, u) + Changes(PriorHost(o.byId, u), OfDevice(rs, u))
    decreases |rs|
  {
    if rs == [] {
      assert OfDevice(o.scheduled, u) + [] == OfDevice(o.scheduled, u);
    } else {
      var r := rs[0];
      var o' := Absorb(o, waiters, r);
      ReplayAnnouncesPerDevice(o', waiters, rs[1..], u);
      var rest := OfDevice(rs[1..], u);
      if !Accepted(r) {
        assert OfDevice(rs, u) == rest;
      } else {
        var step := if r.hostname != PriorHost(o.byId, Id(r)) then [r] else [];
        AbsorbSchedules(o, waiters, r, Id(r));
        OfDeviceAppend(o.scheduled, step, u);
        if Id(r) != u {
          assert PriorHost(o'.byId, u) == PriorHost(o.byId, u);
          assert OfDevice(step, u) == [] by {
            if step != [] { assert step[1..] == []; }
          }
          assert OfDevice(o.scheduled, u) + [] == OfDevice(o.scheduled, u);
          assert OfDevice(rs, u) == rest;
        } else {
          assert OfDevice(step, u) == step by {
            if step != [] { assert step[1..] == []; }
          }
          assert OfDevice(rs, u) == [r] + rest;
          assert ([r] + rest)[0] == r && ([r] + rest)[1..] == rest;
          var later := Changes(r.hostname, rest);
          assert Changes(PriorHost(o.byId, u), [r] + rest) == step + later;
          ConcatAssoc(OfDevice(o.scheduled, u), step, later);
        }
      }
    }
  }

  lemma {:induction false} ChangesOfOneHost(h: string, rs: seq<Capabilities>)
    requires forall k :: 0 <= k < |rs| ==> rs[k].hostname == Some(h)
    ensures Changes(Some(h), rs) == []
    decreases |rs|
  {
    if rs != [] {
      ChangesOfOneHost(h, rs[1..]);
    }
  }

  /**
   * Repeated responses from one device at one host: only the first can schedule a flow
   * start (and only when the device is new or was elsewhere), while both caches end up
   * holding the latest response.
   */
  lemma SameHostAnnouncesOnce(o: Observed, waiters: map<string, seq<WaiterId>>, rs: seq<Capabilities>, u: string, h: string)
    requires rs != [] && h != ""
    requires forall k :: 0 <= k < |rs| ==> rs[k].id == Some(u) && rs[k].hostname == Some(h)
    ensures Replay(o, waiters, rs).scheduled ==
      o.scheduled + (if PriorHost(o.byId, u) == Some(h) then [] else [rs[0]])
    ensures h in Replay(o, waiters, rs).byHost && Replay(o, waiters, rs).byHost[h] == rs[|rs| - 1]
    ensures u in Replay(o, waiters, rs).byId && Replay(o, waiters, rs).byId[u] == rs[|rs| - 1]
  {
    ReplayAnnouncesEachMove(o, waiters, rs, u);
    ChangesOfOneHost(h, rs[1..]);
    assert Changes(PriorHost(o.byId, u), rs) ==
      (if PriorHost(o.byId, u) == Some(h) then [] else [rs[0]]) + Changes(Some(h), rs[1..]);
    ReplayLastWins(o, waiters, rs);
  }
}
