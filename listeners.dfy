/**
 * The per-address search listeners (`SsdpSearchListener`) as the scanner sees them:
 * an identity, a source address, and the searches sent through them.
 */
module Listeners {
  import opened Sources
  import opened Seqs

  /** Listener number `index` (its position when it was created), bound to `source`. */
  datatype Listener = Listener(index: nat, source: IpAddress)

  /** A multicast search, or a search sent to one host on the SSDP port. */
  datatype Target = Multicast | Unicast(host: string)

  /** One search datagram, sent through the listener numbered `listener`. */
  datatype Search = Search(listener: nat, target: Target)

  /** `for listener in listeners: listener.async_search(target)`: one search per listener, in order. */
  function SearchAll(ls: seq<Listener>, t: Target): (r: seq<Search>)
    ensures |r| == |ls|
    ensures forall i :: 0 <= i < |ls| ==> r[i] == Search(ls[i].index, t)
  {
    if ls == [] then [] else [Search(ls[0].index, t)] + SearchAll(ls[1..], t)
  }

  /** `n` rounds of the same batch of searches. */
  function Repeat(batch: seq<Search>, n: nat): (r: seq<Search>)
  {
    if n == 0 then [] else Repeat(batch, n - 1) + batch
  }

  /** `n` rounds send `n` times as many datagrams as one round, the first round's first. */
  lemma {:induction false} RepeatLength(batch: seq<Search>, n: nat)
    ensures |Repeat(batch, n)| == n * |batch|
    ensures n > 0 ==> Repeat(batch, n)[..|batch|] == batch
  {
    if n > 0 {
      RepeatLength(batch, n - 1);
      if n > 1 {
        assert Repeat(batch, n)[..|batch|] == Repeat(batch, n - 1)[..|batch|];
      }
    }
  }

  /** The source addresses of the listeners. */
  function Addresses(ls: seq<Listener>): (r: set<IpAddress>)
  {
    set l | l in ls :: l.source
  }

  predicate DistinctSources(ls: seq<Listener>)
  {
    forall i, j :: 0 <= i < j < |ls| ==> ls[i].source != ls[j].source
  }

  /** `ls` lists one listener per address of `addresses`, numbered by position. */
  predicate Enumerates(ls: seq<Listener>, addresses: set<IpAddress>)
  {
    (forall i :: 0 <= i < |ls| ==> ls[i].index == i) && DistinctSources(ls) && Addresses(ls) == addresses
  }

  /** The listeners whose start succeeded (`ok`) or failed (`!ok`), in order. */
  function Filter(ls: seq<Listener>, startable: set<IpAddress>, ok: bool): (r: seq<Listener>)
    ensures |r| <= |ls|
  {
    if ls == [] then [] else (if (ls[0].source in startable) == ok then [ls[0]] else []) + Filter(ls[1..], startable, ok)
  }

  lemma {:induction false} FilterMembers(ls: seq<Listener>, startable: set<IpAddress>, ok: bool)
    ensures forall l :: l in Filter(ls, startable, ok) <==> l in ls && (l.source in startable) == ok
  {
    if ls != [] {
      FilterMembers(ls[1..], startable, ok);
      assert ls == [ls[0]] + ls[1..];
    }
  }

  /** One step of a loop that walks `ls` from position `i`. */
  lemma FilterFrom(ls: seq<Listener>, startable: set<IpAddress>, ok: bool, i: nat)
    requires i < |ls|
    ensures Filter(ls[i..], startable, ok) ==
      (if (ls[i].source in startable) == ok then [ls[i]] else []) + Filter(ls[i + 1..], startable, ok)
  {
    assert ls[i..][0] == ls[i] && ls[i..][1..] == ls[i + 1..];
  }

  lemma {:induction false} FilterSplits(ls: seq<Listener>, startable: set<IpAddress>)
    ensures |Filter(ls, startable, true)| + |Filter(ls, startable, false)| == |ls|
  {
    if ls != [] {
      FilterSplits(ls[1..], startable);
    }
  }

  lemma {:induction false} FilterKeepsDistinct(ls: seq<Listener>, startable: set<IpAddress>, ok: bool)
    requires DistinctSources(ls)
    ensures DistinctSources(Filter(ls, startable, ok))
  {
    if ls != [] {
      var t := ls[1..];
      assert DistinctSources(t) by {
        forall i, j | 0 <= i < j < |t| ensures t[i].source != t[j].source { assert t[i] == ls[i + 1] && t[j] == ls[j + 1]; }
      }
      FilterKeepsDistinct(t, startable, ok);
      var ft := Filter(t, startable, ok);
      FilterMembers(t, startable, ok);
      if (ls[0].source in startable) == ok {
        forall l | l in ft ensures l.source != ls[0].source {
          var j :| 0 <= j < |t| && t[j] == l;
          assert t[j] == ls[j + 1];
        }
        var f := [ls[0]] + ft;
        forall i, j | 0 <= i < j < |f| ensures f[i].source != f[j].source {
          if i > 0 { assert f[i] == ft[i - 1] && f[j] == ft[j - 1]; } else { assert f[j] in ft; }
        }
      }
    }
  }

  /** With distinct sources, the list is as long as its set of sources. */
  lemma {:induction false} DistinctSourcesCount(ls: seq<Listener>)
    requires DistinctSources(ls)
    ensures |Addresses(ls)| == |ls|
  {
    if ls != [] {
      var t := ls[1..];
      assert DistinctSources(t) by {
        forall i, j | 0 <= i < j < |t| ensures t[i].source != t[j].source { assert t[i] == ls[i + 1] && t[j] == ls[j + 1]; }
      }
      DistinctSourcesCount(t);
      assert ls == [ls[0]] + t;
      assert ls[0].source !in Addresses(t);
      assert Addresses(ls) == {ls[0].source} + Addresses(t);
    } else {
      assert Addresses(ls) == {};
    }
  }

  /** What removing the failed listeners one by one relies on. */
  lemma FailedAreRemovable(ls: seq<Listener>, addresses: set<IpAddress>, startable: set<IpAddress>)
    requires Enumerates(ls, addresses)
    ensures Distinct(ls)
    ensures var failed := Filter(ls, startable, false);
      Distinct(failed) && (forall k :: 0 <= k < |failed| ==> failed[k] in ls) &&
      (forall l :: l in ls ==> (l in Elems(failed) <==> l.source !in startable))
  {
    var failed := Filter(ls, startable, false);
    FilterKeepsDistinct(ls, startable, false);
    FilterMembers(ls, startable, false);
    forall i, j | 0 <= i < j < |ls| ensures ls[i] != ls[j] {
      assert ls[i].source != ls[j].source;
    }
    forall i, j | 0 <= i < j < |failed| ensures failed[i] != failed[j] {
      assert failed[i].source != failed[j].source;
    }
    forall k | 0 <= k < |failed| ensures failed[k] in ls {
      assert failed[k] in failed;
    }
  }

  /**
   * Removing the failed listeners (any set telling them apart from the others) leaves
   * exactly the listeners that started, in their original order.
   */
  lemma {:induction false} WithoutFailedIsStarted(ls: seq<Listener>, failed: set<Listener>, startable: set<IpAddress>)
    requires forall l :: l in ls ==> (l in failed <==> l.source !in startable)
    ensures Without(ls, failed) == Filter(ls, startable, true)
  {
    if ls != [] {
      assert ls == [ls[0]] + ls[1..];
      WithoutFailedIsStarted(ls[1..], failed, startable);
    }
  }

  /** Listeners enumerated from `sources`: one per address, and one survivor per startable address. */
  lemma SurvivorsCount(created: seq<Listener>, sources: set<IpAddress>, startable: set<IpAddress>)
    requires Enumerates(created, sources)
    ensures |created| == |sources|
    ensures |Filter(created, startable, true)| == |sources * startable|
  {
    DistinctSourcesCount(created);
    var kept := Filter(created, startable, true);
    FilterKeepsDistinct(created, startable, true);
    FilterMembers(created, startable, true);
    DistinctSourcesCount(kept);
    assert Addresses(kept) == sources * startable by {
      forall ip | ip in sources * startable ensures ip in Addresses(kept) {
        var l :| l in created && l.source == ip;
        assert l in kept;
      }
    }
  }
}
