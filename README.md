# Yeelight discovery scanner, modelled in Dafny

This project models `YeelightScanner`, the SSDP discovery scanner of Home Assistant's
Yeelight integration (homeassistant/components/yeelight/scanner.py). It also proves
properties of that model.

The scanner is one object per process. Its state:

- a host cache (hostname to latest capability record);
- an identity cache (device id to latest record);
- the wait handles of pending targeted lookups, per hostname;
- one SSDP listener per local source address;
- one "connected" flag per listener it created.

Responses are handled by `_async_process_entry`. It files each response under its
hostname and its id. It schedules a discovery flow when the device is new or has moved
to another host. It then wakes every lookup waiting for that host.

The model is split by concern:

- `wrappers.dfy`: `Option`.
- `seqs.dfy`: sequence helpers. `RemoveFirst` is Python's `list.remove`; `Without` drops
  a set of elements.
- `responses.dfy`:
  - the capability record;
  - `Absorb`, one processed response as a pure function of the observable state;
  - `Replay`, a sequence of processed responses;
  - the lemmas about notifications, caches and waiters.
- `sources.dfy`: IP addresses and `_async_build_source_set`.
- `listeners.dfy`: listeners, search datagrams, and the filter that drops failed listeners.
- `scanner.dfy`:
  - the class `YeelightScanner`, updated in place by its methods. It has one field per
    cache, waiter table, listener list and flag list of the source, a count of registered
    re-scan timers in place of `_track_interval`, and fields that record the side effects;
  - `ScannerSlot`, the class-level singleton behind `async_get`.

Each method's `ensures` ties the new state to `Absorb` or `Replay` of the old state, or
to `Filter`/`SearchAll` of its listener list. The lemmas then state what the source
promises about those functions.

The asynchronous parts are modelled like this:

- **Network helper results.** Whether only the default interface is enabled, and the
  enabled source addresses, come in as an `Environment`.
- **Listener start.** Whether a listener's `async_start` succeeds also comes in as part of
  the `Environment`. A listener that starts is taken to have run its connect callback, so
  its flag is set, by the time `asyncio.gather` returns.
- **Suspension points.** The responses that arrive while a coroutine is suspended are an
  input sequence. The transport hands them to `ProcessEntry` one by one, in order (see
  `DeliverResponses`).
- **Side effects that leave the scanner** are recorded in fields:
  - the search datagrams sent;
  - the flow starts scheduled;
  - the wait handles that were set;
  - how many periodic re-scans have been registered.

A response the source cannot process is called rejected here. That is a response
missing its `id`, or one whose location has no hostname. The source raises before it
changes anything (a `KeyError` or an `AssertionError` in the callback), so in the model
a rejected response leaves the state unchanged. Logging such a record and dropping it
would leave the same observable state.

## Model

| member | source | states |
|---|---|---|
| Scanner.ScannerSlot.Get | homeassistant/components/yeelight/scanner.py:40-46 | `async_get`: when an instance exists it is returned unchanged; otherwise a fresh scanner in its initial state is created, stored and returned |
| Scanner.ScannerSlot.constructor | homeassistant/components/yeelight/scanner.py:38 | the class-level slot starts empty |
| Scanner.YeelightScanner.constructor | homeassistant/components/yeelight/scanner.py:48-56 | every cache, waiter table, listener list and flag list is empty, and the invariant holds |
| Scanner.YeelightScanner.Setup | homeassistant/components/yeelight/scanner.py:58-110 | a second call, once flags exist, changes no listener, flag, search or timer; a first call (every call while no flag exists, an empty source set included) leaves the listeners enumerated from `_async_build_source_set`, one flag each, the started ones kept in order, every failed one's flag set, one more re-scan timer registered, and one multicast search per surviving listener |
| Scanner.YeelightScanner.FirstSetup | homeassistant/components/yeelight/scanner.py:64-110 | after the first setup, the listeners satisfy `StartedFrom` for the source set, one more re-scan timer is registered and one multicast search per survivor is sent; the invariant (all flags set) holds |
| Scanner.YeelightScanner.StartAll | homeassistant/components/yeelight/scanner.py:64-104 | creating, starting and pruning the listeners yields `Filter(created, startable, true)` with every flag set |
| Scanner.YeelightScanner.CreateListeners | homeassistant/components/yeelight/scanner.py:64-85 | one listener per source address, numbered by position with distinct sources, and one unset flag per listener |
| Scanner.YeelightScanner.StartListeners | homeassistant/components/yeelight/scanner.py:87-90 | result `k` says whether listener `k` started; a started listener's flag is set by its connect callback, others keep their flag |
| Scanner.YeelightScanner.CollectFailed | homeassistant/components/yeelight/scanner.py:91-101 | the failed listeners are collected in listener order (`Filter(listeners, startable, false)`) and, with the started ones, every flag ends up set |
| Scanner.YeelightScanner.RemoveListeners | homeassistant/components/yeelight/scanner.py:103-104 | removing each failed listener in turn leaves the old list without exactly those listeners, order kept |
| Scanner.YeelightScanner.WaitConnected | homeassistant/components/yeelight/scanner.py:112-114 | the startup barrier passes exactly when every flag is set |
| Sources.BuildSourceSet | homeassistant/components/yeelight/scanner.py:116-128 | only the wildcard address when only the default interface is enabled; otherwise an address is in the set iff it is enabled, IPv4 and not loopback; every member is non-loopback IPv4 and there are no more members than enabled addresses |
| Sources.SubsetOfSeqIsNoLarger | homeassistant/components/yeelight/scanner.py:124-128 | a set drawn from a list has no more elements than the list |
| Scanner.YeelightScanner.Discover | homeassistant/components/yeelight/scanner.py:130-137 | setup, then `DISCOVERY_ATTEMPTS` rounds of a multicast scan each followed by a batch of responses; the state is `Replay` of all batches in order, the identity cache gains exactly their ids, and the result is the identity cache's values; what setup did is stated as in `Setup` (listeners `StartedFrom` the source set and one more timer on a first call, listeners, flags and timers unchanged otherwise) |
| Scanner.YeelightScanner.ScanRounds | homeassistant/components/yeelight/scanner.py:134-136 | after `n` attempts, the searches are `n` repetitions of one multicast round and the state is `Replay` of the first `n` batches |
| Scanner.YeelightScanner.ScanRound | homeassistant/components/yeelight/scanner.py:135-136 | one attempt sends one multicast round, then processes its batch |
| Scanner.DeliveredStep | homeassistant/components/yeelight/scanner.py:134-136 | processing batch `n` after the first `n` batches is processing the first `n + 1` |
| Scanner.RoundStep | homeassistant/components/yeelight/scanner.py:134-135 | one more scan appends one more round to the rounds sent so far |
| Listeners.RepeatLength | homeassistant/components/yeelight/scanner.py:134-135 | `n` rounds send `n` times as many datagrams as one round, with the first round first |
| Scanner.YeelightScanner.Scan | homeassistant/components/yeelight/scanner.py:139-144 | `async_scan` sends one multicast search per active listener, in listener order, and changes nothing else |
| Scanner.YeelightScanner.SearchOnEach | homeassistant/components/yeelight/scanner.py:143-144 | sending target `t` through every listener appends `SearchAll(listeners, t)` to the searches |
| Listeners.SearchAll | homeassistant/components/yeelight/scanner.py:143-144 | one datagram per listener, and datagram `i` is listener `i`'s, to the given target |
| Scanner.YeelightScanner.GetCapabilities | homeassistant/components/yeelight/scanner.py:146-163 | a cached host is answered with its record, with no search, no waiter and no state change; otherwise exactly one new waiter is added under the host, setup runs, one unicast search per listener is sent, the responses are replayed with that waiter registered, the waiter is removed again (the table is as before apart from an empty list left for the host), the waiter was signalled iff some response named the host, and the answer is `host_caps.get(host)`, present iff some response named the host; on that path setup's effect is stated as in `Setup` |
| Scanner.YeelightScanner.RegisterWaiter | homeassistant/components/yeelight/scanner.py:151-152 | `setdefault(host, []).append(event)` with a fresh handle, found under that host alone, not yet signalled |
| Scanner.YeelightScanner.AwaitHost | homeassistant/components/yeelight/scanner.py:153-160 | while the waiter is registered: setup, one unicast search per listener, then the responses; the waiter is signalled iff a response names the host, and the host cache gains exactly the responses' hostnames; setup's effect is stated as in `Setup` |
| Scanner.YeelightScanner.SetupAndSearch | homeassistant/components/yeelight/scanner.py:153-156 | setup followed by one unicast search to the host per active listener; setup's effect on listeners, flags and timers is stated as in `Setup` |
| Scanner.YeelightScanner.UnregisterWaiter | homeassistant/components/yeelight/scanner.py:162 | removing the handle just appended restores the host's previous list and keeps the invariant |
| Scanner.YeelightScanner.WaiterSlot | homeassistant/components/yeelight/scanner.py:152 | after appending a handle larger than all others, each slot holds either that handle or the handle it held before |
| Seqs.RemoveFirst | homeassistant/components/yeelight/scanner.py:162 | `list.remove` of a present element makes the list one shorter |
| Seqs.RemoveFirstMultiset | homeassistant/components/yeelight/scanner.py:104 | `list.remove` removes exactly one occurrence of the element |
| Seqs.RemoveLastAdded | homeassistant/components/yeelight/scanner.py:162 | removing the element just appended to a list that lacked it gives back the old list |
| Seqs.RemoveFirstWithout | homeassistant/components/yeelight/scanner.py:103-104 | in a duplicate-free list, removing one more failed listener extends the set already removed |
| Scanner.YeelightScanner.ScheduleFlowStart | homeassistant/components/yeelight/scanner.py:165-182 | `_async_discovered_by_ssdp` schedules exactly one delayed flow start, for this record |
| Scanner.YeelightScanner.ProcessEntry | homeassistant/components/yeelight/scanner.py:184-199 | a rejected record changes nothing; an accepted one overwrites both caches at its hostname and id (other keys unchanged), schedules a flow start iff the id is new or its recorded hostname differs, and signals exactly the waiters of its hostname; the waiter table is not touched |
| Scanner.YeelightScanner.SetEvents | homeassistant/components/yeelight/scanner.py:198-199 | every waiter of the list is signalled and no other |
| Scanner.YeelightScanner.DeliverResponses | homeassistant/components/yeelight/scanner.py:79 | the processing callback, run once per response in order, moves the state exactly as `Replay` |
| Scanner.CachesKeepShape | homeassistant/components/yeelight/scanner.py:196-197 | filing an accepted record under its hostname and id keeps every cache entry filed under its own key |
| Responses.NewOrMoved | homeassistant/components/yeelight/scanner.py:191-193 | a flow start is due exactly when the hostname recorded for the record's id differs from its own, a missing id counting as no hostname |
| Responses.Absorb | homeassistant/components/yeelight/scanner.py:184-199 | a rejected record leaves the state as it was; an accepted one is held by both caches at its hostname and id afterwards; at most one flow start is appended, the earlier ones kept; no signal is withdrawn |
| Responses.Replay | homeassistant/components/yeelight/scanner.py:184-199 | processing responses in delivery order only appends flow starts, at most one per response, and never withdraws a signal |
| Responses.ReplayAppend | homeassistant/components/yeelight/scanner.py:184-199 | processing `a` and then `b` is processing `a + b` |
| Responses.ReplayCacheKeys | homeassistant/components/yeelight/scanner.py:196-197 | the host cache gains exactly the hostnames, and the identity cache exactly the ids, of the accepted responses |
| Responses.ReplayKeepsOtherHosts | homeassistant/components/yeelight/scanner.py:196 | a hostname that no response names keeps its host cache entry |
| Responses.ReplayLastWins | homeassistant/components/yeelight/scanner.py:196-197 | after an accepted last response, both caches hold that response at its hostname and id |
| Responses.ReplaySignals | homeassistant/components/yeelight/scanner.py:198-199 | a waiter registered under host `h` alone ends up signalled iff it already was or an accepted response names `h` |
| Responses.AbsorbSignalsOnlyItsHost | homeassistant/components/yeelight/scanner.py:198-199 | one response signals a waiter of host `h` iff it is for `h`; waiters of other hosts are left alone |
| Responses.AbsorbSchedules | homeassistant/components/yeelight/scanner.py:191-195 | one accepted response for device `u` schedules a flow start iff its hostname differs from the one recorded for `u`, and records its hostname for `u` |
| Responses.ReplayAnnouncesEachMove | homeassistant/components/yeelight/scanner.py:191-197 | for responses all from device `u`, the flow starts scheduled are exactly `Changes`: the responses whose hostname differs from the one before them, so each host change notifies once |
| Responses.OfDevice | homeassistant/components/yeelight/scanner.py:188-193 | the records of one device in a sequence, in order: no more than the sequence holds, each accepted and carrying that id |
| Responses.OfDeviceAppend | homeassistant/components/yeelight/scanner.py:184-199 | a device's records in two consecutive stretches of responses are its records in the first followed by those in the second |
| Responses.ReplayAnnouncesPerDevice | homeassistant/components/yeelight/scanner.py:191-197 | for responses from any mix of devices, the flow starts scheduled for device `u` are the earlier ones followed by `Changes` of `u`'s own responses, counted from the hostname recorded for `u`; other devices' responses do not affect `u`'s flow starts |
| Responses.ChangesOfOneHost | homeassistant/components/yeelight/scanner.py:193 | responses that all carry the hostname already recorded cause no changes |
| Responses.SameHostAnnouncesOnce | homeassistant/components/yeelight/scanner.py:191-197 | repeated responses from one device at one host schedule at most one flow start, for the first and only when the device was not already recorded at that host, while both caches end with the latest response |
| Listeners.Filter | homeassistant/components/yeelight/scanner.py:91-104 | the started (or failed) listeners, in order, are never more than the listeners created |
| Seqs.Without | homeassistant/components/yeelight/scanner.py:103-104 | removing a set of listeners never lengthens the list |
| Listeners.FilterMembers | homeassistant/components/yeelight/scanner.py:103-104 | a listener survives the filter iff it is in the list and its start outcome matches |
| Listeners.FilterSplits | homeassistant/components/yeelight/scanner.py:91-104 | every listener is either started or failed: the two filters' lengths add up to the list's |
| Listeners.FilterKeepsDistinct | homeassistant/components/yeelight/scanner.py:103-104 | dropping listeners keeps the sources of the rest distinct |
| Listeners.DistinctSourcesCount | homeassistant/components/yeelight/scanner.py:64-85 | a list with distinct sources is as long as its set of sources |
| Listeners.FailedAreRemovable | homeassistant/components/yeelight/scanner.py:91-104 | for listeners enumerated from a source set, the list and its failed sublist are duplicate-free, the failed ones are in the list, and a listener is failed iff its source did not start |
| Listeners.WithoutFailedIsStarted | homeassistant/components/yeelight/scanner.py:103-104 | removing the failed listeners leaves exactly the started ones, in order |
| Listeners.SurvivorsCount | homeassistant/components/yeelight/scanner.py:64-104 | one created listener, hence one flag, per source address, and as many survivors as source addresses that start |

## Left out

- Time is not modelled: the sleeps (`DISCOVERY_SEARCH_INTERVAL`), the lookup timeout (`DISCOVERY_TIMEOUT`) and the re-scan period (`DISCOVERY_INTERVAL`). A lookup's wait is modelled as "the given responses arrive, then the wait ends". Ending by the event and ending by the timeout give the same final state, so the model does not tell them apart.
- The periodic re-scan is modelled only as a count of timers registered. Each call of `async_setup` made while no flag exists registers one more, and the earlier ones keep running; this happens again on every call when the source set is empty. The timers' later invocations are ordinary calls of `Scan`.
- Concurrency is not modelled: the model does not cover two coroutines interleaving, for example a second `async_setup` that starts while the first is still inside `asyncio.gather`. Every operation runs to completion. Responses are delivered only at the lookup's wait and at the sleeps of `async_discover`. `async_setup` also suspends (building the source set, `gather`, the barrier), but the model delivers nothing there: a response arriving at one of those points is taken to arrive in the next batch instead.
- The SSDP transport `SsdpSearchListener` is not modelled: binding, datagram encoding, `SSDP_ST`, `SSDP_TARGET` and its port. A search is recorded as a listener index and a target, either multicast or a unicast host.
- The connect callback is not modelled as a separate event. A listener that starts is taken to have set its flag by the time `gather` returns.
- The network helper (`network.async_get_adapters` and the functions that read it) is an input and is not modelled.
- `discovery_flow.async_create_flow` and the `SsdpServiceInfo` it receives are not modelled, nor is the 1-second `async_call_later` delay. Only the scheduling of a flow start for a record is recorded.
- `urlparse` and `CaseInsensitiveDict` are not modelled. A record carries its id and location hostname already extracted, with header names already normalised.
- Logging is not modelled.
- The `hass` handle stored by `__init__` is not modelled.
- The order in which the source set is enumerated is not specified. `CreateListeners` picks the addresses in an arbitrary order, and `Setup` returns that order as the ghost `created`.
- `DISCOVERY_ATTEMPTS` is 3, the integration's value; homeassistant/components/yeelight/const.py is not part of this model.
- homeassistant/components/honeywell/config_flow.py and homeassistant/components/rympro/sensor.py are not part of this model. They belong to other integrations and do not use the scanner.
- Scanner.YeelightScanner.Setup: the survivor count (one survivor per source address that starts) is not stated in this contract. It follows from the contract by `Listeners.SurvivorsCount`.
