/**
 The sliding-window rate limiter with its bounded, least-recently-used client registry
 (app/api/middleware/rate_limit.py:44-102).  Times are real seconds of a clock that never runs backwards.
 */
module RateLimiter {
  import opened Wrappers

  type ClientId = nat

  datatype Config = Config(limit: nat, window: real, maxClients: nat) {
    ghost predicate Valid() {
      limit >= 1 && window > 0.0 && maxClients >= 1
    }
  }

  /** The ordered dictionary: `order` is its key order, least recently used first. */
  datatype Registry = Registry(order: seq<ClientId>, requests: map<ClientId, seq<real>>)

  datatype Verdict = Accepted(remaining: int, reset: int) | Limited(retryAfter: int)

  function Ceil(x: real): (n: int)
    ensures (n - 1) as real < x <= n as real
  {
    -((-x).Floor)
  }

  function Max(a: int, b: int): int {
    if a >= b then a else b
  }

  /** Whole seconds until the oldest request leaves the window, at least one. */
  function Wait(cfg: Config, oldest: real, now: real): int {
    Max(1, Ceil(oldest + cfg.window - now))
  }

  /** The requests still inside the window. */
  function Purge(timestamps: seq<real>, cutoff: real): seq<real> {
    if timestamps != [] && timestamps[0] <= cutoff then Purge(timestamps[1..], cutoff) else timestamps
  }

  function Without(order: seq<ClientId>, client: ClientId): seq<ClientId> {
    if order == [] then []
    else if order[0] == client then order[1..]
    else [order[0]] + Without(order[1..], client)
  }

  /** The registry with the client moved to the end, a new client replacing the first one if there is no room. */
  function Touch(cfg: Config, r: Registry, client: ClientId): Registry {
    if client in r.requests then r.(order := Without(r.order, client) + [client])
    else if |r.order| >= cfg.maxClients && r.order != [] then
      Registry(r.order[1..] + [client], (r.requests - {r.order[0]})[client := []])
    else Registry(r.order + [client], r.requests[client := []])
  }

  /** One limited request: the registry it leaves and the answer. */
  function Request(cfg: Config, r: Registry, client: ClientId, now: real): (Registry, Verdict)
    requires cfg.Valid()
  {
    var touched := Touch(cfg, r, client);
    var timestamps := Purge(touched.requests[client], now - cfg.window);
    if |timestamps| >= cfg.limit then
      (touched.(requests := touched.requests[client := timestamps]), Limited(Wait(cfg, timestamps[0], now)))
    else
      var more := timestamps + [now];
      (touched.(requests := touched.requests[client := more]),
       Accepted(cfg.limit - |more|, Wait(cfg, more[0], now)))
  }

  ghost predicate Sound(cfg: Config, r: Registry) {
    && (forall c :: c in r.order <==> c in r.requests)
    && (forall i, j :: 0 <= i < j < |r.order| ==> r.order[i] != r.order[j])
    && |r.order| <= cfg.maxClients
  }

  // ---------------------------------------------------------------- the object

  class RateLimitMiddleware {
    const cfg: Config
    var order: seq<ClientId>
    var requests: map<ClientId, seq<real>>

    ghost predicate Valid()
      reads this
    {
      cfg.Valid() && Sound(cfg, State())
    }

    ghost function State(): Registry
      reads this
    {
      Registry(order, requests)
    }

    /** The constructor's three refusals are its precondition. */
    constructor (limit: nat, window: real, maxClients: nat)
      requires limit >= 1 && window > 0.0 && maxClients >= 1
      ensures Valid() && cfg == Config(limit, window, maxClients) && State() == Registry([], map[])
    {
      cfg := Config(limit, window, maxClients);
      order, requests := [], map[];
    }

    method EvictClientIfFull()
      requires Valid()
      modifies this
      ensures if old(|order|) >= cfg.maxClients then
                State() == Registry(old(order)[1..], old(requests) - {old(order)[0]})
              else State() == old(State())
    {
      if |order| >= cfg.maxClients {
        requests := requests - {order[0]};
        order := order[1..];
      }
    }

    /** Make the client the most recent one, with room for it. */
    method Remember(client: ClientId)
      requires Valid()
      modifies this
      ensures Valid() && State() == Touch(cfg, old(State()), client) && client in requests
    {
      TouchSound(cfg, State(), client);
      if client in requests {
        order := Without(order, client) + [client];
      } else {
        EvictClientIfFull();
        order := order + [client];
        requests := requests[client := []];
      }
    }

    /** `__call__` for a request that is to be limited. */
    method Call(client: ClientId, now: real) returns (verdict: Verdict)
      requires Valid()
      modifies this
      ensures Valid() && (State(), verdict) == Request(cfg, old(State()), client, now)
    {
      hide Touch;
      Remember(client);
      ghost var touched := State();
      var timestamps := requests[client];
      var cutoff := now - cfg.window;
      while timestamps != [] && timestamps[0] <= cutoff
        invariant Purge(timestamps, cutoff) == Purge(touched.requests[client], cutoff)
        decreases |timestamps|
      {
        timestamps := timestamps[1..];
      }
      if |timestamps| >= cfg.limit {
        requests := requests[client := timestamps];
        return Limited(Wait(cfg, timestamps[0], now));
      }
      timestamps := timestamps + [now];
      requests := requests[client := timestamps];
      return Accepted(cfg.limit - |timestamps|, Wait(cfg, timestamps[0], now));
    }
  }

  // ------------------------------------------------------------------- order

  lemma {:induction false} WithoutIs(order: seq<ClientId>, client: ClientId)
    requires client in order && forall i, j :: 0 <= i < j < |order| ==> order[i] != order[j]
    ensures |Without(order, client)| == |order| - 1
    ensures forall c :: c in Without(order, client) <==> c in order && c != client
    ensures forall i, j :: 0 <= i < j < |Without(order, client)| ==> Without(order, client)[i] != Without(order, client)[j]
  {
    if order[0] != client {
      var rest := order[1..];
      assert order == [order[0]] + rest;
      WithoutIs(rest, client);
      var kept := Without(rest, client);
      forall j | 0 <= j < |kept|
        ensures kept[j] != order[0]
      {
        assert kept[j] in kept;
      }
    } else {
      assert order == [client] + order[1..];
    }
  }

  lemma TailDistinct(order: seq<ClientId>)
    requires order != [] && forall i, j :: 0 <= i < j < |order| ==> order[i] != order[j]
    ensures forall c :: c in order[1..] <==> c in order && c != order[0]
    ensures forall i, j :: 0 <= i < j < |order[1..]| ==> order[1..][i] != order[1..][j]
  {
    assert order == [order[0]] + order[1..];
  }

  lemma TouchSound(cfg: Config, r: Registry, client: ClientId)
    requires cfg.Valid() && Sound(cfg, r)
    ensures Sound(cfg, Touch(cfg, r, client)) && client in Touch(cfg, r, client).requests
    ensures var order := Touch(cfg, r, client).order; order != [] && order[|order| - 1] == client
  {
    if client in r.requests {
      WithoutIs(r.order, client);
    } else if |r.order| >= cfg.maxClients {
      TailDistinct(r.order);
    }
  }

  // ---------------------------------------------------------------- histories

  datatype Arrival = Arrival(client: ClientId, now: real)

  ghost predicate Clocked(trace: seq<Arrival>) {
    forall i, j :: 0 <= i < j < |trace| ==> trace[i].now <= trace[j].now
  }

  /** The registry after the first `n` requests. */
  function After(cfg: Config, trace: seq<Arrival>, n: nat): Registry
    requires cfg.Valid() && n <= |trace|
  {
    if n == 0 then Registry([], map[])
    else Request(cfg, After(cfg, trace, n - 1), trace[n - 1].client, trace[n - 1].now).0
  }

  function VerdictAt(cfg: Config, trace: seq<Arrival>, n: nat): Verdict
    requires cfg.Valid() && n < |trace|
  {
    Request(cfg, After(cfg, trace, n), trace[n].client, trace[n].now).1
  }

  /** The times at which the client's requests were accepted since it was last evicted. */
  function AcceptedSince(cfg: Config, trace: seq<Arrival>, n: nat, client: ClientId): seq<real>
    requires cfg.Valid() && n <= |trace|
  {
    if n == 0 then []
    else if client !in After(cfg, trace, n).requests then []
    else
      var before := AcceptedSince(cfg, trace, n - 1, client);
      if trace[n - 1].client == client && VerdictAt(cfg, trace, n - 1).Accepted? then before + [trace[n - 1].now] else before
  }

  /** The number of the client's last request before `n`. */
  function LastSeen(trace: seq<Arrival>, n: nat, client: ClientId): int
    requires n <= |trace|
  {
    if n == 0 then -1 else if trace[n - 1].client == client then n - 1 else LastSeen(trace, n - 1, client)
  }

  lemma RequestSound(cfg: Config, r: Registry, client: ClientId, now: real)
    requires cfg.Valid() && Sound(cfg, r)
    ensures Sound(cfg, Request(cfg, r, client, now).0)
    ensures Request(cfg, r, client, now).0.order == Touch(cfg, r, client).order
  {
    TouchSound(cfg, r, client);
  }

  lemma {:induction false} HistorySound(cfg: Config, trace: seq<Arrival>, n: nat)
    requires cfg.Valid() && n <= |trace|
    ensures Sound(cfg, After(cfg, trace, n))
  {
    if n > 0 {
      HistorySound(cfg, trace, n - 1);
      RequestSound(cfg, After(cfg, trace, n - 1), trace[n - 1].client, trace[n - 1].now);
    }
  }

  // --------------------------------------------------- the registry is an LRU

  ghost predicate ByRecency(trace: seq<Arrival>, n: nat, order: seq<ClientId>)
    requires n <= |trace|
  {
    && (forall i :: 0 <= i < |order| ==> LastSeen(trace, n, order[i]) >= 0)
    && (forall i, j :: 0 <= i < j < |order| ==> LastSeen(trace, n, order[i]) < LastSeen(trace, n, order[j]))
  }

  lemma {:induction false} WithoutKeepsOrder(trace: seq<Arrival>, n: nat, order: seq<ClientId>, client: ClientId)
    requires n <= |trace| && ByRecency(trace, n, order)
    ensures ByRecency(trace, n, Without(order, client))
    ensures order != [] && Without(order, client) != [] ==>
              LastSeen(trace, n, Without(order, client)[0]) >= LastSeen(trace, n, order[0])
    ensures client in order && (forall i, j :: 0 <= i < j < |order| ==> order[i] != order[j]) ==> client !in Without(order, client)
    decreases |order|
  {
    hide LastSeen;
    if order != [] && order[0] != client {
      WithoutKeepsOrder(trace, n, order[1..], client);
      var rest := Without(order[1..], client);
      assert rest != [] ==> LastSeen(trace, n, order[0]) < LastSeen(trace, n, rest[0]);
    }
  }

  /** The registry holds at most `maxClients` clients in the order of their last requests; the first is the one evicted. */
  lemma {:induction false} EvictsLeastRecentlyUsed(cfg: Config, trace: seq<Arrival>, n: nat)
    requires cfg.Valid() && n <= |trace|
    ensures |After(cfg, trace, n).order| <= cfg.maxClients
    ensures ByRecency(trace, n, After(cfg, trace, n).order)
    ensures n < |trace| ==> forall gone ::
              gone in After(cfg, trace, n).requests && gone !in After(cfg, trace, n + 1).requests ==>
                && |After(cfg, trace, n).order| == cfg.maxClients
                && forall c :: c in After(cfg, trace, n).requests && c != gone ==> LastSeen(trace, n, gone) < LastSeen(trace, n, c)
  {
    HistorySound(cfg, trace, n);
    RecencyKept(cfg, trace, n);
    if n < |trace| {
      Evicted(cfg, trace, n);
    }
  }

  lemma Evicted(cfg: Config, trace: seq<Arrival>, n: nat)
    requires cfg.Valid() && n < |trace| && Sound(cfg, After(cfg, trace, n)) && ByRecency(trace, n, After(cfg, trace, n).order)
    ensures forall gone ::
              gone in After(cfg, trace, n).requests && gone !in After(cfg, trace, n + 1).requests ==>
                && |After(cfg, trace, n).order| == cfg.maxClients
                && forall c :: c in After(cfg, trace, n).requests && c != gone ==> LastSeen(trace, n, gone) < LastSeen(trace, n, c)
  {
    hide LastSeen, After;
    var r := After(cfg, trace, n);
    AfterNext(cfg, trace, n);
    RequestSound(cfg, r, trace[n].client, trace[n].now);
    forall gone | gone in r.requests && gone !in After(cfg, trace, n + 1).requests
      ensures |r.order| == cfg.maxClients && gone == r.order[0]
    {
    }
  }

  lemma AfterNext(cfg: Config, trace: seq<Arrival>, n: nat)
    requires cfg.Valid() && n < |trace|
    ensures After(cfg, trace, n + 1) == Request(cfg, After(cfg, trace, n), trace[n].client, trace[n].now).0
  {
  }

  lemma {:induction false} RecencyKept(cfg: Config, trace: seq<Arrival>, n: nat)
    requires cfg.Valid() && n <= |trace|
    ensures ByRecency(trace, n, After(cfg, trace, n).order)
  {
    hide ByRecency, LastSeen, Request, Touch, Sound;
    if n == 0 {
      NobodySeen(trace);
    } else {
      RecencyKept(cfg, trace, n - 1);
      HistorySound(cfg, trace, n - 1);
      RecencyStep(cfg, trace, n - 1, After(cfg, trace, n - 1));
      RequestSound(cfg, After(cfg, trace, n - 1), trace[n - 1].client, trace[n - 1].now);
    }
  }

  lemma NobodySeen(trace: seq<Arrival>)
    ensures ByRecency(trace, 0, [])
  {
  }

  lemma RecencyStep(cfg: Config, trace: seq<Arrival>, n: nat, r: Registry)
    requires cfg.Valid() && n < |trace| && Sound(cfg, r) && ByRecency(trace, n, r.order)
    ensures ByRecency(trace, n + 1, Touch(cfg, r, trace[n].client).order)
  {
    hide ByRecency, LastSeen;
    var client := trace[n].client;
    var order := Touch(cfg, r, client).order;
    var kept := order[..|order| - 1];
    if client in r.requests {
      WithoutKeepsOrder(trace, n, r.order, client);
      WithoutIs(r.order, client);
      assert kept == Without(r.order, client);
    } else if |r.order| >= cfg.maxClients {
      TailKeepsOrder(trace, n, r.order);
      assert kept == r.order[1..];
    } else {
      assert kept == r.order;
    }
    assert order == kept + [client];
    SeenLast(trace, n, kept);
  }

  lemma TailKeepsOrder(trace: seq<Arrival>, n: nat, order: seq<ClientId>)
    requires n <= |trace| && ByRecency(trace, n, order) && order != []
    ensures ByRecency(trace, n, order[1..])
  {
    hide LastSeen;
  }

  /** The client of the newest request goes last. */
  lemma SeenLast(trace: seq<Arrival>, n: nat, kept: seq<ClientId>)
    requires n < |trace| && ByRecency(trace, n, kept) && trace[n].client !in kept
    ensures ByRecency(trace, n + 1, kept + [trace[n].client])
  {
    forall i | 0 <= i < |kept|
      ensures LastSeen(trace, n + 1, kept[i]) == LastSeen(trace, n, kept[i]) < n
    {
      LastSeenBefore(trace, n, kept[i]);
    }
  }

  lemma {:induction false} LastSeenBefore(trace: seq<Arrival>, n: nat, client: ClientId)
    requires n <= |trace|
    ensures LastSeen(trace, n, client) < n
  {
    if n > 0 {
      LastSeenBefore(trace, n - 1, client);
    }
  }

  // -------------------------------------------------------------- the window

  lemma {:induction false} PurgeIs(timestamps: seq<real>, cutoff: real) returns (m: nat)
    ensures m <= |timestamps| && Purge(timestamps, cutoff) == timestamps[m..]
    ensures forall i :: 0 <= i < m ==> timestamps[i] <= cutoff
    ensures m < |timestamps| ==> timestamps[m] > cutoff
  {
    if timestamps != [] && timestamps[0] <= cutoff {
      var k := PurgeIs(timestamps[1..], cutoff);
      m := k + 1;
    } else {
      m := 0;
    }
  }

  ghost predicate Sorted(times: seq<real>) {
    forall i, j :: 0 <= i < j < |times| ==> times[i] <= times[j]
  }

  /** Any `limit + 1` accepted requests in a row span at least the window. */
  ghost predicate Spaced(cfg: Config, times: seq<real>) {
    forall i :: 0 <= i < |times| - cfg.limit ==> times[i + cfg.limit] - times[i] >= cfg.window
  }

  /** What a client's queue says about its accepted requests: the rest has left the window by the time `now`. */
  ghost predicate Tracks(cfg: Config, queue: seq<real>, times: seq<real>, now: real) {
    && |queue| <= cfg.limit && |queue| <= |times|
    && queue == times[|times| - |queue|..]
    && (forall i :: 0 <= i < |times| - |queue| ==> times[i] + cfg.window <= now)
    && (forall i :: 0 <= i < |times| ==> times[i] <= now)
    && Sorted(times) && Spaced(cfg, times)
  }

  lemma TracksLater(cfg: Config, queue: seq<real>, times: seq<real>, now: real, later: real)
    requires Tracks(cfg, queue, times, now) && now <= later
    ensures Tracks(cfg, queue, times, later)
  {
  }

  /** One request of the client itself. */
  lemma TracksRequest(cfg: Config, queue: seq<real>, times: seq<real>, now: real)
    requires cfg.Valid() && Tracks(cfg, queue, times, now)
    ensures var kept := Purge(queue, now - cfg.window);
            if |kept| >= cfg.limit then Tracks(cfg, kept, times, now)
            else Tracks(cfg, kept + [now], times + [now], now)
  {
    hide Sorted, Spaced, Purge;
    var m := PurgeIs(queue, now - cfg.window);
    var kept := queue[m..];
    var gone := |times| - |queue|;
    forall i | 0 <= i < gone + m
      ensures times[i] + cfg.window <= now
    {
      assert i >= gone ==> queue[i - gone] == times[i];
    }
    assert kept == times[gone + m..];
    if |kept| < cfg.limit {
      OneMore(cfg, times, now, gone + m);
      assert (times + [now])[gone + m..] == kept + [now];
    }
  }

  /** Accepting one more request when fewer than `limit` of the earlier ones are still inside the window. */
  lemma OneMore(cfg: Config, times: seq<real>, now: real, gone: nat)
    requires cfg.Valid() && Sorted(times) && Spaced(cfg, times) && gone <= |times| && |times| - gone < cfg.limit
    requires forall i :: 0 <= i < gone ==> times[i] + cfg.window <= now
    requires forall i :: 0 <= i < |times| ==> times[i] <= now
    ensures Sorted(times + [now]) && Spaced(cfg, times + [now])
  {
    var more := times + [now];
    forall i | 0 <= i < |more| - cfg.limit
      ensures more[i + cfg.limit] - more[i] >= cfg.window
    {
      if i + cfg.limit < |times| {
        assert times[i + cfg.limit] - times[i] >= cfg.window;
      } else {
        assert times[i] + cfg.window <= now;
      }
    }
  }

  ghost predicate ClientTracks(cfg: Config, trace: seq<Arrival>, n: nat, client: ClientId)
    requires cfg.Valid() && 0 < n <= |trace|
  {
    if client in After(cfg, trace, n).requests then
      Tracks(cfg, After(cfg, trace, n).requests[client], AcceptedSince(cfg, trace, n, client), trace[n - 1].now)
    else AcceptedSince(cfg, trace, n, client) == []
  }

  /** What one request does to the queue of any client. */
  lemma QueueAfter(cfg: Config, r: Registry, arrival: Arrival, client: ClientId)
    requires cfg.Valid() && Sound(cfg, r)
    ensures var (next, verdict) := Request(cfg, r, arrival.client, arrival.now);
            var kept := Purge(if arrival.client in r.requests then r.requests[arrival.client] else [], arrival.now - cfg.window);
            && (client != arrival.client ==>
                  client in next.requests ==> client in r.requests && next.requests[client] == r.requests[client])
            && arrival.client in next.requests
            && next.requests[arrival.client] == (if verdict.Accepted? then kept + [arrival.now] else kept)
            && (verdict.Accepted? <==> |kept| < cfg.limit)
            && (verdict.Limited? ==> |kept| >= 1 && verdict.retryAfter == Wait(cfg, kept[0], arrival.now))
  {
    hide Purge, Wait;
    TouchSound(cfg, r, arrival.client);
  }

  lemma AcceptedNext(cfg: Config, trace: seq<Arrival>, n: nat, client: ClientId)
    requires cfg.Valid() && n < |trace|
    ensures AcceptedSince(cfg, trace, n + 1, client) ==
            if client !in After(cfg, trace, n + 1).requests then []
            else if trace[n].client == client && VerdictAt(cfg, trace, n).Accepted? then
              AcceptedSince(cfg, trace, n, client) + [trace[n].now]
            else AcceptedSince(cfg, trace, n, client)
  {
  }

  lemma {:induction false} EveryClientTracks(cfg: Config, trace: seq<Arrival>, n: nat, client: ClientId)
    requires cfg.Valid() && Clocked(trace) && 0 < n <= |trace|
    ensures ClientTracks(cfg, trace, n, client)
  {
    hide After, AcceptedSince, Request, Tracks, Purge;
    var k := n - 1;
    var r := After(cfg, trace, k);
    HistorySound(cfg, trace, k);
    AfterNext(cfg, trace, k);
    QueueAfter(cfg, r, trace[k], client);
    AcceptedNext(cfg, trace, k, client);
    if k > 0 {
      EveryClientTracks(cfg, trace, k, client);
    } else {
      NothingYet(cfg, trace, client);
    }
    var times := AcceptedSince(cfg, trace, k, client);
    if client in r.requests {
      TracksLater(cfg, r.requests[client], times, trace[k - 1].now, trace[k].now);
    } else {
      TracksNothing(cfg, trace[k].now);
    }
    if client == trace[k].client {
      TracksRequest(cfg, if client in r.requests then r.requests[client] else [], times, trace[k].now);
    }
  }

  lemma NothingYet(cfg: Config, trace: seq<Arrival>, client: ClientId)
    requires cfg.Valid()
    ensures After(cfg, trace, 0).requests == map[] && AcceptedSince(cfg, trace, 0, client) == []
  {
  }

  lemma TracksNothing(cfg: Config, now: real)
    ensures Tracks(cfg, [], [], now)
  {
  }

  function CountIn(times: seq<real>, lo: real, hi: real): nat {
    if times == [] then 0
    else CountIn(times[..|times| - 1], lo, hi) + (if lo < times[|times| - 1] <= hi then 1 else 0)
  }

  lemma {:induction false} CountAtMost(times: seq<real>, lo: real, hi: real)
    ensures CountIn(times, lo, hi) <= |times|
    ensures (forall i :: 0 <= i < |times| ==> times[i] <= lo) ==> CountIn(times, lo, hi) == 0
  {
    if times != [] {
      CountAtMost(times[..|times| - 1], lo, hi);
    }
  }

  lemma {:induction false} CountConcat(a: seq<real>, b: seq<real>, lo: real, hi: real)
    ensures CountIn(a + b, lo, hi) == CountIn(a, lo, hi) + CountIn(b, lo, hi)
  {
    if b == [] {
      assert a + b == a;
    } else {
      var n := |b| - 1;
      assert (a + b)[..|a + b| - 1] == a + b[..n];
      CountConcat(a, b[..n], lo, hi);
    }
  }

  lemma {:induction false} SpacedCount(cfg: Config, times: seq<real>, lo: real)
    requires cfg.Valid() && Sorted(times) && Spaced(cfg, times)
    ensures CountIn(times, lo, lo + cfg.window) <= cfg.limit
  {
    hide CountIn, Sorted, Spaced;
    var n := |times|;
    CountAtMost(times, lo, lo + cfg.window);
    if n > cfg.limit {
      if times[n - 1] > lo + cfg.window {
        LastOutside(cfg, times, lo);
        SpacedCount(cfg, times[..n - 1], lo);
      } else {
        LastInside(cfg, times, lo);
      }
    }
  }

  lemma LastOutside(cfg: Config, times: seq<real>, lo: real)
    requires cfg.Valid() && times != [] && Sorted(times) && Spaced(cfg, times) && times[|times| - 1] > lo + cfg.window
    ensures var earlier := times[..|times| - 1];
            Sorted(earlier) && Spaced(cfg, earlier) && CountIn(times, lo, lo + cfg.window) == CountIn(earlier, lo, lo + cfg.window)
  {
    var earlier := times[..|times| - 1];
    assert forall i :: 0 <= i < |earlier| ==> earlier[i] == times[i];
  }

  /** With the last request inside the window, everything before the last `limit` requests is outside. */
  lemma LastInside(cfg: Config, times: seq<real>, lo: real)
    requires cfg.Valid() && |times| > cfg.limit && Sorted(times) && Spaced(cfg, times) && times[|times| - 1] <= lo + cfg.window
    ensures CountIn(times, lo, lo + cfg.window) <= cfg.limit
  {
    hide CountIn;
    var cut := |times| - cfg.limit;
    assert times[cut - 1 + cfg.limit] - times[cut - 1] >= cfg.window;
    assert times == times[..cut] + times[cut..];
    CountConcat(times[..cut], times[cut..], lo, lo + cfg.window);
    CountAtMost(times[..cut], lo, lo + cfg.window);
    CountAtMost(times[cut..], lo, lo + cfg.window);
  }

  /**
   The limit holds in every run: of the requests a client had accepted since its last eviction, at most `limit` fall
   into any window of the configured length.
   */
  lemma WindowLimit(cfg: Config, trace: seq<Arrival>, n: nat, client: ClientId, lo: real)
    requires cfg.Valid() && Clocked(trace) && n <= |trace|
    ensures CountIn(AcceptedSince(cfg, trace, n, client), lo, lo + cfg.window) <= cfg.limit
  {
    hide After;
    if n > 0 {
      EveryClientTracks(cfg, trace, n, client);
      SpacedCount(cfg, AcceptedSince(cfg, trace, n, client), lo);
    }
  }

  // -------------------------------------------------------------- Retry-After

  /** The client has no request accepted among those numbered `start` to `end - 1`. */
  ghost predicate NoneAccepted(cfg: Config, trace: seq<Arrival>, start: nat, end: nat, client: ClientId)
    requires cfg.Valid() && end <= |trace|
  {
    forall k :: start <= k < end && trace[k].client == client ==> VerdictAt(cfg, trace, k).Limited?
  }

  /** As long as nothing of a client is accepted its queue only loses its oldest entries, or is gone with the client. */
  lemma {:induction false} RefusedQueue(cfg: Config, trace: seq<Arrival>, start: nat, end: nat, client: ClientId)
    returns (gone: nat)
    requires cfg.Valid() && start <= end <= |trace| && NoneAccepted(cfg, trace, start, end, client)
    ensures client in After(cfg, trace, end).requests ==>
              && client in After(cfg, trace, start).requests
              && gone <= |After(cfg, trace, start).requests[client]|
              && After(cfg, trace, end).requests[client] == After(cfg, trace, start).requests[client][gone..]
    decreases end - start
  {
    hide After, Request, Purge;
    gone := 0;
    if start < end {
      var k := end - 1;
      gone := RefusedQueue(cfg, trace, start, k, client);
      HistorySound(cfg, trace, k);
      AfterNext(cfg, trace, k);
      QueueAfter(cfg, After(cfg, trace, k), trace[k], client);
      PurgeShorter([], trace[k].now - cfg.window);
      if trace[k].client == client {
        var dropped := PurgeIs(After(cfg, trace, k).requests[client], trace[k].now - cfg.window);
        gone := gone + dropped;
      }
    }
  }

  lemma PurgeDropsFirst(cfg: Config, queue: seq<real>, now: real, later: real)
    requires queue != [] && later >= now + Wait(cfg, queue[0], now) as real
    ensures |Purge(queue, later - cfg.window)| < |queue|
  {
    assert queue[0] <= later - cfg.window;
    var m := PurgeIs(queue[1..], later - cfg.window);
  }

  lemma PurgeShorter(queue: seq<real>, cutoff: real)
    ensures |Purge(queue, cutoff)| <= |queue|
  {
    var m := PurgeIs(queue, cutoff);
  }

  /**
   A client that was refused is accepted once the advertised time is over, whatever the others do meanwhile and however
   often it was refused again before.
   */
  lemma RetryAfterSuffices(cfg: Config, trace: seq<Arrival>, i: nat, j: nat)
    requires cfg.Valid() && Clocked(trace) && i < j < |trace|
    requires VerdictAt(cfg, trace, i).Limited? && trace[j].client == trace[i].client
    requires NoneAccepted(cfg, trace, i + 1, j, trace[i].client)
    requires trace[j].now >= trace[i].now + VerdictAt(cfg, trace, i).retryAfter as real
    ensures VerdictAt(cfg, trace, j).Accepted?
  {
    hide After, Request, Purge, Wait, Tracks, AcceptedSince;
    var client := trace[i].client;
    HistorySound(cfg, trace, i);
    AfterNext(cfg, trace, i);
    QueueAfter(cfg, After(cfg, trace, i), trace[i], client);
    var gone := RefusedQueue(cfg, trace, i + 1, j, client);
    HistorySound(cfg, trace, j);
    QueueAfter(cfg, After(cfg, trace, j), trace[j], client);
    PurgeShorter([], trace[j].now - cfg.window);
    if client in After(cfg, trace, j).requests {
      var queue := After(cfg, trace, j).requests[client];
      QueueBound(cfg, trace, i + 1, client);
      PurgeShorter(queue, trace[j].now - cfg.window);
      if gone == 0 {
        PurgeDropsFirst(cfg, queue, trace[i].now, trace[j].now);
      }
    }
  }

  lemma QueueBound(cfg: Config, trace: seq<Arrival>, n: nat, client: ClientId)
    requires cfg.Valid() && Clocked(trace) && 0 < n <= |trace| && client in After(cfg, trace, n).requests
    ensures |After(cfg, trace, n).requests[client]| <= cfg.limit
  {
    hide After, AcceptedSince;
    EveryClientTracks(cfg, trace, n, client);
  }

  // ---------------------------------------------------------------- the answer

  lemma {:induction false} CountAll(times: seq<real>, lo: real, hi: real)
    requires forall i :: 0 <= i < |times| ==> lo < times[i] <= hi
    ensures CountIn(times, lo, hi) == |times|
  {
    if times != [] {
      CountAll(times[..|times| - 1], lo, hi);
    }
  }

  /** What is left of a queue at a request are the accepted requests that lie in the window ending there. */
  lemma KeptIsTheWindow(cfg: Config, queue: seq<real>, times: seq<real>, now: real)
    requires cfg.Valid() && Tracks(cfg, queue, times, now)
    ensures var kept, count := Purge(queue, now - cfg.window), CountIn(times, now - cfg.window, now);
            |kept| == count <= |times| && kept == times[|times| - count..] && forall i :: 0 <= i < |kept| ==> kept[i] > now - cfg.window
  {
    hide Purge, CountIn;
    var lo := now - cfg.window;
    var m := PurgeIs(queue, lo);
    var first := |times| - |queue| + m;
    assert times[first..] == queue[m..];
    forall i | 0 <= i < first
      ensures times[i] <= lo
    {
      if i >= |times| - |queue| {
        assert times[i] == queue[i - (|times| - |queue|)];
      }
    }
    forall i | first <= i < |times|
      ensures lo < times[i] <= now
    {
      assert first < |times| ==> times[first] == queue[m];
    }
    assert times == times[..first] + times[first..];
    CountConcat(times[..first], times[first..], lo, now);
    CountAtMost(times[..first], lo, now);
    CountAll(times[first..], lo, now);
  }

  /** `seconds` is the least number of whole seconds after which the oldest of these requests is a window ago. */
  predicate LeastWait(cfg: Config, oldest: real, now: real, seconds: int) {
    oldest + cfg.window <= now + seconds as real && now + (seconds - 1) as real < oldest + cfg.window
  }

  /**
   A request is refused if and only if `limit` requests of the client, accepted since it was last evicted, lie in the
   window that ends now; the answer counts what is left and names the second at which the oldest of them leaves.
   */
  lemma AnswersExactly(cfg: Config, trace: seq<Arrival>, n: nat)
    requires cfg.Valid() && Clocked(trace) && n < |trace|
    ensures var now, times := trace[n].now, AcceptedSince(cfg, trace, n, trace[n].client);
            var count, verdict := CountIn(times, now - cfg.window, now), VerdictAt(cfg, trace, n);
            && count <= |times|
            && (verdict.Accepted? <==> count < cfg.limit)
            && (verdict.Accepted? ==>
                  verdict.remaining == cfg.limit - count - 1
                  && LeastWait(cfg, if count > 0 then times[|times| - count] else now, now, verdict.reset))
            && (verdict.Limited? ==> LeastWait(cfg, times[|times| - count], now, verdict.retryAfter))
  {
    hide After, AcceptedSince, Purge, CountIn, Tracks;
    var client, r := trace[n].client, After(cfg, trace, n);
    HistorySound(cfg, trace, n);
    var queue := if client in r.requests then r.requests[client] else [];
    var times := AcceptedSince(cfg, trace, n, client);
    if n == 0 {
      NothingYet(cfg, trace, client);
      TracksNothing(cfg, trace[n].now);
    } else {
      EveryClientTracks(cfg, trace, n, client);
      if client in r.requests {
        TracksLater(cfg, queue, times, trace[n - 1].now, trace[n].now);
      } else {
        TracksNothing(cfg, trace[n].now);
      }
    }
    KeptIsTheWindow(cfg, queue, times, trace[n].now);
    VerdictOn(cfg, r, client, trace[n].now);
  }

  lemma VerdictOn(cfg: Config, r: Registry, client: ClientId, now: real)
    requires cfg.Valid()
    ensures var kept := Purge(if client in r.requests then r.requests[client] else [], now - cfg.window);
            var verdict := Request(cfg, r, client, now).1;
            && (verdict.Accepted? <==> |kept| < cfg.limit)
            && (verdict.Accepted? ==> verdict.remaining == cfg.limit - |kept| - 1)
            && (verdict.Accepted? && kept == [] ==> LeastWait(cfg, now, now, verdict.reset))
            && (verdict.Accepted? && kept != [] && kept[0] > now - cfg.window ==> LeastWait(cfg, kept[0], now, verdict.reset))
            && (verdict.Limited? && kept[0] > now - cfg.window ==> LeastWait(cfg, kept[0], now, verdict.retryAfter))
  {
    hide Purge;
  }
}
