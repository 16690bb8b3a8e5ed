/** The fixed-window rate limiter of `server/src/ratelimit.rs`, in place, and what any run of it permits. */
module RateLimit {
  type Address = nat
  type Time = nat

  datatype Entry = Entry(count: nat, windowStart: Time)

  function Fresh(now: Time): Entry {
    Entry(0, now)
  }

  /** The entry the check looks at, after a possible reset. */
  function Current(entries: map<Address, Entry>, ip: Address, now: Time, window: nat): Entry {
    if ip !in entries || now - entries[ip].windowStart >= window then Fresh(now) else entries[ip]
  }

  function Checked(entries: map<Address, Entry>, ip: Address, now: Time, limit: nat,
                   window: nat): (map<Address, Entry>, bool) {
    var e := Current(entries, ip, now, window);
    if e.count >= limit then (entries[ip := e], false) else (entries[ip := e.(count := e.count + 1)], true)
  }

  class RateLimiter {
    var entries: map<Address, Entry>
    const limit: nat
    const window: nat

    constructor (limit: nat, window: nat)
      ensures entries == map[] && this.limit == limit && this.window == window
    {
      this.limit, this.window := limit, window;
      entries := map[];
    }

    method Check(ip: Address, now: Time) returns (permitted: bool)
      modifies this
      ensures (entries, permitted) == Checked(old(entries), ip, now, limit, window)
    {
      var entry := Entry(0, now);
      if ip in entries {
        entry := entries[ip];
      }
      if now - entry.windowStart >= window {
        entry := Entry(0, now);
      }
      entries := entries[ip := entry];
      if entry.count >= limit {
        return false;
      }
      entries := entries[ip := entry.(count := entry.count + 1)];
      assert entries == old(entries)[ip := entry.(count := entry.count + 1)];
      return true;
    }
  }

  // ── Runs ──

  datatype Request = Request(ip: Address, at: Time)

  /** The clock is monotone. */
  ghost predicate Monotone(rs: seq<Request>) {
    forall i, j :: 0 <= i < j < |rs| ==> rs[i].at <= rs[j].at
  }

  function Run(rs: seq<Request>, limit: nat, window: nat): map<Address, Entry> {
    if rs == [] then map[]
    else Checked(Run(rs[..|rs| - 1], limit, window), rs[|rs| - 1].ip, rs[|rs| - 1].at, limit, window).0
  }

  function Permitted(rs: seq<Request>, limit: nat, window: nat): bool
    requires rs != []
  {
    Checked(Run(rs[..|rs| - 1], limit, window), rs[|rs| - 1].ip, rs[|rs| - 1].at, limit, window).1
  }

  /** The requests of one address permitted in the interval from `lo` to just before `hi`. */
  function Permits(rs: seq<Request>, limit: nat, window: nat, ip: Address, lo: Time, hi: Time): nat {
    if rs == [] then 0
    else
      var r := rs[|rs| - 1];
      Permits(rs[..|rs| - 1], limit, window, ip, lo, hi)
      + if r.ip == ip && lo <= r.at < hi && Permitted(rs, limit, window) then 1 else 0
  }

  /** The most that any interval of window length can see: each window opens with a permit of its own. A window of
      one tick sees a single instant, and an empty one nothing. */
  function Most(limit: nat, window: nat): nat {
    if limit == 0 || window == 0 then 0 else if window == 1 then limit else 2 * limit - 1
  }

  /** What the entry of an address says about the permits in an interval no longer than a window. */
  ghost predicate Bounds(e: Entry, limit: nat, window: nat, lo: Time, hi: Time, permits: nat) {
    && e.count <= limit && (limit > 0 ==> e.count > 0) && permits <= Most(limit, window)
    && (permits > 0 ==> lo < e.windowStart + window)
    && (e.windowStart < lo && permits > 0 ==> permits < e.count)
    && (e.windowStart == lo ==> permits <= e.count)
    && (lo < e.windowStart < hi && permits > 0 ==> permits < limit + e.count)
  }

  /** The permits so far keep the bound, and the entry says how many of them can still be added to. */
  ghost predicate Inv(rs: seq<Request>, limit: nat, window: nat, ip: Address, lo: Time, hi: Time) {
    var entries := Run(rs, limit, window);
    var permits := Permits(rs, limit, window, ip, lo, hi);
    && (ip !in entries ==> permits == 0)
    && (ip in entries ==> Bounds(entries[ip], limit, window, lo, hi, permits))
    && (ip in entries ==> exists i :: 0 <= i < |rs| && rs[i].at == entries[ip].windowStart)
  }

  lemma StepBounds(entries: map<Address, Entry>, ip: Address, now: Time, limit: nat, window: nat, lo: Time, hi: Time,
                   permits: nat)
    requires hi <= lo + window
    requires ip !in entries ==> permits == 0
    requires ip in entries ==> Bounds(entries[ip], limit, window, lo, hi, permits) && entries[ip].windowStart <= now
    ensures var r := Checked(entries, ip, now, limit, window);
            Bounds(r.0[ip], limit, window, lo, hi, permits + if lo <= now < hi && r.1 then 1 else 0)
  {
  }

  lemma {:induction false} RunBounds(rs: seq<Request>, limit: nat, window: nat, ip: Address, lo: Time, hi: Time)
    requires Monotone(rs) && hi <= lo + window
    ensures Inv(rs, limit, window, ip, lo, hi)
  {
    if rs != [] {
      var before, r := rs[..|rs| - 1], rs[|rs| - 1];
      RunBounds(before, limit, window, ip, lo, hi);
      var entries := Run(before, limit, window);
      if ip in entries {
        var i :| 0 <= i < |before| && before[i].at == entries[ip].windowStart;
        assert rs[i].at <= r.at;
      }
      if r.ip == ip {
        StepBounds(entries, ip, r.at, limit, window, lo, hi, Permits(before, limit, window, ip, lo, hi));
        assert rs[|rs| - 1].at == r.at;
      }
    }
  }

  /** In any interval of window length at most twice the limit less one: always below twice a positive limit. */
  lemma BelowTwiceTheLimit(rs: seq<Request>, limit: nat, window: nat, ip: Address, lo: Time)
    requires Monotone(rs)
    ensures Permits(rs, limit, window, ip, lo, lo + window) <= Most(limit, window) <= 2 * limit
  {
    RunBounds(rs, limit, window, ip, lo, lo + window);
  }

  /** At most the limit since the address's current window began. */
  lemma LimitPerWindow(rs: seq<Request>, limit: nat, window: nat, ip: Address)
    requires Monotone(rs) && ip in Run(rs, limit, window)
    ensures var start := Run(rs, limit, window)[ip].windowStart;
            Permits(rs, limit, window, ip, start, start + window) <= Run(rs, limit, window)[ip].count <= limit
  {
    var start := Run(rs, limit, window)[ip].windowStart;
    RunBounds(rs, limit, window, ip, start, start + window);
  }

  // ── The answer ──

  /** When the current window of an address began, from the times of its requests alone. */
  function Opened(rs: seq<Request>, window: nat, ip: Address): int
    decreases |rs|, 0
  {
    if rs == [] then -1
    else
      var before, r := rs[..|rs| - 1], rs[|rs| - 1];
      if r.ip == ip && Opens(before, r, window) then r.at else Opened(before, window, ip)
  }

  /** A request opens a window when it is the first of its address, or the last window is over. */
  predicate Opens(before: seq<Request>, r: Request, window: nat)
    decreases |before|, 1
  {
    Opened(before, window, r.ip) == -1 || r.at - Opened(before, window, r.ip) >= window
  }

  /** The requests of the address permitted since the current window began. */
  function Used(rs: seq<Request>, limit: nat, window: nat, ip: Address): nat {
    if rs == [] then 0
    else
      var before, r := rs[..|rs| - 1], rs[|rs| - 1];
      if r.ip != ip then Used(before, limit, window, ip)
      else
        (if Opens(before, r, window) then 0 else Used(before, limit, window, ip))
        + if Permitted(rs, limit, window) then 1 else 0
  }

  /** The entry of an address says when its window began and how many were permitted in it. */
  ghost predicate EntryIs(rs: seq<Request>, limit: nat, window: nat, ip: Address) {
    var entries := Run(rs, limit, window);
    && (ip in entries <==> Opened(rs, window, ip) != -1)
    && (ip in entries ==> entries[ip].windowStart == Opened(rs, window, ip))
    && (ip in entries ==> entries[ip].count == Used(rs, limit, window, ip))
  }

  lemma StepEntry(before: seq<Request>, r: Request, limit: nat, window: nat, ip: Address)
    requires EntryIs(before, limit, window, ip)
    ensures EntryIs(before + [r], limit, window, ip)
    ensures r.ip == ip ==> (Permitted(before + [r], limit, window) <==>
                              Current(Run(before, limit, window), ip, r.at, window).count < limit)
  {
    var rs := before + [r];
    assert rs[..|before|] == before;
    Appended(before, r, limit, window);
    if r.ip == ip {
      CurrentIs(before, r, limit, window);
    }
  }

  /** The entry the check looks at is fresh exactly when the request opens a window. */
  lemma CurrentIs(before: seq<Request>, r: Request, limit: nat, window: nat)
    requires EntryIs(before, limit, window, r.ip)
    ensures Current(Run(before, limit, window), r.ip, r.at, window) ==
            if Opens(before, r, window) then Fresh(r.at)
            else Entry(Used(before, limit, window, r.ip), Opened(before, window, r.ip))
  {
  }

  lemma {:induction false} EntryExactly(rs: seq<Request>, limit: nat, window: nat, ip: Address)
    ensures EntryIs(rs, limit, window, ip)
  {
    if rs != [] {
      EntryExactly(rs[..|rs| - 1], limit, window, ip);
      assert rs == rs[..|rs| - 1] + [rs[|rs| - 1]];
      StepEntry(rs[..|rs| - 1], rs[|rs| - 1], limit, window, ip);
    }
  }

  /** A request is permitted exactly when its address has used less than its limit since its window began, or opens a
      new window and the limit is not zero. Refused under a positive limit, it counts for nothing and moves no
      window. */
  lemma AnswerExactly(rs: seq<Request>, r: Request, limit: nat, window: nat)
    ensures Permitted(rs + [r], limit, window)
            <==> (if Opens(rs, r, window) then limit > 0 else Used(rs, limit, window, r.ip) < limit)
    ensures !Permitted(rs + [r], limit, window) && limit > 0 ==>
              && Opened(rs + [r], window, r.ip) == Opened(rs, window, r.ip)
              && Used(rs + [r], limit, window, r.ip) == Used(rs, limit, window, r.ip)
  {
    EntryExactly(rs, limit, window, r.ip);
    StepEntry(rs, r, limit, window, r.ip);
    CurrentIs(rs, r, limit, window);
    assert (rs + [r])[..|rs|] == rs;
  }

  // ── Addresses are independent ──

  function Only(rs: seq<Request>, ip: Address): seq<Request> {
    if rs == [] then []
    else if rs[|rs| - 1].ip == ip then Only(rs[..|rs| - 1], ip) + [rs[|rs| - 1]]
    else Only(rs[..|rs| - 1], ip)
  }

  ghost predicate SameEntry(a: map<Address, Entry>, b: map<Address, Entry>, ip: Address) {
    (ip in a <==> ip in b) && (ip in a ==> a[ip] == b[ip])
  }

  lemma Appended(rs: seq<Request>, r: Request, limit: nat, window: nat)
    ensures Run(rs + [r], limit, window) == Checked(Run(rs, limit, window), r.ip, r.at, limit, window).0
    ensures Permitted(rs + [r], limit, window) == Checked(Run(rs, limit, window), r.ip, r.at, limit, window).1
  {
    assert (rs + [r])[..|rs|] == rs;
  }

  /** What an address is permitted does not depend on the requests of any other. */
  lemma {:induction false} AddressesIndependent(rs: seq<Request>, limit: nat, window: nat, ip: Address, lo: Time,
                                                hi: Time)
    ensures SameEntry(Run(rs, limit, window), Run(Only(rs, ip), limit, window), ip)
    ensures Permits(rs, limit, window, ip, lo, hi) == Permits(Only(rs, ip), limit, window, ip, lo, hi)
  {
    if rs != [] {
      var before, r := rs[..|rs| - 1], rs[|rs| - 1];
      AddressesIndependent(before, limit, window, ip, lo, hi);
      if r.ip == ip {
        var only := Only(before, ip);
        Appended(only, r, limit, window);
        assert (only + [r])[..|only|] == only;
      }
    }
  }

  // ── The bound is reached ──

  function Burst(ip: Address, at: Time, n: nat): seq<Request> {
    if n == 0 then [] else Burst(ip, at, n - 1) + [Request(ip, at)]
  }

  lemma {:induction false} BurstAt(ip: Address, at: Time, n: nat)
    ensures |Burst(ip, at, n)| == n && forall i :: 0 <= i < n ==> Burst(ip, at, n)[i] == Request(ip, at)
  {
    if n > 0 {
      BurstAt(ip, at, n - 1);
    }
  }

  lemma OnePermitted(rs: seq<Request>, limit: nat, window: nat, ip: Address, at: Time, lo: Time, hi: Time)
    requires lo <= at < hi && Current(Run(rs, limit, window), ip, at, window).count < limit
    requires at - Current(Run(rs, limit, window), ip, at, window).windowStart < window
    ensures var e, m := Current(Run(rs, limit, window), ip, at, window), Run(rs + [Request(ip, at)], limit, window);
            ip in m && m[ip] == e.(count := e.count + 1) && Current(m, ip, at, window) == m[ip]
    ensures Permits(rs + [Request(ip, at)], limit, window, ip, lo, hi) == Permits(rs, limit, window, ip, lo, hi) + 1
  {
    Appended(rs, Request(ip, at), limit, window);
    assert (rs + [Request(ip, at)])[..|rs|] == rs;
  }

  /** A burst that fits the rest of a window is permitted whole. */
  lemma {:induction false} BurstPermitted(rs: seq<Request>, limit: nat, window: nat, ip: Address, at: Time, n: nat,
                                          lo: Time, hi: Time)
    requires lo <= at < hi && Current(Run(rs, limit, window), ip, at, window).count + n <= limit
    requires at - Current(Run(rs, limit, window), ip, at, window).windowStart < window
    ensures Permits(rs + Burst(ip, at, n), limit, window, ip, lo, hi) == Permits(rs, limit, window, ip, lo, hi) + n
    ensures var e := Current(Run(rs, limit, window), ip, at, window);
            Current(Run(rs + Burst(ip, at, n), limit, window), ip, at, window) == e.(count := e.count + n)
    ensures n > 0 ==> var m := Run(rs + Burst(ip, at, n), limit, window); ip in m && m[ip] == Current(m, ip, at, window)
  {
    if n == 0 {
      assert rs + Burst(ip, at, 0) == rs;
    } else {
      BurstPermitted(rs, limit, window, ip, at, n - 1, lo, hi);
      var before := rs + Burst(ip, at, n - 1);
      assert rs + Burst(ip, at, n) == before + [Request(ip, at)];
      OnePermitted(before, limit, window, ip, at, lo, hi);
    }
  }

  /** The bound is reached for every limit and every window. */
  lemma BoundIsReached(limit: nat, window: nat, ip: Address) returns (rs: seq<Request>)
    ensures Monotone(rs) && Permits(rs, limit, window, ip, 1, 1 + window) == Most(limit, window)
  {
    if limit == 0 || window == 0 {
      rs := [];
    } else if window == 1 {
      rs := [] + Burst(ip, 1, limit);
      BurstAt(ip, 1, limit);
      BurstPermitted([], limit, window, ip, 1, limit, 1, 1 + window);
    } else {
      rs := TwoWindows(limit, window, ip);
    }
  }

  /** One request opens a window, the rest of its limit comes at its end, and the whole limit at the next start. */
  lemma TwoWindows(limit: nat, window: nat, ip: Address) returns (rs: seq<Request>)
    requires limit > 0 && window > 1
    ensures Monotone(rs) && Permits(rs, limit, window, ip, 1, 1 + window) == 2 * limit - 1
  {
    var first := [Request(ip, 0)];
    Opening(limit, window, ip);
    BurstPermitted(first, limit, window, ip, window - 1, limit - 1, 1, 1 + window);
    var second := first + Burst(ip, window - 1, limit - 1);
    SecondWindow(second, limit, window, ip);
    rs := second + Burst(ip, window, limit);
    InOrder(limit, window, ip);
  }

  lemma InOrder(limit: nat, window: nat, ip: Address)
    requires limit > 0 && window > 1
    ensures Monotone([Request(ip, 0)] + Burst(ip, window - 1, limit - 1) + Burst(ip, window, limit))
  {
    BurstAt(ip, window - 1, limit - 1);
    BurstAt(ip, window, limit);
  }

  lemma SecondWindow(second: seq<Request>, limit: nat, window: nat, ip: Address)
    requires limit > 0 && window > 1 && Permits(second, limit, window, ip, 1, 1 + window) == limit - 1
    requires Current(Run(second, limit, window), ip, window - 1, window) == Entry(limit, 0)
    ensures Permits(second + Burst(ip, window, limit), limit, window, ip, 1, 1 + window) == 2 * limit - 1
  {
    BurstPermitted(second, limit, window, ip, window, limit, 1, 1 + window);
  }

  lemma Opening(limit: nat, window: nat, ip: Address)
    requires limit > 0
    ensures Run([Request(ip, 0)], limit, window) == map[ip := Entry(1, 0)]
    ensures Permits([Request(ip, 0)], limit, window, ip, 1, 1 + window) == 0
  {
    assert [Request(ip, 0)][..0] == [];
    assert Run([], limit, window) == map[];
    assert Permits([], limit, window, ip, 1, 1 + window) == 0;
  }
}
