/**
 The fixed-window request limiter of the key-distribution server.

 Every address has a counter and the time its window opened. A request whose
 window is at least `WINDOW` old opens a new one; entries older than
 `STALE_TTL` are erased on the way. Times are readings of the monotonic clock
 in nanoseconds, so a value-initialised entry opens its window at time 0.
 */
module RateLimiter {

  const WINDOW: int := 60_000_000_000
  const STALE_TTL: int := 300_000_000_000

  datatype Entry = Entry(count: int, windowStart: int)
  datatype Request = Request(address: string, now: int)

  type Table = map<string, Entry>

  /** What the table holds for an address it has no entry for. */
  const FRESH := Entry(0, 0)

  function Find(table: Table, address: string): Entry {
    if address in table then table[address] else FRESH
  }

  /** The table without the entries whose window opened more than `STALE_TTL` ago. */
  function Evict(table: Table, now: int): Table {
    map a | a in table && now - table[a].windowStart <= STALE_TTL :: table[a]
  }

  /** The entry after one request: a stale window is reopened, then the request is counted. */
  function Hit(e: Entry, now: int): Entry {
    if now - e.windowStart >= WINDOW then Entry(1, now) else Entry(e.count + 1, e.windowStart)
  }

  function Handle(table: Table, r: Request, evict: bool): Table {
    var t := if evict then Evict(table, r.now) else table;
    t[r.address := Hit(Find(t, r.address), r.now)]
  }

  /** The verdicts (true: refused) of a run of requests. */
  function Serve(table: Table, rs: seq<Request>, max: int, evict: bool): (limited: seq<bool>)
    ensures |limited| == |rs|
    decreases |rs|
  {
    if rs == [] then []
    else
      var t := Handle(table, rs[0], evict);
      [t[rs[0].address].count > max] + Serve(t, rs[1..], max, evict)
  }

  /** How many requests of `address` are admitted while its window is the one opened at `start`. */
  function AdmittedInWindow(table: Table, rs: seq<Request>, max: int, address: string, start: int, evict: bool): nat
    decreases |rs|
  {
    if rs == [] then 0
    else
      var t := Handle(table, rs[0], evict);
      (if rs[0].address == address && t[address].windowStart == start && t[address].count <= max then 1 else 0)
      + AdmittedInWindow(t, rs[1..], max, address, start, evict)
  }

  class Limiter {
    var entries: Table
    const maxRequests: int

    constructor (maxRequests: int)
      ensures entries == map[] && this.maxRequests == maxRequests
    {
      this.entries := map[];
      this.maxRequests := maxRequests;
    }

    /** Counts one request from `address` at time `now` and says whether to refuse it. */
    method IsRateLimited(address: string, now: int) returns (limited: bool)
      modifies this`entries
      ensures entries == Handle(old(entries), Request(address, now), true)
      ensures [limited] == Serve(old(entries), [Request(address, now)], maxRequests, true)
    {
      var unseen := entries.Keys;
      while unseen != {}
        invariant unseen <= entries.Keys
        invariant forall a :: a in unseen ==> a in old(entries)
        invariant forall a :: a in entries ==> a in old(entries) && entries[a] == old(entries)[a]
        invariant forall a :: a in old(entries) ==>
          (a in entries <==> a in unseen || now - old(entries)[a].windowStart <= STALE_TTL)
        decreases unseen
      {
        var a :| a in unseen;
        unseen := unseen - {a};
        if now - entries[a].windowStart > STALE_TTL {
          entries := entries - {a};
        }
      }
      assert entries == Evict(old(entries), now);
      if address !in entries {
        entries := entries[address := FRESH];
      }
      if now - entries[address].windowStart >= WINDOW {
        entries := entries[address := Entry(0, now)];
      }
      entries := entries[address := entries[address].(count := entries[address].count + 1)];
      limited := entries[address].count > maxRequests;
      assert entries == Handle(old(entries), Request(address, now), true);
    }
  }

  // ---------------------------------------------------------------------------
  // Runs on a clock that never goes back
  // ---------------------------------------------------------------------------

  predicate Ordered(rs: seq<Request>) {
    forall i, j :: 0 <= i < j < |rs| ==> rs[i].now <= rs[j].now
  }

  /** The two tables differ at most in entries that are stale at every reading from `now` on. */
  ghost predicate SameUpToStale(evicting: Table, keeping: Table, now: int) {
    && (forall a :: a in keeping ==> keeping[a].windowStart >= 0)
    && (forall a :: a in evicting ==> a in keeping && evicting[a] == keeping[a])
    && (forall a :: a in keeping && a !in evicting ==> now - keeping[a].windowStart > STALE_TTL)
  }

  lemma {:induction false} SameVerdicts(evicting: Table, keeping: Table, rs: seq<Request>, max: int)
    requires Ordered(rs)
    requires rs != [] ==> SameUpToStale(evicting, keeping, rs[0].now)
    ensures Serve(evicting, rs, max, true) == Serve(keeping, rs, max, false)
    ensures forall a, w ::
      AdmittedInWindow(evicting, rs, max, a, w, true) == AdmittedInWindow(keeping, rs, max, a, w, false)
    decreases |rs|
  {
    if rs != [] {
      var r := rs[0];
      var e, k := Handle(evicting, r, true), Handle(keeping, r, false);
      assert e[r.address] == k[r.address];
      if rs[1..] != [] {
        assert rs[1].now >= r.now;
        assert SameUpToStale(e, k, rs[1..][0].now);
      }
      SameVerdicts(e, k, rs[1..], max);
      forall a, w
        ensures AdmittedInWindow(evicting, rs, max, a, w, true) == AdmittedInWindow(keeping, rs, max, a, w, false)
      {
        assert AdmittedInWindow(e, rs[1..], max, a, w, true) == AdmittedInWindow(k, rs[1..], max, a, w, false);
      }
    }
  }

  /** Erasing stale entries changes no verdict of any run. */
  lemma EvictionUnobservable(rs: seq<Request>, max: int)
    requires Ordered(rs)
    ensures Serve(map[], rs, max, true) == Serve(map[], rs, max, false)
  {
    SameVerdicts(map[], map[], rs, max);
  }

  /** How many requests of `address` with a clock reading in [from, till) the run admits. */
  function Admitted(rs: seq<Request>, limited: seq<bool>, address: string, from: int, till: int): nat
    requires |limited| == |rs|
  {
    if rs == [] then 0
    else
      (if rs[0].address == address && from <= rs[0].now < till && !limited[0] then 1 else 0)
      + Admitted(rs[1..], limited[1..], address, from, till)
  }

  function Allowance(max: int): nat {
    if max < 0 then 0 else max
  }

  /** What the entry's current window still admits. */
  function Left(e: Entry, max: int): int {
    if e.count <= 0 then Allowance(max)
    else if e.count >= Allowance(max) then 0 else Allowance(max) - e.count
  }

  lemma {:induction false} NothingAdmittedLater(rs: seq<Request>, limited: seq<bool>, address: string, from: int,
                                                till: int)
    requires |limited| == |rs| && Ordered(rs)
    requires rs != [] ==> rs[0].now >= till
    ensures Admitted(rs, limited, address, from, till) == 0
  {
    if |rs| > 1 {
      assert rs[1].now >= rs[0].now;
      NothingAdmittedLater(rs[1..], limited[1..], address, from, till);
    }
  }

  /** Bound on what the rest of a run can admit inside [from, from + WINDOW). */
  function Budget(e: Entry, next: int, from: int, max: int): int {
    if e.windowStart >= from then Left(e, max)
    else if next < from then 2 * Allowance(max)
    else Left(e, max) + Allowance(max)
  }

  lemma {:induction false} WithinBudget(table: Table, rs: seq<Request>, max: int, address: string, from: int)
    requires Ordered(rs) && rs != []
    requires Find(table, address).count >= 0
    ensures Admitted(rs, Serve(table, rs, max, false), address, from, from + WINDOW)
         <= Budget(Find(table, address), rs[0].now, from, max)
    decreases |rs|
  {
    var limited := Serve(table, rs, max, false);
    var r, t := rs[0], Handle(table, rs[0], false);
    if r.now >= from + WINDOW {
      NothingAdmittedLater(rs, limited, address, from, from + WINDOW);
    } else if |rs| > 1 {
      assert limited[1..] == Serve(t, rs[1..], max, false);
      assert rs[1].now >= r.now;
      WithinBudget(t, rs[1..], max, address, from);
    }
  }

  /**
   Over any run, whatever the other addresses do, one address is admitted at most
   twice the maximum in any half-open interval of 60 seconds.
   */
  lemma AtMostTwiceTheMaximum(rs: seq<Request>, max: int, address: string, from: int)
    requires Ordered(rs)
    ensures Admitted(rs, Serve(map[], rs, max, true), address, from, from + 60_000_000_000) <= 2 * Allowance(max)
  {
    EvictionUnobservable(rs, max);
    if rs != [] {
      WithinBudget(map[], rs, max, address, from);
    }
  }

  lemma {:induction false} WindowWithinMaximum(table: Table, rs: seq<Request>, max: int, address: string, start: int)
    requires Find(table, address).count >= 0
    ensures AdmittedInWindow(table, rs, max, address, start, false)
         <= (var e := Find(table, address);
             if e.windowStart == start then Left(e, max)
             else if e.windowStart > start then 0 else Allowance(max))
    decreases |rs|
  {
    if rs != [] {
      WindowWithinMaximum(Handle(table, rs[0], false), rs[1..], max, address, start);
    }
  }

  /** No window of any address admits more than the maximum. */
  lemma AtMostTheMaximumPerWindow(rs: seq<Request>, max: int, address: string, start: int)
    requires Ordered(rs)
    ensures AdmittedInWindow(map[], rs, max, address, start, true) <= Allowance(max)
  {
    SameVerdicts(map[], map[], rs, max);
    WindowWithinMaximum(map[], rs, max, address, start);
  }

  function Burst(address: string, n: nat, now: int): (rs: seq<Request>)
    ensures |rs| == n && forall i :: 0 <= i < n ==> rs[i] == Request(address, now)
  {
    seq(n, _ => Request(address, now))
  }

  function AfterBurst(table: Table, address: string, n: nat, now: int): Table
    decreases n
  {
    if n == 0 then table else AfterBurst(Handle(table, Request(address, now), false), address, n - 1, now)
  }

  lemma {:induction false} BurstCounted(table: Table, address: string, n: nat, now: int)
    requires n > 0
    ensures var first := Hit(Find(table, address), now);
            Find(AfterBurst(table, address, n, now), address) == Entry(first.count + n - 1, first.windowStart)
    decreases n
  {
    if n > 1 {
      BurstCounted(Handle(table, Request(address, now), false), address, n - 1, now);
    }
  }

  lemma ServeFirst(table: Table, r: Request, rs: seq<Request>, max: int)
    ensures var t := Handle(table, r, false);
            Serve(table, [r] + rs, max, false) == [t[r.address].count > max] + Serve(t, rs, max, false)
  {
    assert ([r] + rs)[1..] == rs;
  }

  lemma AdmitFirst(r: Request, rs: seq<Request>, limited: seq<bool>, address: string, from: int, till: int)
    requires |limited| == |rs| && r.address == address && from <= r.now < till
    ensures Admitted([r] + rs, [false] + limited, address, from, till) == 1 + Admitted(rs, limited, address, from, till)
  {
    assert ([r] + rs)[1..] == rs && ([false] + limited)[1..] == limited;
  }

  /** A burst that its window still admits is admitted as a whole. */
  lemma {:induction false} BurstAdmitted(table: Table, address: string, n: nat, now: int, rest: seq<Request>, max: int,
                                         from: int, till: int)
    requires from <= now < till
    requires n > 0 ==> Hit(Find(table, address), now).count + n - 1 <= max
    ensures var rs, after := Burst(address, n, now) + rest, AfterBurst(table, address, n, now);
            Admitted(rs, Serve(table, rs, max, false), address, from, till)
            == n + Admitted(rest, Serve(after, rest, max, false), address, from, till)
    decreases n
  {
    if n == 0 {
      assert Burst(address, n, now) + rest == rest;
    } else {
      var r := Request(address, now);
      var t, fewer := Handle(table, r, false), Burst(address, n - 1, now) + rest;
      assert Burst(address, n, now) + rest == [r] + fewer;
      BurstAdmitted(t, address, n - 1, now, rest, max, from, till);
      ServeFirst(table, r, fewer, max);
      AdmitFirst(r, fewer, Serve(t, fewer, max, false), address, from, till);
    }
  }

  /** The bound of `AtMostTwiceTheMaximum` is reached for every maximum: by two full bursts 1 ns apart. */
  lemma {:induction false} TwiceTheMaximumIsReached(max: int, address: string)
    ensures
      var n := Allowance(max);
      var rs := Burst(address, n, 59_999_999_999) + Burst(address, n, 60_000_000_000);
      && Ordered(rs)
      && Admitted(rs, Serve(map[], rs, max, true), address, 59_999_999_999, 119_999_999_999) == 2 * n
  {
    var n := Allowance(max);
    var late := Burst(address, n, WINDOW);
    var rs := Burst(address, n, WINDOW - 1) + late;
    EvictionUnobservable(rs, max);
    BurstAdmitted(map[], address, n, WINDOW - 1, late, max, WINDOW - 1, 2 * WINDOW - 1);
    var t := AfterBurst(map[], address, n, WINDOW - 1);
    if n > 0 {
      BurstCounted(map[], address, n, WINDOW - 1);
    }
    assert late + [] == late;
    BurstAdmitted(t, address, n, WINDOW, [], max, WINDOW - 1, 2 * WINDOW - 1);
  }

  /** A request drops exactly the other entries whose window opened more than 300 seconds before it. */
  lemma StaleEntriesGo(table: Table, r: Request, a: string)
    requires a != r.address
    ensures var after := Handle(table, r, true);
            && (a in after <==> a in table && r.now - table[a].windowStart <= 300_000_000_000)
            && (a in after ==> after[a] == table[a])
  {
  }
}
