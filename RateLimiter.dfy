/**
 * The per-client counters (`rateLimits`) with the decays that `setTimeout` defers.
 * Time is a logical clock in milliseconds; `pending` stands for the timers not yet fired,
 * in the order they were scheduled.
 */
module RateLimiter {

  /** One scheduled `rateLimits[ip] -= 1`, due at clock value `due`. */
  datatype Decay = Decay(due: int, ip: string)

  datatype Server = Server(counts: map<string, int>, pending: seq<Decay>, now: int)

  /** The state before the first request: no counters, no timers. */
  function Initial(start: int): Server {
    Server(map[], [], start)
  }

  /** `rateLimits[ip]` read as a number, an absent entry counting as 0. */
  function Level(counts: map<string, int>, ip: string): int {
    if ip in counts then counts[ip] else 0
  }

  /** `rateLimits[ip] >= cap`: an absent entry is `undefined`, which compares false against every cap. */
  predicate Limited(counts: map<string, int>, ip: string, cap: int) {
    ip in counts && counts[ip] >= cap
  }

  /** The timer delay for `rateLimitExpires` seconds; a negative delay runs as soon as possible. */
  function DelayMs(expires: int): nat {
    if expires * 1000 > 0 then expires * 1000 else 0
  }

  /** How many pending decays are for `ip`. */
  function Occurrences(pending: seq<Decay>, ip: string): nat {
    if pending == [] then 0
    else (if pending[0].ip == ip then 1 else 0) + Occurrences(pending[1..], ip)
  }

  /**
   * An admission: reset the entry to 0 when it is falsy (absent or 0), add 1, and schedule
   * exactly one decay `delay` ms from now.
   */
  function Record(st: Server, ip: string, delay: nat): Server {
    var base := if ip in st.counts && st.counts[ip] != 0 then st.counts else st.counts[ip := 0];
    Server(base[ip := base[ip] + 1], st.pending + [Decay(st.now + delay, ip)], st.now)
  }

  /**
   * An admission raises the client's counter by exactly 1 (an absent entry counting as 0),
   * leaves every other counter alone, and adds exactly one decay, due one delay from now.
   */
  lemma RecordEffect(st: Server, ip: string, delay: nat)
    ensures var st' := Record(st, ip, delay);
      && Level(st'.counts, ip) == Level(st.counts, ip) + 1
      && st'.counts.Keys == st.counts.Keys + {ip}
      && (forall other :: other in st.counts && other != ip ==> st'.counts[other] == st.counts[other])
      && st'.pending == st.pending + [Decay(st.now + delay, ip)] && st'.now == st.now
  {
  }

  /** How many timers at the front of the queue are due at clock value `now`. */
  function DueCount(pending: seq<Decay>, now: int): (k: nat)
    ensures k <= |pending|
    ensures forall j :: 0 <= j < k ==> pending[j].due <= now
    ensures k < |pending| ==> pending[k].due > now
  {
    if pending == [] || pending[0].due > now then 0
    else 1 + DueCount(pending[1..], now)
  }

  /** Run the decays `fired` in order: each subtracts exactly 1 from its counter, with no floor at zero. */
  function Decrement(counts: map<string, int>, fired: seq<Decay>): map<string, int>
    decreases |fired|
  {
    if fired == [] then counts
    else Decrement(counts[fired[0].ip := Level(counts, fired[0].ip) - 1], fired[1..])
  }

  /** Each counter drops by exactly the number of its decays that ran, with no floor at zero. */
  lemma {:induction false} DecrementLevel(counts: map<string, int>, fired: seq<Decay>, ip: string)
    ensures Level(Decrement(counts, fired), ip) == Level(counts, ip) - Occurrences(fired, ip)
    decreases |fired|
  {
    if fired != [] {
      DecrementLevel(counts[fired[0].ip := Level(counts, fired[0].ip) - 1], fired[1..], ip);
    }
  }

  /** Running decays removes no counter and creates none other than those of the decays themselves. */
  lemma {:induction false} DecrementKeys(counts: map<string, int>, fired: seq<Decay>)
    ensures counts.Keys <= Decrement(counts, fired).Keys
    ensures forall ip :: ip in Decrement(counts, fired) ==> ip in counts || exists j :: 0 <= j < |fired| && fired[j].ip == ip
    decreases |fired|
  {
    if fired != [] {
      var next := counts[fired[0].ip := Level(counts, fired[0].ip) - 1];
      DecrementKeys(next, fired[1..]);
      forall ip | ip in Decrement(counts, fired)
        ensures ip in counts || exists j :: 0 <= j < |fired| && fired[j].ip == ip
      {
        if ip !in counts && ip != fired[0].ip {
          assert ip !in next;
          var j :| 0 <= j < |fired[1..]| && fired[1..][j].ip == ip;
          assert fired[j + 1].ip == ip;
        }
      }
    }
  }

  /** Running one more decay after `fired`. */
  lemma {:induction false} DecrementAppend(counts: map<string, int>, fired: seq<Decay>, d: Decay)
    ensures Decrement(counts, fired + [d]) == Decrement(counts, fired)[d.ip := Level(Decrement(counts, fired), d.ip) - 1]
    decreases |fired|
  {
    if fired != [] {
      assert (fired + [d])[1..] == fired[1..] + [d];
      DecrementAppend(counts[fired[0].ip := Level(counts, fired[0].ip) - 1], fired[1..], d);
    }
  }

  /** Fire every timer that is due, oldest first. */
  function Fire(st: Server): Server {
    var k := DueCount(st.pending, st.now);
    Server(Decrement(st.counts, st.pending[..k]), st.pending[k..], st.now)
  }

  /** Let `dt` ms pass, then fire what has become due. */
  function Advance(st: Server, dt: nat): Server {
    Fire(st.(now := st.now + dt))
  }

  /**
   * The invariant the dispatcher keeps: every counter equals the number of its pending decays
   * (so no counter is negative), every pending decay has its counter, and the queue is in due
   * order with nothing due later than one delay from now.
   */
  ghost predicate Consistent(st: Server, delay: nat) {
    && (forall j :: 0 <= j < |st.pending| ==> st.pending[j].ip in st.counts)
    && (forall ip :: ip in st.counts ==> st.counts[ip] == Occurrences(st.pending, ip))
    && (forall i, j :: 0 <= i < j < |st.pending| ==> st.pending[i].due <= st.pending[j].due)
    && (forall j :: 0 <= j < |st.pending| ==> st.pending[j].due <= st.now + delay)
  }

  lemma {:induction false} OccurrencesAppend(p: seq<Decay>, d: Decay, ip: string)
    ensures Occurrences(p + [d], ip) == Occurrences(p, ip) + (if d.ip == ip then 1 else 0)
  {
    if p == [] {
      assert [d][1..] == [];
    } else {
      assert (p + [d])[1..] == p[1..] + [d];
      OccurrencesAppend(p[1..], d, ip);
    }
  }

  lemma {:induction false} OccurrencesAbsent(p: seq<Decay>, ip: string)
    requires forall j :: 0 <= j < |p| ==> p[j].ip != ip
    ensures Occurrences(p, ip) == 0
  {
    if p != [] {
      OccurrencesAbsent(p[1..], ip);
    }
  }

  lemma {:induction false} OccurrencesSplit(p: seq<Decay>, k: nat, ip: string)
    requires k <= |p|
    ensures Occurrences(p, ip) == Occurrences(p[..k], ip) + Occurrences(p[k..], ip)
  {
    if k > 0 {
      assert p[..k][1..] == p[1..][..k - 1];
      assert p[k..] == p[1..][k - 1..];
      OccurrencesSplit(p[1..], k - 1, ip);
    } else {
      assert p[..0] == [] && p[0..] == p;
    }
  }

  /** Counters never go below zero as long as the invariant holds. */
  lemma CountsNonNegative(st: Server, delay: nat, ip: string)
    requires Consistent(st, delay)
    ensures Level(st.counts, ip) >= 0
  {
  }

  /** An admission keeps the invariant. */
  lemma RecordConsistent(st: Server, ip: string, delay: nat)
    requires Consistent(st, delay)
    ensures Consistent(Record(st, ip, delay), delay)
  {
    var st' := Record(st, ip, delay);
    var d := Decay(st.now + delay, ip);
    RecordEffect(st, ip, delay);
    assert st'.pending == st.pending + [d];
    forall x | x in st'.counts
      ensures st'.counts[x] == Occurrences(st'.pending, x)
    {
      OccurrencesAppend(st.pending, d, x);
      if x == ip && ip !in st.counts {
        OccurrencesAbsent(st.pending, ip);
      }
    }
  }

  /** Firing due timers keeps the invariant. */
  lemma FireConsistent(st: Server, delay: nat)
    requires Consistent(st, delay)
    ensures Consistent(Fire(st), delay)
  {
    var r := Fire(st);
    var k := DueCount(st.pending, st.now);
    DecrementKeys(st.counts, st.pending[..k]);
    forall ip | ip in r.counts
      ensures r.counts[ip] == Occurrences(r.pending, ip)
    {
      OccurrencesSplit(st.pending, k, ip);
      DecrementLevel(st.counts, st.pending[..k], ip);
    }
    forall j | 0 <= j < |r.pending|
      ensures r.pending[j].ip in r.counts
    {
      assert r.pending[j] == st.pending[k + j];
    }
  }

  /** Letting time pass keeps the invariant. */
  lemma AdvanceConsistent(st: Server, delay: nat, dt: nat)
    requires Consistent(st, delay)
    ensures Consistent(Advance(st, dt), delay)
  {
    FireConsistent(st.(now := st.now + dt), delay);
  }

  /** None of the pending decays for `ip` is due at or before clock value `t`. */
  predicate QuietUntil(pending: seq<Decay>, ip: string, t: int) {
    forall j :: 0 <= j < |pending| && pending[j].ip == ip ==> pending[j].due > t
  }

  /** Under the invariant a client with no entry has no pending decay at all. */
  lemma AbsentClientIsQuiet(st: Server, delay: nat, ip: string, t: int)
    requires Consistent(st, delay) && ip !in st.counts
    ensures QuietUntil(st.pending, ip, t)
  {
  }

  /**
   * Letting `dt` ms pass while no decay of `ip` falls due leaves `ip`'s counter exactly as it
   * was, neither creates nor removes its entry, and keeps its decays pending.
   */
  lemma IdleAdvanceKeepsLevel(st: Server, dt: nat, ip: string, t: int)
    requires st.now + dt <= t && QuietUntil(st.pending, ip, t)
    ensures Level(Advance(st, dt).counts, ip) == Level(st.counts, ip)
    ensures (ip in Advance(st, dt).counts) == (ip in st.counts)
    ensures QuietUntil(Advance(st, dt).pending, ip, t)
    ensures Advance(st, dt).now == st.now + dt
  {
    var later := st.(now := st.now + dt);
    var k := DueCount(later.pending, later.now);
    var fired := st.pending[..k];
    assert forall j :: 0 <= j < |fired| ==> fired[j] == st.pending[j];
    OccurrencesAbsent(fired, ip);
    DecrementLevel(st.counts, fired, ip);
    DecrementKeys(st.counts, fired);
    var r := Advance(st, dt);
    forall j | 0 <= j < |r.pending| && r.pending[j].ip == ip
      ensures r.pending[j].due > t
    {
      assert r.pending[j] == st.pending[k + j];
    }
  }

  /** Once a full delay passes with no new admission, every timer has fired and every counter is back to 0. */
  lemma QuietPeriodDrains(st: Server, delay: nat, dt: nat)
    requires Consistent(st, delay)
    requires dt >= delay
    ensures Advance(st, dt).pending == []
    ensures forall ip :: Level(Advance(st, dt).counts, ip) == 0
  {
    var r := Advance(st, dt);
    AdvanceConsistent(st, delay, dt);
  }
}
