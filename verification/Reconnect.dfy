/** Reconnect attempts of the manager and their exponential backoff. */
module Reconnect {
  type Name = seq<char>

  const U64_MAX := 0xFFFF_FFFF_FFFF_FFFF
  const NANOS := 1_000_000_000   // clock readings are in nanoseconds, `as_secs` rounds down

  function Pow2(n: nat): (r: nat)
    ensures r >= 1
  {
    if n == 0 then 1 else 2 * Pow2(n - 1)
  }

  function Saturate(n: nat): nat {
    if n <= U64_MAX then n else U64_MAX
  }

  /** `base.saturating_mul(2u64.saturating_pow(attempt - 1))`. */
  function Backoff(base: nat, attempt: nat): nat
    requires attempt > 0
  {
    Saturate(base * Saturate(Pow2(attempt - 1)))
  }

  /** At least `wait` seconds lie between two readings. */
  predicate Apart(earlier: nat, later: nat, wait: nat) {
    later - earlier >= wait * NANOS
  }

  /** Each attempt after the first has waited out its backoff. */
  predicate Spaced(base: nat, times: seq<nat>) {
    forall i :: 0 < i < |times| ==> Apart(times[i-1], times[i], Backoff(base, i))
  }

  lemma SpacedAppend(base: nat, times: seq<nat>, time: nat)
    requires Spaced(base, times) && (times != [] ==> Apart(times[|times|-1], time, Backoff(base, |times|)))
    ensures Spaced(base, times + [time])
  {
  }

  lemma {:induction false} Pow2Grows(m: nat, n: nat)
    requires m <= n
    ensures Pow2(m) <= Pow2(n)
    decreases n
  {
    if m < n {
      Pow2Grows(m, n - 1);
    }
  }

  lemma Times(base: nat, a: nat, b: nat)
    requires a <= b
    ensures base * a <= base * b
  {
  }

  /** Until the arithmetic caps, the waits double; from then on each is the largest 64-bit number of seconds. */
  lemma BackoffValue(base: nat, attempt: nat)
    requires attempt > 0
    ensures base * Pow2(attempt - 1) <= U64_MAX ==> Backoff(base, attempt) == base * Pow2(attempt - 1)
    ensures base > 0 && base * Pow2(attempt - 1) > U64_MAX ==> Backoff(base, attempt) == U64_MAX
  {
    var p := Pow2(attempt - 1);
    if p > U64_MAX && base > 0 {
      Times(U64_MAX, 1, base);
      Times(p, 1, base);
    }
  }

  lemma Doubling(base: nat, p: nat, first: nat, middle: nat, last: nat)
    requires p >= 1 && Apart(first, middle, base * (p - 1)) && Apart(middle, last, base * p)
    ensures Apart(first, last, base * (2 * p - 1))
  {
    var q := base * p;
    assert base * (p - 1) == q - base;
    assert base * (2 * p - 1) == 2 * q - base;
  }

  lemma SmallerBackoffFits(base: nat, k: nat)
    requires k > 0 && base * Pow2(k) <= U64_MAX
    ensures base * Pow2(k - 1) <= U64_MAX
  {
    Pow2Grows(k - 1, k);
    Times(base, Pow2(k - 1), Pow2(k));
  }

  /** The (k+1)-th attempt of an offline period comes at least `base * (2^k - 1)` seconds after its first. */
  lemma {:induction false} AttemptsBackOff(base: nat, times: seq<nat>, k: nat)
    requires Spaced(base, times) && k < |times|
    requires k > 0 ==> base * Pow2(k - 1) <= U64_MAX
    ensures Apart(times[0], times[k], base * (Pow2(k) - 1))
  {
    if k > 0 {
      if k > 1 {
        SmallerBackoffFits(base, k - 1);
      }
      AttemptsBackOff(base, times, k - 1);
      BackoffValue(base, k);
      assert Apart(times[k-1], times[k], Backoff(base, k));
      hide Backoff, Apart;
      Doubling(base, Pow2(k - 1), times[0], times[k-1], times[k]);
    }
  }

  /** Once the arithmetic has capped, two attempts are that far apart. */
  lemma CappedBackOff(base: nat, times: seq<nat>, k: nat)
    requires Spaced(base, times) && 0 < k < |times| && base > 0 && base * Pow2(k - 1) > U64_MAX
    ensures Apart(times[k-1], times[k], U64_MAX)
  {
    BackoffValue(base, k);
  }

  function Elapsed(since: nat, now: nat): nat {
    if now < since then 0 else now - since
  }

  /** The wait is over by the whole seconds elapsed. */
  predicate Expired(since: nat, now: nat, wait: nat) {
    Elapsed(since, now) / NANOS >= wait
  }

  /** Rounding down to whole seconds neither shortens the wait nor prolongs it. */
  lemma ExpiredIffApart(since: nat, now: nat, wait: nat)
    requires since <= now
    ensures Expired(since, now, wait) <==> Apart(since, now, wait)
  {
  }

  lemma StillApart(since: nat, now: nat, later: nat, wait: nat)
    requires now <= later && Apart(since, now, wait)
    ensures Apart(since, later, wait)
  {
  }

  /** The next attempt is due from the first, or as soon as the backoff has passed since the last. */
  predicate Due(base: nat, times: seq<nat>, now: nat) {
    times == [] || Apart(times[|times|-1], now, Backoff(base, |times|))
  }

  ghost function AttemptsOf(history: map<Name, seq<nat>>, name: Name): seq<nat> {
    if name in history then history[name] else []
  }

  /** What one pass adds to the attempts of a cluster. */
  ghost predicate Scanned(base: nat, before: seq<nat>, after: seq<nat>, candidate: Candidate, reading: Reading,
                          tried: bool)
  {
    && (tried <==> !candidate.online && !candidate.ltk && Due(base, before, reading.checked))
    && after == before + if tried then [reading.written] else []
  }

  /** The clock when one cluster's wait is checked, and when its attempt is written down. */
  datatype Reading = Reading(checked: nat, written: nat)

  datatype Candidate = Candidate(name: Name, online: bool, ltk: bool)

  class Reconnector {
    const base: nat                          // CLUSTER_MANAGER_CLUSTER_RECONNECT_SECONDS
    var reconnectAttempts: map<Name, nat>
    var lastReconnectAttempt: map<Name, nat>
    ghost var history: map<Name, seq<nat>>   // attempts since the last registration
    ghost var clock: nat                     // the latest reading

    ghost function Attempts(name: Name): seq<nat>
      reads this
    {
      AttemptsOf(history, name)
    }

    ghost predicate Good(name: Name)
      reads this
    {
      var times := Attempts(name);
      && (name in reconnectAttempts <==> times != []) && (name in lastReconnectAttempt <==> times != [])
      && (times != [] ==>
            && reconnectAttempts[name] == |times|
            && lastReconnectAttempt[name] == times[|times|-1] <= clock)
      && Spaced(base, times)
    }

    ghost predicate Valid()
      reads this
    {
      forall name :: Good(name)
    }

    constructor (base: nat)
      ensures Valid() && this.base == base && history == map[] && clock == 0
    {
      this.base := base;
      reconnectAttempts, lastReconnectAttempt, history, clock := map[], map[], map[], 0;
    }

    /** In every reachable state, within one offline period of one cluster. */
    lemma OfflinePeriodBacksOff(name: Name, k: nat)
      requires Valid() && k < |Attempts(name)| && (k > 0 ==> base * Pow2(k - 1) <= U64_MAX)
      ensures Apart(Attempts(name)[0], Attempts(name)[k], base * (Pow2(k) - 1))
    {
      assert Good(name);
      AttemptsBackOff(base, Attempts(name), k);
    }

    /** A registration of the cluster starts the sequence over. */
    method Registered(name: Name)
      requires Valid()
      modifies this
      ensures Valid() && Attempts(name) == [] && clock == old(clock)
      ensures forall other :: other != name ==> Attempts(other) == old(Attempts(other))
    {
      reconnectAttempts := reconnectAttempts - {name};
      lastReconnectAttempt := lastReconnectAttempt - {name};
      history := history - {name};
      forall other ensures Good(other) {
        assert old(Good(other));
      }
    }

    /** One cluster of the scan. */
    method TryReconnect(candidate: Candidate, reading: Reading) returns (tried: bool)
      requires Valid() && clock <= reading.checked <= reading.written
      modifies this
      ensures Valid() && clock == reading.written
      ensures Scanned(base, old(Attempts(candidate.name)), Attempts(candidate.name), candidate, reading, tried)
      ensures forall other :: other != candidate.name ==>
        AttemptsOf(history, other) == AttemptsOf(old(history), other)
    {
      hide Expired, Apart, Backoff, Spaced;
      tried := false;
      var name := candidate.name;
      ghost var times := Attempts(name);
      assert Good(name);
      if !candidate.online && !candidate.ltk {
        var attempt := if name in reconnectAttempts then reconnectAttempts[name] else 0;
        tried := true;
        if attempt > 0 {
          var wait := Backoff(base, attempt);
          if name in lastReconnectAttempt {
            tried := Expired(lastReconnectAttempt[name], reading.checked, wait);
            ExpiredIffApart(lastReconnectAttempt[name], reading.checked, wait);
            if tried {
              StillApart(lastReconnectAttempt[name], reading.checked, reading.written, wait);
            }
          }
        }
        if tried {
          SpacedAppend(base, times, reading.written);
          reconnectAttempts := reconnectAttempts[name := attempt + 1];
          lastReconnectAttempt := lastReconnectAttempt[name := reading.written];
          history := history[name := times + [reading.written]];
        }
      }
      clock := reading.written;
      forall other ensures Good(other) {
        assert old(Good(other));
      }
    }

    /** One pass over the clusters, in any order; the readings are those of a monotonic clock. */
    method ReconnectClusters(clusters: seq<Candidate>, readings: seq<Reading>) returns (tried: seq<bool>)
      requires Valid() && |readings| == |clusters| && Monotonic(clock, readings)
      requires forall i, j :: 0 <= i < j < |clusters| ==> clusters[i].name != clusters[j].name
      modifies this
      ensures Valid() && |tried| == |clusters|
      ensures forall i :: 0 <= i < |clusters| ==>
        Scanned(base, old(Attempts(clusters[i].name)), Attempts(clusters[i].name), clusters[i], readings[i], tried[i])
    {
      hide Valid, Due, Scanned, AttemptsOf;
      ghost var before := history;
      tried := [];
      for i := 0 to |clusters|
        invariant Valid() && i == |tried| && (i < |clusters| ==> clock <= readings[i].checked)
        invariant forall j :: 0 <= j < i ==>
          Scanned(base, AttemptsOf(before, clusters[j].name), AttemptsOf(history, clusters[j].name), clusters[j],
                  readings[j], tried[j])
        invariant forall j :: i <= j < |clusters| ==>
          AttemptsOf(history, clusters[j].name) == AttemptsOf(before, clusters[j].name)
      {
        var ok := TryReconnect(clusters[i], readings[i]);
        tried := tried + [ok];
      }
    }
  }

  predicate Monotonic(clock: nat, readings: seq<Reading>) {
    && (readings != [] ==> clock <= readings[0].checked)
    && (forall i :: 0 <= i < |readings| ==> readings[i].checked <= readings[i].written)
    && (forall i :: 0 < i < |readings| ==> readings[i-1].written <= readings[i].checked)
  }
}
