/** The sweep that expires agents which have not authenticated in time. */
module Watcher {
  import opened Common
  import opened TimedMaps

  const NANOS_PER_SECOND: nat := 1_000_000_000

  /** `i.elapsed().as_secs()`: whole seconds, and zero rather than negative. */
  function ElapsedSecs(stamp: nat, now: nat): nat {
    if now < stamp then 0 else (now - stamp) / NANOS_PER_SECOND
  }

  predicate Expired(stamp: nat, now: nat, timeout: nat) {
    ElapsedSecs(stamp, now) > timeout
  }

  /** An entry must be a whole second older than the timeout, because the age is rounded down. */
  lemma ExpiredIff(stamp: nat, now: nat, timeout: nat)
    ensures Expired(stamp, now, timeout) <==> now - stamp >= (timeout + 1) * 1_000_000_000
  {}

  lemma ExpiryIsMonotone(elder: nat, young: nat, before: nat, after: nat, timeout: nat)
    requires elder <= young && before <= after
    ensures Expired(young, before, timeout) ==> Expired(elder, after, timeout)
  {
    ExpiredIff(young, before, timeout);
    ExpiredIff(elder, after, timeout);
  }

  /** The full filter, from entry `i` on: what a sweep that inspected all of them at `now` would leave. */
  ghost function FreshFrom<K, V>(es: seq<Entry<K, V>>, i: nat, now: nat, timeout: nat): seq<Entry<K, V>>
    requires i <= |es|
    decreases |es| - i
  {
    if i == |es| then []
    else (if Expired(es[i].time, now, timeout) then [] else [es[i]]) + FreshFrom(es, i + 1, now, timeout)
  }

  ghost function Fresh<K, V>(es: seq<Entry<K, V>>, now: nat, timeout: nat): seq<Entry<K, V>> {
    FreshFrom(es, 0, now, timeout)
  }

  /** The values whose entries such a sweep would take out, oldest first. */
  ghost function StaleFrom<K, V>(es: seq<Entry<K, V>>, i: nat, now: nat, timeout: nat): seq<V>
    requires i <= |es|
    decreases |es| - i
  {
    if i == |es| then []
    else (if Expired(es[i].time, now, timeout) then [es[i].value] else []) + StaleFrom(es, i + 1, now, timeout)
  }

  ghost function Stale<K, V>(es: seq<Entry<K, V>>, now: nat, timeout: nat): seq<V> {
    StaleFrom(es, 0, now, timeout)
  }

  function Values<K, V>(es: seq<Entry<K, V>>): seq<V> {
    seq(|es|, i requires 0 <= i < |es| => es[i].value)
  }

  lemma {:induction false} AllExpiredLeaveNothing<K(!new), V>(es: seq<Entry<K, V>>, i: nat, n: nat, now: nat,
                                                              timeout: nat)
    requires i <= n <= |es|
    requires forall j :: i <= j < n ==> Expired(es[j].time, now, timeout)
    ensures FreshFrom(es, i, now, timeout) == FreshFrom(es, n, now, timeout)
    decreases n - i
  {
    hide Expired;
    if i < n {
      AllExpiredLeaveNothing(es, i + 1, n, now, timeout);
    }
  }

  lemma {:induction false} AllExpiredAreTaken<K(!new), V>(es: seq<Entry<K, V>>, i: nat, n: nat, now: nat, timeout: nat)
    requires i <= n <= |es|
    requires forall j :: i <= j < n ==> Expired(es[j].time, now, timeout)
    ensures StaleFrom(es, i, now, timeout) == Values(es[i..n]) + StaleFrom(es, n, now, timeout)
    decreases n - i
  {
    hide Expired;
    if i < n {
      AllExpiredAreTaken(es, i + 1, n, now, timeout);
      ValuesFrom(es, i, n);
    }
  }

  lemma ValuesFrom<K, V>(es: seq<Entry<K, V>>, i: nat, n: nat)
    requires i < n <= |es|
    ensures Values(es[i..n]) == [es[i].value] + Values(es[i + 1..n])
  {}

  lemma {:induction false} NoneExpiredAfter<K(!new), V>(es: seq<Entry<K, V>>, n: nat, now: nat, timeout: nat)
    requires n <= |es|
    requires forall j :: n <= j < |es| ==> !Expired(es[j].time, now, timeout)
    ensures FreshFrom(es, n, now, timeout) == es[n..] && StaleFrom(es, n, now, timeout) == []
    decreases |es| - n
  {
    if n < |es| {
      NoneExpiredAfter(es, n + 1, now, timeout);
      assert es[n..] == [es[n]] + es[n + 1..];
    }
  }

  /** In stamp order the filter only ever cuts off a prefix. */
  lemma FilterCutsPrefix<K(!new), V>(es: seq<Entry<K, V>>, n: nat, now: nat, timeout: nat)
    requires Sorted(es) && n <= |es|
    requires forall i :: 0 <= i < n ==> Expired(es[i].time, now, timeout)
    requires n < |es| ==> !Expired(es[n].time, now, timeout)
    ensures Fresh(es, now, timeout) == es[n..]
    ensures Stale(es, now, timeout) == Values(es[..n])
  {
    AllExpiredLeaveNothing(es, 0, n, now, timeout);
    AllExpiredAreTaken(es, 0, n, now, timeout);
    forall j | n <= j < |es| ensures !Expired(es[j].time, now, timeout) {
      ExpiredIff(es[j].time, now, timeout);
      ExpiredIff(es[n].time, now, timeout);
    }
    NoneExpiredAfter(es, n, now, timeout);
    assert es[0..n] == es[..n];
  }

  lemma {:induction false} FreshMembers<K(!new), V(!new)>(es: seq<Entry<K, V>>, i: nat, now: nat, timeout: nat)
    requires i <= |es|
    ensures forall e :: e in FreshFrom(es, i, now, timeout) <==> e in es[i..] && !Expired(e.time, now, timeout)
    decreases |es| - i
  {
    if i < |es| {
      FreshMembers(es, i + 1, now, timeout);
      assert es[i..] == [es[i]] + es[i + 1..];
    }
  }

  datatype SweepEnd = Done | Panicked

  /**
    One pass of the watcher. `ticks` are the successive answers of the clock, one for each test of
    a front entry. `listening` are the senders whose receiving half still exists: to any other the
    `CloseConnection` cannot be sent, and the `unwrap` of that failure ends the watcher.

    Although the clock moves on between tests and the loop stops at the first fresh entry, what is
    left is what a filter of the whole map at the last reading would leave.
  */
  method Sweep<K(!new), V(==)>(m: TimedHashMap<K, V>, timeout: nat, ticks: seq<nat>, listening: set<V>)
    returns (end: SweepEnd, told: seq<V>, used: nat)
    requires m.Valid()
    requires forall i, j :: 0 <= i < j < |ticks| ==> ticks[i] <= ticks[j]
    requires |ticks| >= |m.entries|
    modifies m
    ensures m.Valid() && used <= |ticks|
    ensures used == 0 <==> old(m.entries) == []
    ensures end == Done && used > 0 ==>
      && m.entries == Fresh(old(m.entries), ticks[used - 1], timeout)
      && told == Stale(old(m.entries), ticks[used - 1], timeout)
    ensures used == 0 ==> end == Done && m.entries == [] && told == []
    ensures forall v :: v in told ==> v in listening
    ensures end == Panicked ==>
      && |told| + 1 + |m.entries| == |old(m.entries)|
      && m.entries == old(m.entries)[|told| + 1..] && told == Values(old(m.entries)[..|told|])
      && old(m.entries)[|told|].value !in listening
      && Expired(old(m.entries)[|told|].time, ticks[used - 1], timeout)
  {
    hide Progress, AllExpired, Expired, Fresh, Stale, AsMap;
    ghost var before := m.entries;
    told, used, end := [], 0, Done;
    StartProgress(before, ticks, timeout);
    while true
      invariant m.Valid() && Progress(before, m.entries, told, used)
      invariant AllExpired(before, used, ticks, timeout)
      invariant forall v :: v in told ==> v in listening
      decreases |m.entries|
    {
      var front := m.FrontWithTime();
      UseProgress(before, m.entries, told, used);
      if front.None? {
        FinishEmpty(before, told, used, ticks, timeout);
        return;
      }
      NextReading(before, used, ticks, timeout);
      used := used + 1;
      if !Expired(front.value.time, ticks[used - 1], timeout) {
        FinishFresh(before, m.entries, told, used - 1, ticks, timeout);
        return;
      }
      var popped := m.PopFront();
      if popped.value.value !in listening {
        end := Panicked;
        return;
      }
      MoreProgress(before, told, used - 1);
      told := told + [popped.value.value];
      AllExpiredNext(before, used, ticks, timeout);
    }
  }

  /** `told` and `rest` are what has become of the first `n` and of the other entries. */
  ghost predicate Progress<K(!new), V>(before: seq<Entry<K, V>>, rest: seq<Entry<K, V>>, told: seq<V>, n: nat) {
    n <= |before| && rest == before[n..] && told == Values(before[..n])
  }

  lemma StartProgress<K(!new), V>(before: seq<Entry<K, V>>, ticks: seq<nat>, timeout: nat)
    ensures Progress(before, before, [], 0) && AllExpired(before, 0, ticks, timeout)
  {}

  lemma UseProgress<K(!new), V>(before: seq<Entry<K, V>>, rest: seq<Entry<K, V>>, told: seq<V>, n: nat)
    requires Progress(before, rest, told, n)
    ensures |told| == n && n + |rest| == |before| && rest == before[n..] && told == Values(before[..n])
    ensures rest != [] ==> rest[0] == before[n] && rest[1..] == before[n + 1..]
  {}

  lemma MoreProgress<K(!new), V>(before: seq<Entry<K, V>>, told: seq<V>, n: nat)
    requires n < |before| && Progress(before, before[n..], told, n)
    ensures Progress(before, before[n + 1..], told + [before[n].value], n + 1)
  {}

  lemma FinishEmpty<K(!new), V>(before: seq<Entry<K, V>>, told: seq<V>, n: nat, ticks: seq<nat>, timeout: nat)
    requires Progress(before, [], told, n) && AllExpired(before, n, ticks, timeout) && Sorted(before)
    ensures n == |before|
    ensures n > 0 ==> Fresh(before, ticks[n - 1], timeout) == [] && Stale(before, ticks[n - 1], timeout) == told
  {
    if n > 0 {
      FilterCutsPrefix(before, n, ticks[n - 1], timeout);
    }
  }

  lemma FinishFresh<K(!new), V>(before: seq<Entry<K, V>>, rest: seq<Entry<K, V>>, told: seq<V>, n: nat,
                                ticks: seq<nat>, timeout: nat)
    requires Progress(before, rest, told, n) && n < |before| && n < |ticks| && Sorted(before)
    requires forall i :: 0 <= i < n ==> Expired(before[i].time, ticks[n], timeout)
    requires !Expired(before[n].time, ticks[n], timeout)
    ensures Fresh(before, ticks[n], timeout) == rest && Stale(before, ticks[n], timeout) == told
  {
    FilterCutsPrefix(before, n, ticks[n], timeout);
  }

  lemma AllExpiredNext<K(!new), V>(es: seq<Entry<K, V>>, n: nat, ticks: seq<nat>, timeout: nat)
    requires 0 < n <= |es| && n <= |ticks|
    requires forall i :: 0 <= i < n ==> Expired(es[i].time, ticks[n - 1], timeout)
    ensures AllExpired(es, n, ticks, timeout)
  {}

  /** The first `n` entries were all expired by the last of `n` readings. */
  ghost predicate AllExpired<K(!new), V>(es: seq<Entry<K, V>>, n: nat, ticks: seq<nat>, timeout: nat) {
    n <= |es| && n <= |ticks| && forall i :: 0 <= i < n ==> Expired(es[i].time, ticks[n - 1], timeout)
  }

  /** ... and so they are by the next reading. */
  lemma NextReading<K(!new), V>(es: seq<Entry<K, V>>, n: nat, ticks: seq<nat>, timeout: nat)
    requires AllExpired(es, n, ticks, timeout) && n < |ticks|
    requires forall i, j :: 0 <= i < j < |ticks| ==> ticks[i] <= ticks[j]
    ensures forall i :: 0 <= i < n ==> Expired(es[i].time, ticks[n], timeout)
  {
    forall i | 0 <= i < n ensures Expired(es[i].time, ticks[n], timeout) {
      ExpiryIsMonotone(es[i].time, es[i].time, ticks[n - 1], ticks[n], timeout);
    }
  }

  // ---------------------------------------------------------------------------------------------
  // How long an unauthenticated entry can live
  // ---------------------------------------------------------------------------------------------

  /** `swept` is the instant of the last reading of the last completed sweep, or the start. */
  datatype Timed<K, V> = Timed(entries: seq<Entry<K, V>>, now: nat, swept: nat)

  /** A pass of the watcher reads the clock again for every entry it tests. `waits` are the times that
      go by before each of these readings; where the list has run out, none does. */
  datatype Event<K, V> =
    | Advance(nanos: nat)
    | Admit(key: K, value: V)
    | Claim(key: K)
    | Pass(waits: seq<nat>)

  function Apply<K(==, !new), V>(s: Timed<K, V>, e: Event<K, V>, timeout: nat): Timed<K, V> {
    match e
    case Advance(nanos) => s.(now := s.now + nanos)
    case Admit(key, value) => s.(entries := Inserted(s.entries, key, value, s.now))
    case Claim(key) => s.(entries := Without(s.entries, key))
    case Pass(waits) =>
      var (rest, last) := Passed(s.entries, s.now, waits, timeout);
      Timed(rest, last, last)
  }

  /** What the loop of a pass leaves, and its last reading. */
  function Passed<K, V>(es: seq<Entry<K, V>>, now: nat, waits: seq<nat>, timeout: nat): (r: (seq<Entry<K, V>>, nat))
    ensures r.1 >= now
    decreases |es|
  {
    if es == [] then (es, now)
    else
      var reading := now + (if waits == [] then 0 else waits[0]);
      if Expired(es[0].time, reading, timeout)
      then Passed(es[1..], reading, if waits == [] then [] else waits[1..], timeout)
      else (es, reading)
  }

  /** What is left if all readings are `now`: the loop cuts off the expired prefix. */
  function CutExpired<K, V>(es: seq<Entry<K, V>>, now: nat, timeout: nat): seq<Entry<K, V>> {
    if es != [] && Expired(es[0].time, now, timeout) then CutExpired(es[1..], now, timeout) else es
  }

  /** Reading the clock again and again leaves what the last reading alone would leave. */
  lemma {:induction false} PassedIsCut<K(!new), V>(es: seq<Entry<K, V>>, now: nat, waits: seq<nat>, timeout: nat)
    ensures var (rest, last) := Passed(es, now, waits, timeout); rest == CutExpired(es, last, timeout)
    decreases |es|
  {
    hide Expired;
    if es != [] {
      var reading := now + (if waits == [] then 0 else waits[0]);
      if Expired(es[0].time, reading, timeout) {
        var more := if waits == [] then [] else waits[1..];
        PassedIsCut(es[1..], reading, more, timeout);
        ExpiryIsMonotone(es[0].time, es[0].time, reading, Passed(es[1..], reading, more, timeout).1, timeout);
      }
    }
  }

  lemma {:induction false} CutIsSuffix<K(!new), V>(es: seq<Entry<K, V>>, now: nat, timeout: nat) returns (n: nat)
    ensures n <= |es| && CutExpired(es, now, timeout) == es[n..]
    ensures forall i :: 0 <= i < n ==> Expired(es[i].time, now, timeout)
    ensures n < |es| ==> !Expired(es[n].time, now, timeout)
  {
    hide Expired;
    if es != [] && Expired(es[0].time, now, timeout) {
      var m := CutIsSuffix(es[1..], now, timeout);
      n := m + 1;
      assert forall i :: 1 <= i < n ==> es[i] == es[1..][i - 1];
    } else {
      n := 0;
    }
  }

  lemma CutIsFresh<K(!new), V>(es: seq<Entry<K, V>>, now: nat, timeout: nat)
    requires Sorted(es)
    ensures CutExpired(es, now, timeout) == Fresh(es, now, timeout)
  {
    var n := CutIsSuffix(es, now, timeout);
    FilterCutsPrefix(es, n, now, timeout);
  }

  ghost function Exec<K(!new), V>(start: nat, events: seq<Event<K, V>>, timeout: nat): Timed<K, V> {
    if events == [] then Timed([], start, start)
    else Apply(Exec(start, events[..|events| - 1], timeout), events[|events| - 1], timeout)
  }

  ghost predicate WellTimed<K(!new), V>(s: Timed<K, V>, timeout: nat) {
    && DistinctKeys(s.entries) && Sorted(s.entries) && StampedBy(s.entries, s.now) && s.swept <= s.now
    && forall i :: 0 <= i < |s.entries| ==> !Expired(s.entries[i].time, s.swept, timeout)
  }

  lemma {:induction false} ExecIsWellTimed<K(!new), V>(start: nat, events: seq<Event<K, V>>, timeout: nat)
    ensures WellTimed(Exec(start, events, timeout), timeout)
  {
    if events != [] {
      var s := Exec(start, events[..|events| - 1], timeout);
      ExecIsWellTimed(start, events[..|events| - 1], timeout);
      hide CutExpired, Passed, Expired, Without;
      match events[|events| - 1]
      case Advance(_) =>
      case Admit(key, value) =>
        InsertedKeepsOrder(s.entries, key, value, s.now);
        WithoutKeepsOrder(s.entries, key);
      case Claim(key) => WithoutKeepsOrder(s.entries, key);
      case Pass(waits) =>
        PassedIsCut(s.entries, s.now, waits, timeout);
        CutKeepsOrder(s.entries, Passed(s.entries, s.now, waits, timeout).1, timeout);
    }
  }

  lemma CutKeepsOrder<K(!new), V>(es: seq<Entry<K, V>>, now: nat, timeout: nat)
    requires DistinctKeys(es) && Sorted(es) && StampedBy(es, now)
    ensures var r := CutExpired(es, now, timeout);
      && DistinctKeys(r) && Sorted(r) && StampedBy(r, now)
      && forall i :: 0 <= i < |r| ==> !Expired(r[i].time, now, timeout)
  {
    hide CutExpired;
    var n := CutIsSuffix(es, now, timeout);
    forall i | n <= i < |es| ensures !Expired(es[i].time, now, timeout) {
      ExpiredIff(es[i].time, now, timeout);
      ExpiredIff(es[n].time, now, timeout);
    }
  }

  /**
    While the last sweep is at most `gap` ago, no waiting entry has reached the age of the timeout
    plus one second plus `gap`; and a sweep, however often it reads the clock, takes an entry if and
    only if by its last reading that is at least the timeout plus one second old.
  */
  lemma LifetimeBound<K(!new), V(!new)>(start: nat, events: seq<Event<K, V>>, timeout: nat, gap: nat, e: Entry<K, V>,
                                        waits: seq<nat>)
    requires e in Exec(start, events, timeout).entries
    ensures var s := Exec(start, events, timeout);
      && (s.now <= s.swept + gap ==> s.now - e.time < (timeout + 1) * 1_000_000_000 + gap)
      && var after := Apply(s, Pass(waits), timeout);
        after.swept >= s.now
        && (e !in after.entries <==> after.swept - e.time >= (timeout + 1) * 1_000_000_000)
  {
    var s := Exec(start, events, timeout);
    ExecIsWellTimed(start, events, timeout);
    var i :| 0 <= i < |s.entries| && s.entries[i] == e;
    ExpiredIff(e.time, s.swept, timeout);
    var last := Passed(s.entries, s.now, waits, timeout).1;
    ExpiredIff(e.time, last, timeout);
    PassedIsCut(s.entries, s.now, waits, timeout);
    CutIsFresh(s.entries, last, timeout);
    FreshMembers(s.entries, 0, last, timeout);
    assert s.entries[0..] == s.entries;
  }
}
