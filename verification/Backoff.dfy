/** The reconnect delay (internal/forward/backoff.go).  Durations are nanoseconds; the shift
    is Go's: on a signed 64-bit integer, keeping the low 64 bits. */
module Backoff {

  const SECOND := 1_000_000_000
  const BACKOFF_BASE := SECOND
  const BACKOFF_MAX := 30 * SECOND
  const STABLE_RESET := 30 * SECOND
  const TWO_63 := 0x8000_0000_0000_0000
  const TWO_64 := 0x1_0000_0000_0000_0000
  const TWO_43 := 0x800_0000_0000

  function Pow2(n: nat): (p: nat)
    ensures p >= 1
  {
    if n == 0 then 1 else 2 * Pow2(n - 1)
  }

  /** The signed value of the low 64 bits. */
  function Wrap64(x: int): (r: int)
    ensures -TWO_63 <= r < TWO_63
  {
    var low := x % TWO_64;
    if low >= TWO_63 then low - TWO_64 else low
  }

  function NextBackoff(attempt: int): int {
    var n := if attempt < 0 then 0 else attempt;
    var d := Wrap64(BACKOFF_BASE * Pow2(n));
    if d <= 0 || d > BACKOFF_MAX then BACKOFF_MAX else d
  }

  function NextAttemptAfterDisconnect(stable: int, attempt: nat): nat {
    if stable >= STABLE_RESET then 0 else attempt + 1
  }

  function Min(a: nat, b: nat): nat { if a < b then a else b }

  lemma {:induction false} Pow2Splits(m: nat, n: nat)
    ensures Pow2(m + n) == Pow2(m) * Pow2(n)
  {
    if m > 0 { Pow2Splits(m - 1, n); }
  }

  lemma {:induction false} Pow2Grows(m: nat, n: nat)
    requires m <= n
    ensures Pow2(m) <= Pow2(n)
  {
    if m < n { Pow2Grows(m, n - 1); }
  }

  /** Wrapping a multiple of 2^43 leaves a multiple of 2^43. */
  lemma WrapKeepsMultiple(k: nat)
    ensures exists j: int :: Wrap64(TWO_43 * k) == TWO_43 * j
  {
    var q := (TWO_43 * k) / TWO_64;
    var j := k - 0x20_0000 * q;
    assert (TWO_43 * k) % TWO_64 == TWO_43 * j;
    assert Wrap64(TWO_43 * k) == TWO_43 * j || Wrap64(TWO_43 * k) == TWO_43 * (j - 0x20_0000);
  }

  lemma Pow2Values()
    ensures Pow2(5) == 32 && Pow2(33) == 0x2_0000_0000 && Pow2(34) == 0x4_0000_0000
  {
    assert Pow2(4) == 16 && Pow2(8) == 256;
    Pow2Splits(4, 4);
    Pow2Splits(8, 8);
    Pow2Splits(16, 16);
    assert Pow2(33) == 2 * Pow2(32);
  }

  lemma ShiftFits(n: nat)
    requires n < 34
    ensures Wrap64(BACKOFF_BASE * Pow2(n)) == BACKOFF_BASE * Pow2(n)
  {
    Pow2Values();
    Pow2Grows(n, 33);
  }

  lemma ShiftOverflows(n: nat)
    requires n >= 34
    ensures var d := Wrap64(BACKOFF_BASE * Pow2(n)); d <= 0 || d > BACKOFF_MAX
  {
    Pow2Values();
    Pow2Splits(34, n - 34);
    var k := 1953125 * Pow2(n - 34);
    assert BACKOFF_BASE * Pow2(n) == TWO_43 * k by {
      assert Pow2(n) == 0x4_0000_0000 * Pow2(n - 34);
      assert BACKOFF_BASE * 0x4_0000_0000 == TWO_43 * 1953125;
    }
    WrapKeepsMultiple(k);
  }

  /** The delay is min(2^n, 30) seconds for every attempt: once the shift overflows (n >= 34) the
      wrapped value is a multiple of 2^43, and no multiple of 2^43 lies in (0, 30s]. */
  lemma DelayIsCappedPower(n: nat)
    ensures NextBackoff(n) == Min(Pow2(n), 30) * SECOND
  {
    Pow2Values();
    if n < 5 {
      Pow2Grows(n, 4);
      ShiftFits(n);
    } else {
      Pow2Grows(5, n);
      if n < 34 { ShiftFits(n); } else { ShiftOverflows(n); }
    }
  }

  lemma NegativeAttemptIsBase(n: int)
    requires n < 0
    ensures NextBackoff(n) == SECOND
  {
    DelayIsCappedPower(0);
  }

  // ----- The attempt counter along a run -----

  /** How one try ended: the dial (or the server-side listen) failed, or a session ended after
      being up for the measured time. */
  datatype Ending = Failed | Dropped(up: int)

  predicate IsStable(e: Ending) { e.Dropped? && e.up >= STABLE_RESET }

  /** How many tries ended since the last stable session. */
  function SinceStable(es: seq<Ending>): nat {
    if es == [] || IsStable(es[|es| - 1]) then 0 else 1 + SinceStable(es[..|es| - 1])
  }

  function AttemptAfter(e: Ending, attempt: nat): nat {
    match e
    case Failed => attempt + 1
    case Dropped(up) => NextAttemptAfterDisconnect(up, attempt)
  }

  /** The wait that is due when the tries es have ended. */
  function DueWait(es: seq<Ending>): int { Min(Pow2(SinceStable(es)), 30) * SECOND }

  lemma AttemptCounts(es: seq<Ending>, e: Ending)
    ensures SinceStable(es + [e]) == AttemptAfter(e, SinceStable(es))
    ensures NextBackoff(SinceStable(es + [e])) == DueWait(es + [e])
  {
    assert (es + [e])[..|es|] == es;
    DelayIsCappedPower(SinceStable(es + [e]));
  }

  /** One wait per ended try, each as due. */
  ghost predicate AsDue(waits: seq<int>, es: seq<Ending>) {
    |waits| == |es| && forall i | 0 <= i < |es| :: waits[i] == DueWait(es[..i + 1])
  }

  lemma OneMoreWait(waits: seq<int>, es: seq<Ending>, e: Ending)
    requires AsDue(waits, es)
    ensures AsDue(waits + [NextBackoff(AttemptAfter(e, SinceStable(es)))], es + [e])
  {
    AttemptCounts(es, e);
    var longer := waits + [NextBackoff(AttemptAfter(e, SinceStable(es)))];
    forall i | 0 <= i < |longer| ensures longer[i] == DueWait((es + [e])[..i + 1]) {
      assert i < |es| ==> (es + [e])[..i + 1] == es[..i + 1];
      assert i == |es| ==> (es + [e])[..i + 1] == es + [e];
    }
  }

  /** The counter of the reconnect loop, alone. */
  method ReconnectWaits(es: seq<Ending>) returns (waits: seq<int>)
    ensures |waits| == |es| && forall i | 0 <= i < |es| :: waits[i] == DueWait(es[..i + 1])
  {
    waits := [];
    var attempt := 0;
    var i := 0;
    while i < |es|
      invariant 0 <= i <= |es|
      invariant attempt == SinceStable(es[..i])
      invariant AsDue(waits, es[..i])
    {
      assert es[..i + 1] == es[..i] + [es[i]];
      AttemptCounts(es[..i], es[i]);
      OneMoreWait(waits, es[..i], es[i]);
      if es[i].Failed? {
        attempt := attempt + 1;
      } else {
        attempt := NextAttemptAfterDisconnect(es[i].up, attempt);
      }
      waits := waits + [NextBackoff(attempt)];
      i := i + 1;
    }
    assert es[..i] == es;
  }

  /** The waits of an outage: the n-th failure in a row since a session of thirty seconds or more is followed by
      min(2^n, 30) seconds, so the first wait of a run is two seconds, not one. */
  lemma OutageWaits(es: seq<Ending>, n: nat)
    requires n <= |es| && forall i | |es| - n <= i < |es| :: es[i] == Failed || es[i].up < 30_000_000_000
    requires n == |es| || (var e := es[|es| - n - 1]; e.Dropped? && e.up >= 30_000_000_000)
    ensures DueWait(es) == Min(Pow2(n), 30) * 1_000_000_000
  {
    assert forall i | |es| - n <= i < |es| :: !IsStable(es[i]);
    SinceCounts(es, n);
  }

  lemma {:induction false} SinceCounts(es: seq<Ending>, n: nat)
    requires n <= |es| && forall i | |es| - n <= i < |es| :: !IsStable(es[i])
    requires n == |es| || IsStable(es[|es| - n - 1])
    ensures SinceStable(es) == n
  {
    if n > 0 { SinceCounts(es[..|es| - 1], n - 1); }
  }
}
