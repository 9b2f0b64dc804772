/**
 * demo.cpp: two composed asynchronous operations. `async_double` waits on
 * a one-second timer and completes with twice its input, or with the
 * timer's error and 0. `async_times_eight` runs `async_double` on its
 * running value until its round counter, which starts at 3, reaches 0.
 *
 * Values are `std::size_t`, so doubling wraps around modulo 2^64. Each
 * timer wait is given by the error code it completes with; a sequence of
 * waits that runs out leaves the operation suspended.
 */
module Demo {
  import opened AsioErrors

  const SizeModulus: int := 0x1_0000_0000_0000_0000

  /** `std::size_t` on a 64-bit target. */
  type SizeT = x: int | 0 <= x < SizeModulus

  /** The `(error_code, size_t)` a composed operation completes with. */
  datatype Completion = Completion(ec: ErrorCode, value: SizeT)

  /** `async_double(input)` whose timer wait completed with `wait`. */
  function AsyncDouble(input: SizeT, wait: ErrorCode): Completion
  {
    if wait != NoError then Completion(wait, 0) else Completion(NoError, (input * 2) % SizeModulus)
  }

  function Pow2(k: nat): nat
  {
    if k == 0 then 1 else 2 * Pow2(k - 1)
  }

  /** The reference behaviour of `async_times_eight` with `rounds` doublings
      still to do: the completion, or `None` while a wait is outstanding. */
  function TimesEight(value: SizeT, waits: seq<ErrorCode>, rounds: nat): Option<Completion>
    decreases rounds
  {
    if rounds == 0 then Some(Completion(NoError, value))
    else if waits == [] then None
    else
      var y := AsyncDouble(value, waits[0]);
      if y.ec != NoError then Some(Completion(y.ec, 0))
      else TimesEight(y.value, waits[1..], rounds - 1)
  }

  lemma LemmaModMultipleAdd(q: nat, r: nat)
    ensures (q * SizeModulus + r) % SizeModulus == r % SizeModulus
    decreases q
  {
    if q > 0 {
      LemmaModMultipleAdd(q - 1, r);
      assert q * SizeModulus + r == (q - 1) * SizeModulus + r + SizeModulus;
    }
  }

  /** Reducing a factor modulo 2^64 before multiplying does not change the
      product modulo 2^64. */
  lemma ModMul(a: nat, b: nat)
    ensures ((a % SizeModulus) * b) % SizeModulus == (a * b) % SizeModulus
  {
    var q, r := a / SizeModulus, a % SizeModulus;
    assert a * b == (q * SizeModulus + r) * b;
    assert a * b == (q * b) * SizeModulus + r * b;
    LemmaModMultipleAdd(q * b, r * b);
  }

  /** Doubling modulo 2^64 and then scaling by 2^k is scaling by 2^(k+1). */
  lemma DoubleThenScale(input: nat, k: nat)
    ensures (((input * 2) % SizeModulus) * Pow2(k)) % SizeModulus == (input * Pow2(k + 1)) % SizeModulus
  {
    ModMul(input * 2, Pow2(k));
    assert (input * 2) * Pow2(k) == input * Pow2(k + 1);
  }

  /**
   * After `k` successful rounds, the running value is the input times 2^k,
   * modulo 2^64, and what is left to do is the remaining rounds on the
   * remaining waits.
   */
  lemma {:induction false} RoundsDouble(input: SizeT, waits: seq<ErrorCode>, rounds: nat, k: nat)
    requires k <= rounds && k <= |waits|
    requires forall j :: 0 <= j < k ==> waits[j] == NoError
    ensures TimesEight(input, waits, rounds) ==
              TimesEight((input * Pow2(k)) % SizeModulus, waits[k..], rounds - k)
    decreases k
  {
    if k > 0 {
      var y := (input * 2) % SizeModulus;
      RoundsDouble(y, waits[1..], rounds - 1, k - 1);
      assert waits[1..][k - 1..] == waits[k..];
      DoubleThenScale(input, k - 1);
    }
  }

  /** With three successful waits, `async_times_eight` completes with eight
      times its input, modulo 2^64. */
  lemma TimesEightSucceeds(input: SizeT, waits: seq<ErrorCode>)
    requires |waits| >= 3 && waits[0] == NoError && waits[1] == NoError && waits[2] == NoError
    ensures TimesEight(input, waits, 3) == Some(Completion(NoError, (input * 8) % SizeModulus))
  {
    RoundsDouble(input, waits, 3, 3);
  }

  /** A failed wait in any round completes the operation at once with that
      error and 0; the later waits play no part. */
  lemma TimesEightFailsFast(input: SizeT, waits: seq<ErrorCode>, k: nat)
    requires k < 3 && k < |waits| && waits[k] != NoError
    requires forall j :: 0 <= j < k ==> waits[j] == NoError
    ensures TimesEight(input, waits, 3) == Some(Completion(waits[k], 0))
  {
    RoundsDouble(input, waits, 3, k);
  }

  /** The two runs of demo.cpp's `main`: 2 and 3 times eight. */
  lemma DemoRuns()
    ensures TimesEight(2, [NoError, NoError, NoError], 3) == Some(Completion(NoError, 16))
    ensures TimesEight(3, [NoError, NoError, NoError], 3) == Some(Completion(NoError, 24))
  {
    TimesEightSucceeds(2, [NoError, NoError, NoError]);
    TimesEightSucceeds(3, [NoError, NoError, NoError]);
  }

  /**
   * `async_times_eight`: the round counter starts at 3; each round doubles
   * the running value through `async_double`, and the operation completes
   * with the first error (and 0), or with the value once the counter
   * reaches 0. `doublings` counts the rounds that succeeded.
   */
  method AsyncTimesEight(input: SizeT, waits: seq<ErrorCode>) returns (c: Option<Completion>, doublings: nat)
    ensures c == TimesEight(input, waits, 3)
    ensures doublings <= 3 && doublings <= |waits|
    ensures forall j :: 0 <= j < doublings ==> waits[j] == NoError
    ensures c.Some? && c.value.ec == NoError <==> doublings == 3
  {
    var value := input;
    var i := 3;
    var next := 0;
    doublings := 0;
    while true
      invariant 0 < i <= 3 && doublings == next == 3 - i && next <= |waits|
      invariant forall j :: 0 <= j < next ==> waits[j] == NoError
      invariant TimesEight(input, waits, 3) == TimesEight(value, waits[next..], i)
      decreases i
    {
      if next == |waits| {
        c := None;
        return;
      }
      assert waits[next..][1..] == waits[next + 1..];
      var y := AsyncDouble(value, waits[next]);
      if y.ec != NoError {
        c := Some(Completion(y.ec, 0));
        return;
      }
      next := next + 1;
      value := y.value;
      doublings := doublings + 1;
      i := i - 1;
      if i == 0 {
        c := Some(Completion(NoError, value));
        return;
      }
    }
  }
}
