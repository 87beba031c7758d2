/** Values shared by every part of the model: how a call ends, tensor identity, decimal text. */
module Base {

  /** How a call ends when it does not return normally. */
  datatype Error =
    | Fatal(reason: string)   // CHECK, LOG(FATAL), a protobuf map `at` on a missing key, a null dereference: the process aborts
    | Thrown(reason: string)  // an exception: GetOrThrow on a failed Maybe, std `at` on a missing key

  datatype Option<T> = None | Some(value: T)

  /** A value or the way the computation of it ended abnormally; usable with `:-`. */
  datatype Result<T> = Ok(value: T) | Err(error: Error) {
    predicate IsFailure() { Err? }
    function PropagateFailure<U>(): Result<U> requires Err? { Err(error) }
    function Extract(): T requires Ok? { value }
  }

  /**
   * `GetOrThrow` or `GetPtrOrThrow` on a `Maybe`: a value passes through, and a failure becomes an
   * exception with the same reason, whatever kind of error the callee reported.
   */
  function OrThrow<T>(m: Result<T>): (r: Result<T>)
    ensures r.Ok? <==> m.Ok?
    ensures r.Ok? ==> r.value == m.value
    ensures r.Err? ==> r.error == Thrown(m.error.reason)
  {
    if m.Ok? then m else Err(Thrown(m.error.reason))
  }

  /** The end of a call that returns nothing (`void`, `Maybe<void>`). */
  datatype Outcome = Pass | Fail(error: Error)

  /**
   * The conversion of a 64-bit integer to a 32-bit `int`: the value modulo 2^32, read as a two's
   * complement number.
   */
  function Int32(x: int): (r: int)
    ensures -0x8000_0000 <= r < 0x8000_0000
    ensures (x - r) % 0x1_0000_0000 == 0
  {
    var m := x % 0x1_0000_0000;
    if m < 0x8000_0000 then m else m - 0x1_0000_0000
  }

  /** A value that fits in 32 bits is kept. */
  lemma Int32Fits(x: int)
    requires -0x8000_0000 <= x < 0x8000_0000
    ensures Int32(x) == x
  {
    if x < 0 {
      assert x % 0x1_0000_0000 == x + 0x1_0000_0000;
    }
  }

  /** Values that differ by a multiple of 2^32 convert alike, so an id of 2^32 or more aliases a smaller one. */
  lemma Int32Wraps(x: int, q: int)
    ensures Int32(x + q * 0x1_0000_0000) == Int32(x)
  {
    assert (x + q * 0x1_0000_0000) % 0x1_0000_0000 == x % 0x1_0000_0000;
  }

  /** A tensor's identity: its address, as the name registry keys it. */
  newtype TensorId = x: int | 0 <= x < 0x1_0000_0000_0000_0000

  predicate IsDigit(c: char) { '0' <= c <= '9' }

  function DigitChar(d: nat): (c: char)
    requires d < 10
    ensures IsDigit(c)
  {
    ('0' as int + d) as char
  }

  /** The number a decimal digit stands for. */
  function DigitValue(c: char): (d: nat)
    requires IsDigit(c)
    ensures d < 10
  {
    c as int - '0' as int
  }

  /** The number a string of decimal digits denotes, most significant digit first. */
  function DecimalValue(s: string): nat
    requires forall k :: 0 <= k < |s| ==> IsDigit(s[k])
  {
    if s == [] then 0 else DecimalValue(s[..|s| - 1]) * 10 + DigitValue(s[|s| - 1])
  }

  /** The decimal text of `n`, as `std::to_string` writes a non-negative integer. */
  function NatToString(n: nat): (s: string)
    ensures 0 < |s|
    ensures forall k :: 0 <= k < |s| ==> IsDigit(s[k])
    ensures |s| == 1 <==> n < 10
  {
    if n < 10 then [DigitChar(n)] else NatToString(n / 10) + [DigitChar(n % 10)]
  }

  /** The decimal text of `n` denotes `n`. */
  lemma {:induction false} NatToStringValue(n: nat)
    ensures DecimalValue(NatToString(n)) == n
  {
    var s := NatToString(n);
    if n >= 10 {
      NatToStringValue(n / 10);
      assert s[..|s| - 1] == NatToString(n / 10);
    }
  }

  /** Distinct numbers have distinct decimal texts. */
  lemma NatToStringInjective(i: nat, j: nat)
    requires i != j
    ensures NatToString(i) != NatToString(j)
  {
    NatToStringValue(i);
    NatToStringValue(j);
  }

  /** The binding name `prefix + std::to_string(i)`, as in "out_3" or "in_0". */
  function IndexedName(prefix: string, i: nat): (s: string)
    ensures |prefix| < |s| && s[..|prefix|] == prefix
    ensures forall k :: |prefix| <= k < |s| ==> IsDigit(s[k])
  {
    prefix + NatToString(i)
  }

  /** Distinct indices give distinct binding names. */
  lemma IndexedNameInjective(prefix: string, i: nat, j: nat)
    requires i != j
    ensures IndexedName(prefix, i) != IndexedName(prefix, j)
  {
    NatToStringInjective(i, j);
    assert IndexedName(prefix, i)[|prefix|..] == NatToString(i);
    assert IndexedName(prefix, j)[|prefix|..] == NatToString(j);
  }
}
