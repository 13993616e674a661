/**
 * The Python values a payment-order dictionary carries, the two exceptions the
 * record builders can raise while reading it, and the two pieces of Python
 * built-in behaviour the sequencer relies on: string slicing and `str` of a
 * non-negative integer.
 */
module Values {
  import opened Keys

  /** A Python dictionary: the values stored under the keys the sequencer reads. */
  type Dict = map<Key, Value>


  /** A value stored in the payment-order or receipt dictionary, or in a record field. */
  datatype Value =
    | Str(s: string)
    | Int(i: int)
    | Decimal(digits: int, exponent: int)   // digits * 10^exponent
    | Date(year: int, month: int, day: int)
    | Nothing                                // Python None

  /** The exceptions a builder raises while reading its inputs. */
  datatype Error =
    | KeyError(key: Key)    // the dictionary has no such key
    | TypeError(key: Key)   // the value under `key` cannot be sliced

  /** A failure-compatible result, so that `:-` propagates the first exception. */
  datatype Result<+T> = Success(value: T) | Failure(error: Error) {
    predicate IsFailure() {
      Failure?
    }

    function PropagateFailure<U>(): Result<U>
      requires Failure?
    {
      Failure(error)
    }

    function Extract(): T
      requires Success?
    {
      value
    }
  }

  /** Python `m[key]`. */
  function Lookup(m: Dict, key: Key): (r: Result<Value>)
    ensures r.Success? <==> key in m
    ensures r.Success? ==> r.value == m[key]
    ensures r.Failure? ==> r.error == KeyError(key)
  {
    if key in m then Success(m[key]) else Failure(KeyError(key))
  }

  /** Python `m[key]` where the caller goes on to slice the value: only a string slices. */
  function LookupText(m: Dict, key: Key): (r: Result<string>)
    ensures r.Success? <==> key in m && m[key].Str?
    ensures r.Success? ==> m[key] == Str(r.value)
    ensures r.Failure? ==> r.error == (if key in m then TypeError(key) else KeyError(key))
  {
    if key !in m then Failure(KeyError(key))
    else if m[key].Str? then Success(m[key].s)
    else Failure(TypeError(key))
  }

  /** The dictionary a record builder reads from: the payment-order values or the receipt. */
  datatype Source = Order | Receipt

  /** One read of a builder: `m[key]`, or `m[key][lo:hi]` when the value is `sliced`. */
  datatype Read = Read(source: Source, key: Key, sliced: bool)

  /** The exception one read raises, or `Success` when it succeeds. */
  function ReadOutcome(values: Dict, receipt: Dict, read: Read): Result<()> {
    var m := if read.source == Order then values else receipt;
    if read.key !in m then Failure(KeyError(read.key))
    else if read.sliced && !m[read.key].Str? then Failure(TypeError(read.key))
    else Success(())
  }

  /** The exception the first failing read of `readList` from position `i` on raises, or `Success`. */
  function FailureFrom(values: Dict, receipt: Dict, readList: seq<Read>, i: nat): Result<()>
    decreases |readList| - i
  {
    if i >= |readList| then Success(())
    else if ReadOutcome(values, receipt, readList[i]).Failure? then ReadOutcome(values, receipt, readList[i])
    else FailureFrom(values, receipt, readList, i + 1)
  }

  /**
   * The exception that making the reads of `readList` in turn raises: that of
   * the first read that fails. `Success` when every read succeeds.
   */
  function FirstFailure(values: Dict, receipt: Dict, readList: seq<Read>): Result<()> {
    FailureFrom(values, receipt, readList, 0)
  }

  /** Position `i` of `readList` is where `FailureFrom` stops, or it goes on to `i + 1`. */
  predicate Step(values: Dict, receipt: Dict, readList: seq<Read>, i: nat)
    requires i < |readList|
  {
    FailureFrom(values, receipt, readList, i) ==
      if ReadOutcome(values, receipt, readList[i]).Failure? then ReadOutcome(values, receipt, readList[i])
      else FailureFrom(values, receipt, readList, i + 1)
  }

  /** Every step of `FailureFrom` over `readList`, unfolded at once. */
  lemma FailureSteps(values: Dict, receipt: Dict, readList: seq<Read>)
    ensures forall i: nat | i < |readList| :: Step(values, receipt, readList, i)
  {
  }

  /** The exception of `r`, or `Success` when it succeeded, forgetting its value. */
  function Outcome<T>(r: Result<T>): Result<()> {
    if r.Success? then Success(()) else Failure(r.error)
  }

  /** Reads made one list after another fail first where the first list does, else where the second does. */
  lemma FirstFailureAppend(values: Dict, receipt: Dict, first: seq<Read>, second: seq<Read>)
    ensures FirstFailure(values, receipt, first + second) ==
      if FirstFailure(values, receipt, first).Failure? then FirstFailure(values, receipt, first)
      else FirstFailure(values, receipt, second)
  {
    FailureFromAppend(values, receipt, first, second, 0);
  }

  lemma {:induction false} FailureFromAppend(values: Dict, receipt: Dict, first: seq<Read>, second: seq<Read>, i: nat)
    requires i <= |first|
    ensures FailureFrom(values, receipt, first + second, i) ==
      if FailureFrom(values, receipt, first, i).Failure? then FailureFrom(values, receipt, first, i)
      else FailureFrom(values, receipt, second, 0)
    decreases |first| - i
  {
    if i == |first| {
      FailureShift(values, receipt, first, second, 0);
    } else {
      assert (first + second)[i] == first[i];
      FailureFromAppend(values, receipt, first, second, i + 1);
    }
  }

  /** Reading `first + second` from position |first| + j on is reading `second` from j on. */
  lemma {:induction false} FailureShift(values: Dict, receipt: Dict, first: seq<Read>, second: seq<Read>, j: nat)
    requires j <= |second|
    ensures FailureFrom(values, receipt, first + second, |first| + j) == FailureFrom(values, receipt, second, j)
    decreases |second| - j
  {
    if j < |second| {
      assert (first + second)[|first| + j] == second[j];
      FailureShift(values, receipt, first, second, j + 1);
    }
  }

  /** `key` is present in `m` and holds a string. */
  predicate IsText(m: Dict, key: Key) {
    key in m && m[key].Str?
  }

  /**
   * `e` is an exception that reading `keys` and slicing `texts` from `m` can
   * raise: a key that is absent, or a sliced value that is not a string.
   */
  predicate Explains(m: Dict, keys: set<Key>, texts: set<Key>, e: Error) {
    match e
    case KeyError(k) => (k in keys || k in texts) && k !in m
    case TypeError(k) => k in texts && k in m && !m[k].Str?
  }

  function Min(a: int, b: int): int {
    if a <= b then a else b
  }

  /** Python `s[lo:hi]` for 0 <= lo <= hi: both bounds are clamped to the length. */
  function Slice(s: string, lo: nat, hi: nat): (r: string)
    requires lo <= hi
    ensures |r| == Min(hi, |s|) - Min(lo, |s|)
    ensures forall i | 0 <= i < |r| :: r[i] == s[lo + i]
  {
    s[Min(lo, |s|)..Min(hi, |s|)]
  }

  /**
   * The four slices [0:4], [4:8], [8:10] and [10:20] of a bank account string
   * (bank code, office, check digits, account number) put back together give
   * its first twenty characters, and so the whole of a 20-character account.
   */
  lemma AccountSlicesJoin(s: string)
    ensures Slice(s, 0, 4) + Slice(s, 4, 8) + Slice(s, 8, 10) + Slice(s, 10, 20) == s[..Min(20, |s|)]
    ensures |s| == 20 ==> Slice(s, 0, 4) + Slice(s, 4, 8) + Slice(s, 8, 10) + Slice(s, 10, 20) == s
  {
    var a, b, c, d := Min(4, |s|), Min(8, |s|), Min(10, |s|), Min(20, |s|);
    assert s[..d] == s[..a] + s[a..b] + s[b..c] + s[c..d];
  }

  function DigitChar(d: nat): (c: char)
    requires d < 10
    ensures '0' <= c <= '9'
  {
    "0123456789"[d]
  }

  function DigitValue(c: char): nat
    requires '0' <= c <= '9'
  {
    (c as int) - ('0' as int)
  }

  predicate AllDigits(s: string) {
    forall i | 0 <= i < |s| :: '0' <= s[i] <= '9'
  }

  /**
   * Python `str(n)` for a non-negative integer: its decimal digits, most
   * significant first, with no sign and no leading zero.
   */
  function DecimalString(n: nat): (r: string)
    ensures |r| >= 1 && AllDigits(r)
    ensures r[0] == '0' <==> n == 0
    ensures n == 0 ==> r == "0"
  {
    if n < 10 then [DigitChar(n)] else DecimalString(n / 10) + [DigitChar(n % 10)]
  }

  /** The number a string of decimal digits denotes. */
  function DecimalValue(s: string): nat
    requires AllDigits(s)
  {
    if s == [] then 0 else DecimalValue(s[..|s| - 1]) * 10 + DigitValue(s[|s| - 1])
  }

  /** Reading back what `str(n)` wrote gives `n`. */
  lemma {:induction false} DecimalRoundTrip(n: nat)
    ensures DecimalValue(DecimalString(n)) == n
  {
    var r := DecimalString(n);
    if n < 10 {
      assert r[..0] == [];
    } else {
      DecimalRoundTrip(n / 10);
      assert r[..|r| - 1] == DecimalString(n / 10);
    }
  }

  /** `str` writes different numbers differently. */
  lemma DecimalStringInjective(m: nat, n: nat)
    requires DecimalString(m) == DecimalString(n)
    ensures m == n
  {
    DecimalRoundTrip(m);
    DecimalRoundTrip(n);
  }
}
