/** Small pieces of JavaScript semantics that several hooks and routes rely on:
    optional values, truthiness of strings and numbers, the `||` fallback,
    decimal rendering with `String(n)` and `padStart(2, '0')`, `startsWith`,
    `indexOf`/`split`, and the `error instanceof Error ? error.message : ...`
    idiom used in every catch block. */
module Common {

  datatype Option<+T> = None | Some(value: T)

  // ---------------------------------------------------------------------------
  // Truthiness and `||`

  /** A JavaScript string value that may be `undefined`/`null` is truthy
      exactly when it is present and not empty. */
  predicate Truthy(s: Option<string>)
  {
    s.Some? && s.value != ""
  }

  /** A JavaScript number that may be missing is truthy when present and
      non-zero. */
  predicate TruthyNumber(n: Option<int>)
  {
    n.Some? && n.value != 0
  }

  /** `a || b` on optional strings. */
  function Or(a: Option<string>, b: Option<string>): (r: Option<string>)
    ensures Truthy(a) ==> r == a
    ensures !Truthy(a) ==> r == b
    ensures Truthy(r) <==> Truthy(a) || Truthy(b)
  {
    if Truthy(a) then a else b
  }

  /** `a || d` where the default `d` is a string literal. */
  function OrDefault(a: Option<string>, d: string): (r: string)
    ensures Truthy(a) ==> r == a.value
    ensures !Truthy(a) ==> r == d
    ensures d != "" ==> r != ""
  {
    if Truthy(a) then a.value else d
  }

  // ---------------------------------------------------------------------------
  // Request bodies and errors caught by `catch (error)`

  /** `await request.json()`: the decoded body, or the message of the
      `SyntaxError` it throws. */
  datatype Parsed<T> = Parsed(value: T) | Malformed(message: string)

  /** What a `catch` block receives: an `Error` instance with a message, or
      any other thrown value. */
  datatype Thrown = ErrorInstance(message: string) | OtherValue

  /** `error instanceof Error ? error.message : fallback` */
  function MessageOr(e: Thrown, fallback: string): (m: string)
    ensures e.ErrorInstance? ==> m == e.message
    ensures e.OtherValue? ==> m == fallback
  {
    match e
    case ErrorInstance(msg) => msg
    case OtherValue => fallback
  }

  // ---------------------------------------------------------------------------
  // Decimal digits

  predicate IsDigit(c: char)
  {
    '0' <= c <= '9'
  }

  predicate AllDigits(s: string)
  {
    forall i :: 0 <= i < |s| ==> IsDigit(s[i])
  }

  function DigitChar(d: nat): (c: char)
    requires d < 10
    ensures IsDigit(c)
  {
    "0123456789"[d]
  }

  function DigitValue(c: char): (d: nat)
    requires IsDigit(c)
    ensures d < 10
  {
    (c as int - '0' as int) as nat
  }

  /** The number a string of decimal digits denotes (leading zeros allowed). */
  function DigitsValue(s: string): nat
    requires AllDigits(s)
  {
    if s == [] then 0 else DigitsValue(s[..|s| - 1]) * 10 + DigitValue(s[|s| - 1])
  }

  /** `String(n)` for a non-negative integer: no leading zeros, at least one
      digit. */
  function NatToString(n: nat): (s: string)
    ensures |s| >= 1 && AllDigits(s)
    ensures (|s| == 1) == (n < 10)
    ensures |s| > 1 ==> s[0] != '0'
    decreases n
  {
    if n < 10 then [DigitChar(n)] else NatToString(n / 10) + [DigitChar(n % 10)]
  }

  /** `String(i)` for any integer: a minus sign in front of negative values. */
  function IntToString(i: int): (s: string)
    ensures |s| >= 1
    ensures i >= 0 ==> s == NatToString(i)
    ensures i < 0 ==> s[0] == '-' && s[1..] == NatToString(-i)
  {
    if i < 0 then "-" + NatToString(-i) else NatToString(i)
  }

  /** `String(n).padStart(2, '0')` */
  function Pad2(n: nat): (s: string)
    ensures n < 100 ==> |s| == 2
    ensures AllDigits(s)
  {
    var t := NatToString(n);
    if |t| >= 2 then t else "0" + t
  }

  lemma DigitRoundTrip(d: nat)
    requires d < 10
    ensures DigitValue(DigitChar(d)) == d
  {
  }

  /** Reading back the digits `String(n)` writes gives `n`. */
  lemma {:induction false} NatToStringRoundTrip(n: nat)
    ensures DigitsValue(NatToString(n)) == n
    decreases n
  {
    var s := NatToString(n);
    if n < 10 {
      DigitRoundTrip(n);
    } else {
      NatToStringRoundTrip(n / 10);
      DigitRoundTrip(n % 10);
      assert s[..|s| - 1] == NatToString(n / 10);
    }
  }

  /** Reading back a two-digit padded number gives the number. */
  lemma Pad2RoundTrip(n: nat)
    requires n < 100
    ensures |Pad2(n)| == 2 && DigitsValue(Pad2(n)) == n
  {
    var t := NatToString(n);
    NatToStringRoundTrip(n);
    if |t| < 2 {
      var s := "0" + t;
      assert s[..1] == "0";
      assert DigitsValue(s[..1]) == 0 by {
        assert s[..1][..0] == [];
      }
    }
  }

  lemma NatToStringInjective(a: nat, b: nat)
    requires NatToString(a) == NatToString(b)
    ensures a == b
  {
    NatToStringRoundTrip(a);
    NatToStringRoundTrip(b);
  }

  /** Different years print differently. */
  lemma IntToStringInjective(a: int, b: int)
    requires IntToString(a) == IntToString(b)
    ensures a == b
  {
    if a >= 0 && b >= 0 {
      NatToStringInjective(a, b);
    } else if a < 0 && b < 0 {
      NatToStringInjective(-a, -b);
    } else {
      // One string starts with '-', the other with a digit.
      assert false;
    }
  }

  /** Only the character at index 0 of a printed integer can be a sign. */
  lemma IntToStringTailDigits(i: int, k: nat)
    requires 1 <= k < |IntToString(i)|
    ensures IsDigit(IntToString(i)[k])
  {
    if i < 0 {
      assert IntToString(i)[k] == NatToString(-i)[k - 1];
    }
  }

  // ---------------------------------------------------------------------------
  // Searching in strings

  /** `s.startsWith(p)` */
  predicate StartsWith(s: string, p: string)
  {
    |p| <= |s| && s[..|p|] == p
  }

  /** `p` occurs in `s` starting at index `i`. */
  predicate OccursAt(s: string, p: string, i: nat)
  {
    i + |p| <= |s| && s[i..i + |p|] == p
  }

  /** `s.indexOf(p, from)`: the first occurrence of `p` at or after `from`. */
  function IndexOfFrom(s: string, p: string, from: nat): (r: Option<nat>)
    requires from <= |s|
    ensures r.Some? ==> from <= r.value && OccursAt(s, p, r.value)
    ensures r.Some? ==> forall j :: from <= j < r.value ==> !OccursAt(s, p, j)
    ensures r.None? ==> forall j :: from <= j <= |s| ==> !OccursAt(s, p, j)
    decreases |s| - from
  {
    if OccursAt(s, p, from) then Some(from)
    else if from == |s| then None
    else IndexOfFrom(s, p, from + 1)
  }

  /** `s.split(sep)[0]`: the text before the first occurrence of `sep`, or
      the whole string when `sep` does not occur. */
  function SplitFirst(s: string, sep: string): (r: string)
    requires sep != ""
    ensures |r| <= |s| && StartsWith(s, r)
    ensures (forall j :: 0 <= j <= |s| ==> !OccursAt(s, sep, j)) ==> r == s
    ensures forall j :: 0 <= j < |r| ==> !OccursAt(s, sep, j)
    ensures r == s || OccursAt(s, sep, |r|)
  {
    match IndexOfFrom(s, sep, 0)
    case None => s
    case Some(i) => s[..i]
  }

  /** Splitting on one character: the first piece holds no such character
      and ends where the first one stands, or at the end of `s`. */
  lemma SplitFirstOnChar(s: string, c: char)
    ensures c !in SplitFirst(s, [c])
    ensures SplitFirst(s, [c]) == s || s[|SplitFirst(s, [c])|] == c
  {
    var r := SplitFirst(s, [c]);
    forall j | 0 <= j < |r| ensures r[j] != c {
      assert !OccursAt(s, [c], j);
      assert s[j..j + 1] == [s[j]];
      assert r[j] == s[j];
    }
    if r != s {
      assert OccursAt(s, [c], |r|);
      assert s[|r|..|r| + 1] == [s[|r|]];
    }
  }

  /** `s.split(sep)[1]` when the split has more than one part: the text after
      the first occurrence of `sep`, up to the next occurrence. `None` stands
      for `split(sep).length == 1`, that is, `sep` does not occur. */
  function SplitSecond(s: string, sep: string): (r: Option<string>)
    requires sep != ""
    ensures r.None? <==> forall j :: 0 <= j <= |s| ==> !OccursAt(s, sep, j)
    // The piece starts right after the first occurrence of `sep` ...
    ensures r.Some? ==>
      && IndexOfFrom(s, sep, 0).Some?
      && var start := IndexOfFrom(s, sep, 0).value + |sep|;
      && start + |r.value| <= |s|
      && r.value == s[start..start + |r.value|]
      // ... and ends at the next occurrence, or at the end of `s`.
      && (start + |r.value| == |s| || OccursAt(s, sep, start + |r.value|))
      && forall j :: start <= j < start + |r.value| ==> !OccursAt(s, sep, j)
  {
    match IndexOfFrom(s, sep, 0)
    case None => None
    case Some(i) =>
      var start := i + |sep|;
      match IndexOfFrom(s, sep, start)
      case None => Some(s[start..])
      case Some(j) => Some(s[start..j])
  }

  /** An occurrence inside a slice is an occurrence in the whole string. */
  lemma OccursInSlice(s: string, lo: nat, hi: nat, p: string, k: nat)
    requires lo <= hi <= |s|
    requires OccursAt(s[lo..hi], p, k)
    ensures OccursAt(s, p, lo + k)
  {
    forall t | 0 <= t < |p| ensures s[lo + k + t] == p[t] {
      assert s[lo..hi][k..k + |p|][t] == p[t];
    }
    assert s[lo + k..lo + k + |p|] == p;
  }

  /** The second piece of a split never contains the separator. */
  lemma SplitSecondHasNoSeparator(s: string, sep: string)
    requires sep != ""
    requires SplitSecond(s, sep).Some?
    ensures forall k: nat :: !OccursAt(SplitSecond(s, sep).value, sep, k)
  {
    var i := IndexOfFrom(s, sep, 0).value;
    var start := i + |sep|;
    var piece := SplitSecond(s, sep).value;
    forall k: nat | OccursAt(piece, sep, k) ensures false {
      match IndexOfFrom(s, sep, start)
      case None =>
        assert piece == s[start..|s|];
        OccursInSlice(s, start, |s|, sep, k);
      case Some(j) =>
        OccursInSlice(s, start, j, sep, k);
    }
  }
}
