/**
 * Shared vocabulary of the model: optional values (Java's nullable
 * references), results, the two exception kinds a Maven goal raises, and the
 * string helpers the goals use (splitting, joining, replacing, decimal text).
 */
module Common {

  /** A nullable value: `None` stands for Java's `null`. */
  datatype Option<+T> = None | Some(value: T)

  /**
   * The exceptions a goal raises or wraps: a `MojoFailureException` carries
   * only a message; a `MojoExecutionException` may wrap the exception that
   * caused it; a `CommandLineException` says a process could not be started;
   * any other exception from a library a goal calls (reading or writing a
   * file, parsing XML, driving a browser) is an `ExternalError`.
   */
  datatype MojoError =
    | Failure(message: string)
    | ExecutionError(message: string, cause: Option<MojoError>)
    | CommandLineError
    | ExternalError

  /** A computation that either produces a value or raises a `MojoError`. */
  datatype Result<+T> = Ok(value: T) | Err(error: MojoError) {
    predicate IsFailure() {
      Err?
    }

    function PropagateFailure<U>(): Result<U>
      requires Err?
    {
      Err(error)
    }

    function Extract(): T
      requires Ok?
    {
      value
    }
  }

  /** The value of `o`, or `d` when `o` is null. */
  function GetOr<T>(o: Option<T>, d: T): (r: T) {
    match o
    case Some(v) => v
    case None => d
  }

  /** A null array is iterated like an empty one (the source guards every loop with `!= null`). */
  function Items<T>(xs: Option<seq<T>>): seq<T> {
    GetOr(xs, [])
  }

  /** `s` ends with `suffix`. */
  predicate EndsWith(s: string, suffix: string) {
    |suffix| <= |s| && s[|s| - |suffix|..] == suffix
  }

  /** Concatenation of a sequence of strings. */
  function Concat(parts: seq<string>): string {
    if |parts| == 0 then "" else parts[0] + Concat(parts[1..])
  }

  lemma {:induction false} ConcatAppend(a: seq<string>, b: seq<string>)
    ensures Concat(a + b) == Concat(a) + Concat(b)
  {
    if |a| == 0 {
      assert a + b == b;
    } else {
      assert (a + b)[1..] == a[1..] + b;
      ConcatAppend(a[1..], b);
    }
  }

  // ---------------------------------------------------------------------
  // Splitting and joining on a one-character separator
  // ---------------------------------------------------------------------

  /** `parts` joined with the separator `sep` between consecutive parts. */
  function Join(parts: seq<string>, sep: char): (r: string) {
    if |parts| == 0 then ""
    else if |parts| == 1 then parts[0]
    else parts[0] + [sep] + Join(parts[1..], sep)
  }

  /**
   * `s` cut at every `sep`: the pieces between separators, in order, with
   * empty pieces kept. There is always at least one piece.
   */
  function Split(s: string, sep: char): (r: seq<string>)
    ensures |r| >= 1
    ensures forall i :: 0 <= i < |r| ==> sep !in r[i]
  {
    if |s| == 0 then [""]
    else if s[0] == sep then [""] + Split(s[1..], sep)
    else
      var rest := Split(s[1..], sep);
      [[s[0]] + rest[0]] + rest[1..]
  }

  /** Splitting then joining on the same separator gives back the input. */
  lemma {:induction false} JoinSplit(s: string, sep: char)
    ensures Join(Split(s, sep), sep) == s
  {
    if |s| == 0 {
    } else if s[0] == sep {
      var rest := Split(s[1..], sep);
      JoinSplit(s[1..], sep);
      assert Split(s, sep) == [""] + rest;
      assert ([""] + rest)[1..] == rest;
    } else {
      var rest := Split(s[1..], sep);
      JoinSplit(s[1..], sep);
      var r := Split(s, sep);
      assert r == [[s[0]] + rest[0]] + rest[1..];
      if |rest| == 1 {
        assert Join(rest, sep) == rest[0];
      } else {
        assert r[1..] == rest[1..];
        assert Join(rest, sep) == rest[0] + [sep] + Join(rest[1..], sep);
      }
    }
  }

  /** A piece free of the separator, followed by the separator, splits off as one piece. */
  lemma {:induction false} SplitPrefix(a: string, sep: char, rest: string)
    requires sep !in a
    ensures Split(a + [sep] + rest, sep) == [a] + Split(rest, sep)
  {
    if |a| == 0 {
      assert a + [sep] + rest == [sep] + rest;
      assert ([sep] + rest)[1..] == rest;
    } else {
      var s := a + [sep] + rest;
      assert s[0] == a[0];
      assert s[1..] == a[1..] + [sep] + rest;
      SplitPrefix(a[1..], sep, rest);
      assert [a[0]] + a[1..] == a;
    }
  }

  /** A string without the separator is a single piece. */
  lemma {:induction false} SplitNoSep(a: string, sep: char)
    requires sep !in a
    ensures Split(a, sep) == [a]
  {
    if |a| > 0 {
      SplitNoSep(a[1..], sep);
      assert [a[0]] + a[1..] == a;
    }
  }

  /** Joining separator-free pieces and splitting again gives back the pieces. */
  lemma {:induction false} SplitJoin(parts: seq<string>, sep: char)
    requires |parts| >= 1
    requires forall i :: 0 <= i < |parts| ==> sep !in parts[i]
    ensures Split(Join(parts, sep), sep) == parts
  {
    if |parts| == 1 {
      SplitNoSep(parts[0], sep);
    } else {
      SplitJoin(parts[1..], sep);
      SplitPrefix(parts[0], sep, Join(parts[1..], sep));
      assert [parts[0]] + parts[1..] == parts;
    }
  }

  // ---------------------------------------------------------------------
  // Java's String.replace(CharSequence, CharSequence)
  // ---------------------------------------------------------------------

  /**
   * Every occurrence of `target` in `s` replaced by `repl`, scanning left to
   * right and never overlapping, as `String.replace` does.
   */
  function ReplaceAll(s: string, target: string, repl: string): (r: string)
    requires |target| > 0
  {
    if |s| == 0 then ""
    else if target <= s then repl + ReplaceAll(s[|target|..], target, repl)
    else [s[0]] + ReplaceAll(s[1..], target, repl)
  }

  // ---------------------------------------------------------------------
  // Decimal text of integers (Integer.toString) and its inverse
  // ---------------------------------------------------------------------

  predicate IsDigit(c: char) {
    '0' <= c <= '9'
  }

  predicate AllDigits(s: string) {
    forall i :: 0 <= i < |s| ==> IsDigit(s[i])
  }

  function DigitChar(d: nat): char
    requires d < 10
  {
    "0123456789"[d]
  }

  /** Decimal text of `n` without leading zeros. */
  function NatToString(n: nat): (r: string)
    ensures |r| >= 1 && AllDigits(r)
  {
    if n < 10 then [DigitChar(n)] else NatToString(n / 10) + [DigitChar(n % 10)]
  }

  /** `Integer.toString`: a minus sign for negative values, then the digits. */
  function IntToString(n: int): (r: string) {
    if n < 0 then "-" + NatToString(-n) else NatToString(n)
  }

  /** `Boolean.toString`. */
  function BoolToString(b: bool): string {
    if b then "true" else "false"
  }

  /** The value of a run of decimal digits. */
  function ParseNat(s: string): nat
    requires AllDigits(s)
  {
    if |s| == 0 then 0
    else ParseNat(s[..|s| - 1]) * 10 + ((s[|s| - 1] as int) - ('0' as int))
  }

  /** The integer written in `s`, if `s` is an optional minus sign followed by at least one digit. */
  function ParseInt(s: string): Option<int> {
    if |s| >= 2 && s[0] == '-' && AllDigits(s[1..]) then Some(0 - ParseNat(s[1..]) as int)
    else if |s| >= 1 && AllDigits(s) then Some(ParseNat(s))
    else None
  }

  lemma {:induction false} ParseNatToString(n: nat)
    ensures ParseNat(NatToString(n)) == n
  {
    var s := NatToString(n);
    if n >= 10 {
      ParseNatToString(n / 10);
      assert s[..|s| - 1] == NatToString(n / 10);
    }
  }

  lemma NegativeRoundTrip(n: int)
    requires n < 0
    ensures ParseInt(IntToString(n)) == Some(n)
  {
    var m: nat := -n;
    var t := NatToString(m);
    var s := IntToString(n);
    assert s == "-" + t;
    assert s[1..] == t && s[0] == '-' && |s| >= 2;
    ParseNatToString(m);
    assert ParseNat(t) == m;
  }

  lemma NonNegativeRoundTrip(n: int)
    requires n >= 0
    ensures ParseInt(IntToString(n)) == Some(n)
  {
    var s := IntToString(n);
    assert s == NatToString(n);
    assert IsDigit(s[0]);
    ParseNatToString(n);
  }

  /** The decimal text of an integer reads back as that integer. */
  lemma IntToStringRoundTrip(n: int)
    ensures ParseInt(IntToString(n)) == Some(n)
  {
    if n < 0 {
      NegativeRoundTrip(n);
    } else {
      NonNegativeRoundTrip(n);
    }
  }

  /** Distinct integers have distinct decimal texts. */
  lemma IntToStringInjective(m: int, n: int)
    requires IntToString(m) == IntToString(n)
    ensures m == n
  {
    IntToStringRoundTrip(m);
    IntToStringRoundTrip(n);
  }
}
