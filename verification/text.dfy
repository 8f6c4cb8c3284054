/** Strings and decimal numbers as C++ streams and Python's str.split/int see them. */
module Text {

  datatype Option<+T> = None | Some(value: T)

  // ---------------------------------------------------------------------------
  // Decimal rendering (what `std::ostream << n` writes for an integer)

  predicate IsDigit(c: char) { '0' <= c <= '9' }

  function Digit(d: nat): (c: char)
    requires d < 10
    ensures IsDigit(c) && DigitValue(c) == d
  {
    (d + '0' as int) as char
  }

  function DigitValue(c: char): nat
    requires IsDigit(c)
  {
    c as int - '0' as int
  }

  predicate AllDigits(s: string) { forall i | 0 <= i < |s| :: IsDigit(s[i]) }

  /** The decimal rendering of n, most significant digit first, without leading zeros. */
  function NatToString(n: nat): (s: string)
    ensures |s| >= 1 && AllDigits(s)
    ensures n < 10 <==> |s| == 1
    decreases n
  {
    if n < 10 then [Digit(n)] else NatToString(n / 10) + [Digit(n % 10)]
  }

  /** The decimal rendering of a signed integer: a '-' in front of negative values. */
  function IntToString(i: int): (s: string)
    ensures |s| >= 1 && ' ' !in s
    ensures i >= 0 ==> AllDigits(s)
    ensures i < 0 ==> s[0] == '-' && AllDigits(s[1..])
  {
    var r := if i < 0 then "-" + NatToString(-i) else NatToString(i);
    assert i < 0 ==> r[1..] == NatToString(-i);
    assert forall k | 0 <= k < |r| :: r[k] == '-' || IsDigit(r[k]);
    r
  }

  /** Value of a non-empty run of decimal digits. */
  function ParseDigits(s: string): nat
    requires AllDigits(s)
    decreases |s|
  {
    if s == [] then 0 else ParseDigits(s[..|s| - 1]) * 10 + DigitValue(s[|s| - 1])
  }

  lemma {:induction false} ParseNatToString(n: nat)
    ensures ParseDigits(NatToString(n)) == n
    decreases n
  {
    var s := NatToString(n);
    if n >= 10 {
      assert s[..|s| - 1] == NatToString(n / 10);
      ParseNatToString(n / 10);
    }
  }

  /**
   * Python's int() on a token: an optional sign followed by one or more ASCII digits.
   * Anything else is a ValueError, given here as None.
   */
  function ParseInt(s: string): (r: Option<int>)
    ensures r.Some? ==> |s| >= 1
  {
    if |s| >= 2 && (s[0] == '-' || s[0] == '+') && AllDigits(s[1..]) then
      var m: int := ParseDigits(s[1..]);
      Some(if s[0] == '-' then -m else m)
    else if |s| >= 1 && AllDigits(s) then Some(ParseDigits(s))
    else None
  }

  /** Every integer's decimal rendering reads back as that integer. */
  lemma IntToStringRoundTrip(i: int)
    ensures ParseInt(IntToString(i)) == Some(i)
  {
    var s := IntToString(i);
    if i < 0 {
      var t := NatToString(-i);
      assert s == "-" + t;
      assert s[1..] == t;
      ParseNatToString(-i);
      assert ParseDigits(s[1..]) == -i;
      assert |s| >= 2 && s[0] == '-' && AllDigits(s[1..]);
    } else {
      assert s == NatToString(i);
      ParseNatToString(i);
      assert !(s[0] == '-' || s[0] == '+');
    }
  }

  // ---------------------------------------------------------------------------
  // Joining and counting

  /** parts separated by sep, with no separator before the first or after the last part. */
  function Join(parts: seq<string>, sep: string): string
    decreases |parts|
  {
    if |parts| == 0 then "" else if |parts| == 1 then parts[0] else parts[0] + sep + Join(parts[1..], sep)
  }

  /** Each part followed by sep, as std::copy into a std::ostream_iterator(os, sep) writes them. */
  function Terminated(parts: seq<string>, sep: string): string
    decreases |parts|
  {
    if |parts| == 0 then "" else parts[0] + sep + Terminated(parts[1..], sep)
  }

  /** Writing every part followed by sep and then one last part is the same as joining all of them. */
  lemma {:induction false} TerminatedThenJoin(parts: seq<string>, rest: seq<string>, sep: string)
    requires |rest| >= 1
    ensures Terminated(parts, sep) + Join(rest, sep) == Join(parts + rest, sep)
    decreases |parts|
  {
    if |parts| > 0 {
      assert (parts + rest)[1..] == parts[1..] + rest;
      TerminatedThenJoin(parts[1..], rest, sep);
    } else {
      assert parts + rest == rest;
    }
  }

  function Count(s: string, c: char): nat
    decreases |s|
  {
    if s == [] then 0 else (if s[0] == c then 1 else 0) + Count(s[1..], c)
  }

  lemma {:induction false} CountAppend(a: string, b: string, c: char)
    ensures Count(a + b, c) == Count(a, c) + Count(b, c)
    decreases |a|
  {
    if a == [] {
      assert a + b == b;
    } else {
      assert (a + b)[1..] == a[1..] + b;
      CountAppend(a[1..], b, c);
    }
  }

  lemma {:induction false} CountAbsent(s: string, c: char)
    requires c !in s
    ensures Count(s, c) == 0
    decreases |s|
  {
    if s != [] {
      assert forall x | x in s[1..] :: x in s;
      CountAbsent(s[1..], c);
    }
  }

  /** Joining n parts free of c with the one-character separator [c] puts exactly n - 1 c's in the text. */
  lemma {:induction false} CountJoin(parts: seq<string>, c: char)
    requires |parts| >= 1
    requires forall i | 0 <= i < |parts| :: c !in parts[i]
    ensures Count(Join(parts, [c]), c) == |parts| - 1
    decreases |parts|
  {
    CountAbsent(parts[0], c);
    if |parts| > 1 {
      CountJoin(parts[1..], c);
      CountAppend(parts[0], [c], c);
      CountAppend(parts[0] + [c], Join(parts[1..], [c]), c);
    }
  }

  lemma {:induction false} JoinLast(parts: seq<string>, sep: string)
    requires |parts| >= 1
    ensures |Join(parts, sep)| >= |parts[|parts| - 1]|
    ensures Join(parts, sep)[|Join(parts, sep)| - |parts[|parts| - 1]|..] == parts[|parts| - 1]
    decreases |parts|
  {
    if |parts| > 1 {
      JoinLast(parts[1..], sep);
      assert parts[1..][|parts| - 2] == parts[|parts| - 1];
    }
  }

  // ---------------------------------------------------------------------------
  // Writing to a string stream

  /** The text a std::ostringstream holds after the pieces were written to it in order. */
  function Concat(ps: seq<string>): string
    decreases |ps|
  {
    if ps == [] then "" else if |ps| == 1 then ps[0] else Concat(ps[..|ps| - 1]) + ps[|ps| - 1]
  }

  lemma ConcatSnoc(ps: seq<string>, x: string)
    ensures Concat(ps + [x]) == Concat(ps) + x
  {
    assert (ps + [x])[..|ps|] == ps;
  }

  lemma AppendAssoc<T>(a: seq<T>, b: seq<T>, c: seq<T>)
    ensures (a + b) + c == a + (b + c)
  {
  }

  /** A stream's text starts with the first piece written to it. */
  lemma {:induction false} ConcatFirst(ps: seq<string>)
    requires |ps| >= 1
    ensures ps[0] <= Concat(ps)
    decreases |ps|
  {
    if |ps| > 1 {
      ConcatFirst(ps[..|ps| - 1]);
    }
  }

  /** A stream's text ends with the last two pieces written to it. */
  lemma ConcatLastTwo(ps: seq<string>)
    requires |ps| >= 2
    ensures |Concat(ps)| >= |ps[|ps| - 2] + ps[|ps| - 1]|
    ensures Concat(ps)[|Concat(ps)| - |ps[|ps| - 2] + ps[|ps| - 1]|..] == ps[|ps| - 2] + ps[|ps| - 1]
  {
    var n := |ps|;
    var front := Concat(ps[..n - 2]);
    assert ps[..n - 1][..n - 2] == ps[..n - 2];
    assert Concat(ps) == front + ps[n - 2] + ps[n - 1];
  }

  // ---------------------------------------------------------------------------
  // Python's str.split() with no argument

  /** The ASCII characters Python's str.split() treats as whitespace. */
  predicate IsSpace(c: char) { c == ' ' || c == '\t' || c == '\n' || c == '\r' || c == 11 as char || c == 12 as char }

  predicate NoSpace(s: string) { forall i | 0 <= i < |s| :: !IsSpace(s[i]) }

  /** The longest prefix of s holding no whitespace. */
  function Word(s: string): (w: string)
    ensures w <= s && NoSpace(w)
    ensures |w| < |s| ==> IsSpace(s[|w|])
    decreases |s|
  {
    if s == [] || IsSpace(s[0]) then "" else [s[0]] + Word(s[1..])
  }

  /** The whitespace-separated tokens of s, in order; runs of whitespace separate, none is kept. */
  function Split(s: string): (tokens: seq<string>)
    ensures forall i | 0 <= i < |tokens| :: |tokens[i]| >= 1 && NoSpace(tokens[i])
    decreases |s|
  {
    if s == [] then []
    else if IsSpace(s[0]) then Split(s[1..])
    else
      var w := Word(s);
      [w] + Split(s[|w|..])
  }

  /** A decimal rendering holds no whitespace. */
  lemma IntToStringNoSpace(i: int)
    ensures NoSpace(IntToString(i))
  {
    var s := IntToString(i);
    forall k | 0 <= k < |s|
      ensures !IsSpace(s[k])
    {
      if k > 0 || i >= 0 {
        assert i < 0 ==> s[k] == s[1..][k - 1];
      }
    }
  }

  /** The first word of a number written in front of a space reads back as that number. */
  lemma LeadingNumber(i: int, rest: string)
    ensures ParseInt(Word(IntToString(i) + " " + rest)) == Some(i)
  {
    IntToStringNoSpace(i);
    WordOfJoin(IntToString(i), rest);
    IntToStringRoundTrip(i);
  }

  lemma {:induction false} WordOfJoin(t: string, rest: string)
    requires NoSpace(t)
    ensures Word(t + " " + rest) == t
    decreases |t|
  {
    if t != [] {
      assert (t + " " + rest)[1..] == t[1..] + " " + rest;
      WordOfJoin(t[1..], rest);
    }
  }

  lemma {:induction false} WordAlone(t: string)
    requires NoSpace(t)
    ensures Word(t) == t
    decreases |t|
  {
    if t != [] {
      WordAlone(t[1..]);
    }
  }

  /** Non-empty whitespace-free tokens joined by single spaces split back into the same tokens. */
  lemma {:induction false} SplitJoin(tokens: seq<string>)
    requires forall i | 0 <= i < |tokens| :: |tokens[i]| >= 1 && NoSpace(tokens[i])
    ensures Split(Join(tokens, " ")) == tokens
    decreases |tokens|
  {
    if |tokens| == 1 {
      var t := tokens[0];
      WordAlone(t);
      assert t[|t|..] == [];
    } else if |tokens| > 1 {
      var t := tokens[0];
      var rest := Join(tokens[1..], " ");
      var s := t + " " + rest;
      WordOfJoin(t, rest);
      assert s[|t|..] == " " + rest;
      assert (" " + rest)[1..] == rest;
      SplitJoin(tokens[1..]);
      assert Split(s) == [t] + Split(s[|t|..]);
      assert Split(s[|t|..]) == Split(rest);
    }
  }
}
