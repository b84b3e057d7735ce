/**
 * Character-level text operations the notification strings are built from:
 * Ruby's Integer#to_s, joining and splitting on line breaks, counting a
 * character, and `gsub("\n", '\\n')`.
 */
module Text {

  /** The number of occurrences of `c` in `s`. */
  function Count(c: char, s: string): nat
  {
    if s == [] then 0 else (if s[0] == c then 1 else 0) + Count(c, s[1..])
  }

  lemma {:induction false} CountConcat(c: char, a: string, b: string)
    ensures Count(c, a + b) == Count(c, a) + Count(c, b)
    decreases |a|
  {
    if a == [] {
      assert a + b == b;
    } else {
      assert (a + b)[1..] == a[1..] + b;
      CountConcat(c, a[1..], b);
    }
  }

  lemma {:induction false} CountAbsent(c: char, s: string)
    requires c !in s
    ensures Count(c, s) == 0
    decreases |s|
  {
    if s != [] {
      assert s[0] != c;
      CountAbsent(c, s[1..]);
    }
  }

  // ---------------------------------------------------------------------
  // Decimal numerals (Integer#to_s)

  predicate IsDigit(c: char) { '0' <= c <= '9' }

  predicate AllDigits(s: string) { forall i :: 0 <= i < |s| ==> IsDigit(s[i]) }

  function DigitChar(d: nat): (c: char)
    requires d < 10
    ensures IsDigit(c) && (c as int) - ('0' as int) == d
  {
    ('0' as int + d) as char
  }

  /** The decimal numeral of `n`, without leading zeros. */
  function NatToString(n: nat): (s: string)
    ensures |s| >= 1 && AllDigits(s)
    ensures s[0] == '0' ==> n == 0 && s == "0"
    decreases n
  {
    if n < 10 then [DigitChar(n)] else NatToString(n / 10) + [DigitChar(n % 10)]
  }

  /** The number a string of digits denotes: the inverse of NatToString. */
  function DigitsValue(s: string): nat
    requires AllDigits(s)
    decreases |s|
  {
    if s == [] then 0
    else DigitsValue(s[..|s| - 1]) * 10 + ((s[|s| - 1] as int) - ('0' as int))
  }

  lemma {:induction false} DigitsValueOfNatToString(n: nat)
    ensures DigitsValue(NatToString(n)) == n
    decreases n
  {
    if n >= 10 {
      var s := NatToString(n);
      assert s[..|s| - 1] == NatToString(n / 10);
      DigitsValueOfNatToString(n / 10);
    }
  }

  /** Integer#to_s: an optional minus sign and the digits of the magnitude. */
  function IntToString(i: int): (s: string)
    ensures '\n' !in s
    ensures i >= 0 ==> AllDigits(s) && DigitsValue(s) == i
    ensures i < 0 ==> |s| >= 2 && s[0] == '-' && AllDigits(s[1..]) && DigitsValue(s[1..]) == -i
    ensures i >= 0 ==> |s| >= 1 && (s[0] == '0' ==> s == "0")
    ensures i < 0 ==> s[1] != '0'
  {
    if i < 0 then
      var d := NatToString(-i);
      DigitsValueOfNatToString(-i);
      assert ("-" + d)[1..] == d;
      "-" + d
    else
      DigitsValueOfNatToString(i);
      NatToString(i)
  }

  // ---------------------------------------------------------------------
  // Lines

  predicate NoNewline(s: string) { '\n' !in s }

  /** A concatenation of two strings without a line break has none. */
  lemma NoNewlineConcat(a: string, b: string)
    requires NoNewline(a) && NoNewline(b)
    ensures NoNewline(a + b)
  {
    assert forall i :: 0 <= i < |a + b| ==> (a + b)[i] == if i < |a| then a[i] else b[i - |a|];
  }

  predicate AllNoNewline(ls: seq<string>) { forall i :: 0 <= i < |ls| ==> NoNewline(ls[i]) }

  /** Array#join(sep). */
  function Join(ls: seq<string>, sep: string): string
  {
    if ls == [] then ""
    else if |ls| == 1 then ls[0]
    else ls[0] + sep + Join(ls[1..], sep)
  }

  /** Joining spelled out for the eight lines of a message. */
  lemma Join8(a: string, b: string, c: string, d: string, e: string, f: string, g: string, h: string, sep: string)
    ensures Join([a, b, c, d, e, f, g, h], sep)
            == a + sep + b + sep + c + sep + d + sep + e + sep + f + sep + g + sep + h
  {
    var ls := [a, b, c, d, e, f, g, h];
    assert Join(ls[7..], sep) == h;
    assert Join(ls[6..], sep) == g + sep + h by { assert ls[6..][1..] == ls[7..]; }
    assert Join(ls[5..], sep) == f + sep + Join(ls[6..], sep) by { assert ls[5..][1..] == ls[6..]; }
    assert Join(ls[4..], sep) == e + sep + Join(ls[5..], sep) by { assert ls[4..][1..] == ls[5..]; }
    assert Join(ls[3..], sep) == d + sep + Join(ls[4..], sep) by { assert ls[3..][1..] == ls[4..]; }
    assert Join(ls[2..], sep) == c + sep + Join(ls[3..], sep) by { assert ls[2..][1..] == ls[3..]; }
    assert Join(ls[1..], sep) == b + sep + Join(ls[2..], sep) by { assert ls[1..][1..] == ls[2..]; }
    assert Join(ls, sep) == a + sep + Join(ls[1..], sep);
  }

  /** Joining spelled out for the six lines of a notification. */
  lemma Join6(a: string, b: string, c: string, d: string, e: string, f: string, sep: string)
    ensures Join([a, b, c, d, e, f], sep) == a + sep + b + sep + c + sep + d + sep + e + sep + f
  {
    var ls := [a, b, c, d, e, f];
    assert Join(ls[5..], sep) == f;
    assert Join(ls[4..], sep) == e + sep + f by { assert ls[4..][1..] == ls[5..]; }
    assert Join(ls[3..], sep) == d + sep + Join(ls[4..], sep) by { assert ls[3..][1..] == ls[4..]; }
    assert Join(ls[2..], sep) == c + sep + Join(ls[3..], sep) by { assert ls[2..][1..] == ls[3..]; }
    assert Join(ls[1..], sep) == b + sep + Join(ls[2..], sep) by { assert ls[1..][1..] == ls[2..]; }
    assert Join(ls, sep) == a + sep + Join(ls[1..], sep);
  }

  /**
   * The lines of `s`: the maximal newline-free pieces between line breaks,
   * empty pieces included, so that a string with k line breaks has k + 1 lines.
   */
  function Lines(s: string): (r: seq<string>)
    ensures |r| >= 1
    decreases |s|
  {
    if s == [] then [""]
    else
      var rest := Lines(s[1..]);
      if s[0] == '\n' then [""] + rest
      else [[s[0]] + rest[0]] + rest[1..]
  }

  lemma {:induction false} LinesPrefix(a: string, t: string)
    requires NoNewline(a)
    ensures Lines(a + t) == [a + Lines(t)[0]] + Lines(t)[1..]
    decreases |a|
  {
    if a != [] {
      assert (a + t)[0] == a[0];
      assert (a + t)[1..] == a[1..] + t;
      LinesPrefix(a[1..], t);
      assert [a[0]] + (a[1..] + Lines(t)[0]) == a + Lines(t)[0];
    } else {
      assert a + t == t && a + Lines(t)[0] == Lines(t)[0];
      assert [Lines(t)[0]] + Lines(t)[1..] == Lines(t);
    }
  }

  /** Splitting the newline-joined lines gives the lines back. */
  lemma {:induction false} LinesOfJoin(ls: seq<string>)
    requires |ls| >= 1 && AllNoNewline(ls)
    ensures Lines(Join(ls, "\n")) == ls
    decreases |ls|
  {
    if |ls| == 1 {
      LinesPrefix(ls[0], "");
      assert ls[0] + "" == ls[0];
    } else {
      var rest := Join(ls[1..], "\n");
      LinesOfJoin(ls[1..]);
      assert ls[0] + "\n" + rest == ls[0] + ("\n" + rest);
      LinesPrefix(ls[0], "\n" + rest);
      assert ("\n" + rest)[1..] == rest;
      assert Lines("\n" + rest) == [""] + ls[1..];
      assert ls[0] + "" == ls[0];
    }
  }

  /** Joining k newline-free lines puts exactly k - 1 line breaks in the text. */
  lemma {:induction false} CountJoin(ls: seq<string>)
    requires |ls| >= 1 && AllNoNewline(ls)
    ensures Count('\n', Join(ls, "\n")) == |ls| - 1
    decreases |ls|
  {
    CountAbsent('\n', ls[0]);
    if |ls| > 1 {
      var rest := Join(ls[1..], "\n");
      CountJoin(ls[1..]);
      CountConcat('\n', ls[0] + "\n", rest);
      CountConcat('\n', ls[0], "\n");
    }
  }

  // ---------------------------------------------------------------------
  // gsub("\n", '\\n'): each line break becomes a backslash and an `n`

  function EscapeChar(c: char): string
  {
    if c == '\n' then "\\n" else [c]
  }

  function Escape(s: string): (r: string)
    ensures NoNewline(r)
    ensures |r| == |s| + Count('\n', s)
    decreases |s|
  {
    if s == [] then [] else EscapeChar(s[0]) + Escape(s[1..])
  }

  /** Escaping works character by character, so it distributes over concatenation. */
  lemma {:induction false} EscapeConcat(a: string, b: string)
    ensures Escape(a + b) == Escape(a) + Escape(b)
    decreases |a|
  {
    if a == [] {
      assert a + b == b;
    } else {
      assert (a + b)[0] == a[0];
      assert (a + b)[1..] == a[1..] + b;
      EscapeConcat(a[1..], b);
    }
  }

  /** Text without line breaks is left as it is. */
  lemma {:induction false} EscapeNoNewline(s: string)
    requires NoNewline(s)
    ensures Escape(s) == s
    decreases |s|
  {
    if s != [] {
      assert s == [s[0]] + s[1..];
      EscapeNoNewline(s[1..]);
    }
  }

  /** The single-line form of newline-joined lines is the lines joined by backslash-n. */
  lemma {:induction false} EscapeJoin(ls: seq<string>)
    requires AllNoNewline(ls)
    ensures Escape(Join(ls, "\n")) == Join(ls, "\\n")
    decreases |ls|
  {
    if |ls| == 1 {
      EscapeNoNewline(ls[0]);
    } else if |ls| > 1 {
      var rest := Join(ls[1..], "\n");
      EscapeJoin(ls[1..]);
      EscapeConcat(ls[0] + "\n", rest);
      EscapeConcat(ls[0], "\n");
      EscapeNoNewline(ls[0]);
      assert Escape("\n") == "\\n" by {
        assert "\n"[1..] == [];
      }
    }
  }
}
