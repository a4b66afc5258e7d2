/** String helpers used by the statblock renderer: searching, decimal
    printing of unsigned integers, the `", "` join of string lists, newline
    escaping of free text, and the line framing that `println!` produces. */
module Text {

  predicate NewlineFree(s: string)
  {
    '\n' !in s
  }

  /** Index of the first occurrence of `c` in `s`, or `|s|` when there is none. */
  function IndexOf(s: string, c: char): (i: nat)
    ensures i <= |s|
    ensures i < |s| ==> s[i] == c
    ensures forall k :: 0 <= k < i ==> s[k] != c
  {
    if |s| == 0 then 0
    else if s[0] == c then 0
    else 1 + IndexOf(s[1..], c)
  }

  lemma IndexOfAfterPrefix(a: string, c: char, t: string)
    requires c !in a
    requires |t| > 0 && t[0] == c
    ensures IndexOf(a + t, c) == |a|
  {
    var s := a + t;
    var i := IndexOf(s, c);
    assert s[|a|] == c;
  }

  function CountNewlines(s: string): nat
  {
    if |s| == 0 then 0 else (if s[0] == '\n' then 1 else 0) + CountNewlines(s[1..])
  }

  lemma {:induction false} CountNewlinesZero(s: string)
    ensures CountNewlines(s) == 0 <==> NewlineFree(s)
  {
    if |s| > 0 {
      CountNewlinesZero(s[1..]);
      assert s == [s[0]] + s[1..];
    }
  }

  // ---------------------------------------------------------------------
  // Decimal printing of unsigned integers (`{}` applied to a u64).

  predicate IsDigit(c: char)
  {
    '0' <= c <= '9'
  }

  function DigitChar(d: nat): (c: char)
    requires d < 10
    ensures IsDigit(c)
  {
    ('0' as int + d) as char
  }

  /** The shortest decimal spelling of `n`: digits only, no leading zero. */
  function NatToString(n: nat): (r: string)
    ensures |r| > 0
    ensures forall i :: 0 <= i < |r| ==> IsDigit(r[i])
    ensures r[0] == '0' ==> r == "0"
  {
    if n < 10 then [DigitChar(n)]
    else NatToString(n / 10) + [DigitChar(n % 10)]
  }

  /** Reads a string of decimal digits back as a number. */
  function ParseNat(s: string): nat
    requires forall i :: 0 <= i < |s| ==> IsDigit(s[i])
  {
    if |s| == 0 then 0
    else 10 * ParseNat(s[..|s| - 1]) + DigitValue(s[|s| - 1])
  }

  function DigitValue(c: char): nat
    requires IsDigit(c)
  {
    c as int - '0' as int
  }

  lemma {:induction false} ParseNatToString(n: nat)
    ensures ParseNat(NatToString(n)) == n
    decreases n
  {
    var r := NatToString(n);
    if n >= 10 {
      ParseNatToString(n / 10);
      assert r[..|r| - 1] == NatToString(n / 10);
    } else {
      assert r[..|r| - 1] == [];
    }
  }

  /** Decimal printing loses nothing: distinct numbers print differently. */
  lemma NatToStringInjective(m: nat, n: nat)
    requires NatToString(m) == NatToString(n)
    ensures m == n
  {
    ParseNatToString(m);
    ParseNatToString(n);
  }

  /** Each number printed in decimal, in order. */
  function Numerals(ns: seq<nat>): (r: seq<string>)
    ensures |r| == |ns|
    ensures forall i :: 0 <= i < |ns| ==> r[i] == NatToString(ns[i])
  {
    if |ns| == 0 then [] else [NatToString(ns[0])] + Numerals(ns[1..])
  }

  // ---------------------------------------------------------------------
  // `Vec<String>::join(", ")`.

  function TotalLength(xs: seq<string>): nat
  {
    if |xs| == 0 then 0 else |xs[0]| + TotalLength(xs[1..])
  }

  /** The items in order, separated by `", "`; the empty list joins to "". */
  function Join(xs: seq<string>): (r: string)
    ensures |xs| == 0 ==> r == ""
    ensures |xs| > 0 ==> |r| == TotalLength(xs) + 2 * (|xs| - 1)
    ensures |xs| > 0 ==> r[..|xs[0]|] == xs[0]
  {
    if |xs| == 0 then ""
    else if |xs| == 1 then xs[0]
    else xs[0] + ", " + Join(xs[1..])
  }

  lemma {:induction false} JoinNewlineFree(xs: seq<string>)
    requires forall i :: 0 <= i < |xs| ==> NewlineFree(xs[i])
    ensures NewlineFree(Join(xs))
  {
    if |xs| > 1 {
      JoinNewlineFree(xs[1..]);
    }
  }

  /** Reads a `", "`-separated list back: splits at every comma and drops
      the single space that follows it. */
  function Split(s: string): (r: seq<string>)
    ensures |r| > 0
    decreases |s|
  {
    var i := IndexOf(s, ',');
    if i == |s| then [s]
    else
      var rest := s[i + 1..];
      [s[..i]] + Split(if |rest| > 0 && rest[0] == ' ' then rest[1..] else rest)
  }

  /** Joining is undone by splitting whenever no item contains a comma. */
  lemma {:induction false} SplitJoin(xs: seq<string>)
    requires |xs| > 0
    requires forall i :: 0 <= i < |xs| ==> ',' !in xs[i]
    ensures Split(Join(xs)) == xs
  {
    if |xs| == 1 {
      assert IndexOf(xs[0], ',') == |xs[0]|;
    } else {
      var tail := Join(xs[1..]);
      var s := xs[0] + ", " + tail;
      assert s == xs[0] + (", " + tail);
      IndexOfAfterPrefix(xs[0], ',', ", " + tail);
      assert s[..|xs[0]|] == xs[0];
      assert s[|xs[0]| + 1..] == " " + tail;
      assert (" " + tail)[1..] == tail;
      SplitJoin(xs[1..]);
      assert xs == [xs[0]] + xs[1..];
    }
  }

  // ---------------------------------------------------------------------
  // `content.replace("\n", "\\n")`.

  /** Replaces every newline by the two characters backslash and `n`. */
  function EscapeNewlines(s: string): string
  {
    if |s| == 0 then ""
    else (if s[0] == '\n' then "\\n" else [s[0]]) + EscapeNewlines(s[1..])
  }

  /** No newline survives escaping, and each one adds a character. */
  lemma {:induction false} EscapeNewlinesShape(s: string)
    ensures NewlineFree(EscapeNewlines(s))
    ensures |EscapeNewlines(s)| == |s| + CountNewlines(s)
  {
    if |s| > 0 {
      EscapeNewlinesShape(s[1..]);
    }
  }

  lemma {:induction false} EscapeNewlinesIdentity(s: string)
    requires NewlineFree(s)
    ensures EscapeNewlines(s) == s
  {
    if |s| > 0 {
      assert s[0] != '\n';
      EscapeNewlinesIdentity(s[1..]);
      assert s == [s[0]] + s[1..];
    }
  }

  /** Turns each backslash-`n` pair back into a newline. */
  function Unescape(s: string): string
  {
    if |s| == 0 then ""
    else if |s| > 1 && s[0] == '\\' && s[1] == 'n' then "\n" + Unescape(s[2..])
    else [s[0]] + Unescape(s[1..])
  }

  /** Escaping is undone by unescaping for text without backslashes. */
  lemma {:induction false} UnescapeEscape(s: string)
    requires '\\' !in s
    ensures Unescape(EscapeNewlines(s)) == s
  {
    if |s| > 0 {
      UnescapeEscape(s[1..]);
      var e := EscapeNewlines(s[1..]);
      if s[0] == '\n' {
        assert EscapeNewlines(s) == "\\n" + e;
        assert ("\\n" + e)[2..] == e;
      } else {
        assert EscapeNewlines(s) == [s[0]] + e;
        assert ([s[0]] + e)[1..] == e;
      }
      assert s == [s[0]] + s[1..];
    }
  }

  /** Without that restriction escaping is not injective: a literal
      backslash-`n` in the content and a real newline print alike. */
  lemma EscapeNotInjective()
    ensures EscapeNewlines("\\n") == EscapeNewlines("\n")
    ensures "\\n" != "\n"
  {
    assert EscapeNewlines("\\n") == "\\" + EscapeNewlines("n");
  }

  // ---------------------------------------------------------------------
  // Line framing: each `println!` writes its argument followed by "\n".

  /** The text written to standard output by printing `lines` in order. */
  function Print(lines: seq<string>): string
  {
    if |lines| == 0 then "" else lines[0] + "\n" + Print(lines[1..])
  }

  /** Splits text into its newline-terminated lines (a final unterminated
      remainder counts as a line). */
  function ReadLines(t: string): seq<string>
    decreases |t|
  {
    if |t| == 0 then []
    else
      var i := IndexOf(t, '\n');
      if i == |t| then [t] else [t[..i]] + ReadLines(t[i + 1..])
  }

  lemma ReadLinesCons(a: string, rest: string)
    requires NewlineFree(a)
    ensures ReadLines(a + "\n" + rest) == [a] + ReadLines(rest)
  {
    var t := a + "\n" + rest;
    assert t == a + ("\n" + rest);
    IndexOfAfterPrefix(a, '\n', "\n" + rest);
    assert t[..|a|] == a;
    assert t[|a| + 1..] == rest;
  }

  /** Reading back the printed text gives the printed lines whenever no
      line carries a newline of its own. */
  lemma {:induction false} ReadPrintedLines(lines: seq<string>)
    requires forall i :: 0 <= i < |lines| ==> NewlineFree(lines[i])
    ensures ReadLines(Print(lines)) == lines
  {
    if |lines| > 0 {
      ReadLinesCons(lines[0], Print(lines[1..]));
      ReadPrintedLines(lines[1..]);
      assert lines == [lines[0]] + lines[1..];
    }
  }
}
