/** The creature's type string, `<size> <type> (<subtype>), <alignment>`,
    and a model of the anchored pattern `^(\w+) (\w+) \(([\w ]+)\), ([\w ]+)$`
    that splits it into four groups. Word characters are modelled as ASCII
    letters, digits and underscore. */
module TypePattern {

  datatype Option<T> = None | Some(value: T)

  /** The four captured groups, in capture order. */
  datatype TypeParts = TypeParts(size: string, kind: string, subtype: string, alignment: string)

  predicate IsWordChar(c: char)
  {
    ('a' <= c <= 'z') || ('A' <= c <= 'Z') || ('0' <= c <= '9') || c == '_'
  }

  predicate IsWordOrSpace(c: char)
  {
    IsWordChar(c) || c == ' '
  }

  predicate AllWordChars(s: string)
  {
    forall i :: 0 <= i < |s| ==> IsWordChar(s[i])
  }

  predicate AllPhraseChars(s: string)
  {
    forall i :: 0 <= i < |s| ==> IsWordOrSpace(s[i])
  }

  /** A non-empty run of word characters, as `\w+` matches. */
  predicate IsWord(s: string)
  {
    |s| > 0 && AllWordChars(s)
  }

  /** A non-empty run of word characters and spaces, as `[\w ]+` matches. */
  predicate IsPhrase(s: string)
  {
    |s| > 0 && AllPhraseChars(s)
  }

  /** Groups the pattern can capture: words for the first two, words and
      spaces for the last two. */
  predicate WellFormed(p: TypeParts)
  {
    IsWord(p.size) && IsWord(p.kind) && IsPhrase(p.subtype) && IsPhrase(p.alignment)
  }

  /** The type string a well-formed set of groups spells. */
  function Compose(p: TypeParts): string
  {
    p.size + (" " + (p.kind + (" (" + (p.subtype + ("), " + p.alignment)))))
  }

  /** Length of the longest prefix of word characters. */
  function WordSpan(s: string): (n: nat)
    ensures n <= |s|
    ensures AllWordChars(s[..n])
    ensures n < |s| ==> !IsWordChar(s[n])
  {
    if |s| == 0 || !IsWordChar(s[0]) then 0
    else
      var n := 1 + WordSpan(s[1..]);
      assert s[..n] == [s[0]] + s[1..][..n - 1];
      n
  }

  /** Length of the longest prefix of word characters and spaces. */
  function PhraseSpan(s: string): (n: nat)
    ensures n <= |s|
    ensures AllPhraseChars(s[..n])
    ensures n < |s| ==> !IsWordOrSpace(s[n])
  {
    if |s| == 0 || !IsWordOrSpace(s[0]) then 0
    else
      var n := 1 + PhraseSpan(s[1..]);
      assert s[..n] == [s[0]] + s[1..][..n - 1];
      n
  }

  /** Splits `s` around the delimiter `d` when it follows a non-empty
      first part of length `n`. */
  function Cut(s: string, n: nat, d: string): Option<(string, string)>
  {
    if n == 0 || n + |d| > |s| || s[n..n + |d|] != d then None
    else Some((s[..n], s[n + |d|..]))
  }

  lemma CutSpells(s: string, n: nat, d: string)
    requires Cut(s, n, d).Some?
    ensures |Cut(s, n, d).value.0| == n > 0
    ensures s == Cut(s, n, d).value.0 + (d + Cut(s, n, d).value.1)
  {
    assert s == s[..n] + (s[n..n + |d|] + s[n + |d|..]);
  }

  lemma CutComplete(a: string, d: string, b: string)
    requires |a| > 0
    ensures Cut(a + (d + b), |a|, d) == Some((a, b))
  {
    var s := a + (d + b);
    assert s[|a|..|a| + |d|] == d;
    assert s[..|a|] == a;
    assert s[|a| + |d|..] == b;
  }

  /** The pattern's matcher. Each group is followed by a delimiter that its
      own character class excludes, so the only possible capture of a group
      is its longest run, and the match is unique. A string that does not
      match yields `None`. */
  function Match(s: string): Option<TypeParts>
  {
    match Cut(s, WordSpan(s), " ")
    case None => None
    case Some((size, s1)) =>
      match Cut(s1, WordSpan(s1), " (")
      case None => None
      case Some((kind, s2)) =>
        match Cut(s2, PhraseSpan(s2), "), ")
        case None => None
        case Some((subtype, alignment)) =>
          if |alignment| == 0 || PhraseSpan(alignment) != |alignment| then None
          else Some(TypeParts(size, kind, subtype, alignment))
  }

  lemma WordSpanOfPrefix(a: string, t: string)
    requires AllWordChars(a)
    requires |t| > 0 && !IsWordChar(t[0])
    ensures WordSpan(a + t) == |a|
  {
    var s := a + t;
    var n := WordSpan(s);
    assert s[|a|] == t[0];
  }

  lemma PhraseSpanOfPrefix(a: string, t: string)
    requires AllPhraseChars(a)
    requires |t| > 0 && !IsWordOrSpace(t[0])
    ensures PhraseSpan(a + t) == |a|
  {
    var s := a + t;
    var n := PhraseSpan(s);
    assert s[|a|] == t[0];
  }

  /** Every well-formed set of groups is recovered from the string it spells. */
  lemma MatchComplete(p: TypeParts)
    requires WellFormed(p)
    ensures Match(Compose(p)) == Some(p)
  {
    var s := Compose(p);
    var s2 := "), " + p.alignment;
    var s1 := " (" + (p.subtype + s2);
    var s0 := " " + (p.kind + s1);
    WordSpanOfPrefix(p.size, s0);
    CutComplete(p.size, " ", p.kind + s1);
    WordSpanOfPrefix(p.kind, s1);
    CutComplete(p.kind, " (", p.subtype + s2);
    PhraseSpanOfPrefix(p.subtype, s2);
    CutComplete(p.subtype, "), ", p.alignment);
    PhraseSpanWhole(p.alignment);
    assert Match(s).Some?;
    assert Match(s).value.size == p.size;
    assert Match(s).value.kind == p.kind;
    assert Match(s).value.subtype == p.subtype;
    assert Match(s).value.alignment == p.alignment;
  }

  lemma PhraseSpanWhole(s: string)
    requires AllPhraseChars(s)
    ensures PhraseSpan(s) == |s|
  {
    var n := PhraseSpan(s);
  }

  /** What the matcher captures is well formed and spells the input back. */
  lemma MatchSound(s: string)
    requires Match(s).Some?
    ensures WellFormed(Match(s).value)
    ensures Compose(Match(s).value) == s
  {
    var c1 := Cut(s, WordSpan(s), " ");
    CutSpells(s, WordSpan(s), " ");
    var s1 := c1.value.1;
    var c2 := Cut(s1, WordSpan(s1), " (");
    CutSpells(s1, WordSpan(s1), " (");
    var s2 := c2.value.1;
    var c3 := Cut(s2, PhraseSpan(s2), "), ");
    CutSpells(s2, PhraseSpan(s2), "), ");
    var p := TypeParts(c1.value.0, c2.value.0, c3.value.0, c3.value.1);
    assert Match(s) == Some(p);
    assert p.size == s[..WordSpan(s)];
    assert p.kind == s1[..WordSpan(s1)];
    assert p.subtype == s2[..PhraseSpan(s2)];
    assert p.alignment == p.alignment[..PhraseSpan(p.alignment)];
  }

  /** The matcher accepts exactly the strings some well-formed groups spell. */
  lemma MatchIff(s: string)
    ensures Match(s).Some? <==> exists p :: WellFormed(p) && Compose(p) == s
  {
    if p :| WellFormed(p) && Compose(p) == s {
      MatchComplete(p);
    }
    if Match(s).Some? {
      MatchSound(s);
    }
  }

  /** A matched type string contains the parenthesis that opens its
      subtype, so a string without one never matches. */
  lemma MatchHasParen(s: string)
    requires Match(s).Some?
    ensures '(' in s
  {
    MatchSound(s);
    var p := Match(s).value;
    assert s[|p.size| + 1 + |p.kind| + 1] == '(';
  }

  /** Captured groups never hold a newline. */
  lemma MatchNewlineFree(s: string)
    requires Match(s).Some?
    ensures '\n' !in Match(s).value.size && '\n' !in Match(s).value.kind
    ensures '\n' !in Match(s).value.subtype && '\n' !in Match(s).value.alignment
  {
    MatchSound(s);
    var p := Match(s).value;
    assert !IsWordOrSpace('\n');
  }
}
