/** The regular expressions the validators use, written as character-class
    predicates, each with the plain-language shape it accepts. */
module Patterns {
  import Text

  /** A run matched by `[^\s@]+`: non-empty, no white space and no '@'. */
  predicate Part(p: string) {
    p != [] && forall k :: 0 <= k < |p| ==> !Text.IsSpace(p[k]) && p[k] != '@'
  }

  /** `/^[^\s@]+@[^\s@]+\.[^\s@]+$/.test(s)`, by the positions of the '@'
      and of the '.' that the match uses. */
  predicate EmailRegex(s: string) {
    exists i, j :: 0 < i && i + 1 < j < |s| - 1 && EmailSplit(s, i, j)
  }

  predicate EmailSplit(s: string, i: int, j: int)
    requires 0 < i && i + 1 < j < |s| - 1
  {
    s[i] == '@' && s[j] == '.' && Part(s[..i]) && Part(s[i + 1..j]) && Part(s[j + 1..])
  }

  /** The shape the email pattern describes: local part, '@', domain label(s),
      '.', final label, with every part a non-empty run of `[^\s@]`. */
  ghost predicate EmailShape(s: string) {
    exists a, b, c :: s == a + "@" + b + "." + c && Part(a) && Part(b) && Part(c)
  }

  lemma EmailRegexIsShape(s: string)
    ensures EmailRegex(s) <==> EmailShape(s)
  {
    if EmailRegex(s) {
      var i, j :| 0 < i && i + 1 < j < |s| - 1 && EmailSplit(s, i, j);
      SplitIsShape(s, i, j);
    }
    if EmailShape(s) {
      var a, b, c :| s == a + "@" + b + "." + c && Part(a) && Part(b) && Part(c);
      ShapeIsSplit(a, b, c);
    }
  }

  lemma SplitIsShape(s: string, i: int, j: int)
    requires 0 < i && i + 1 < j < |s| - 1 && EmailSplit(s, i, j)
    ensures EmailShape(s)
  {
    var a, b, c := s[..i], s[i + 1..j], s[j + 1..];
    assert s == a + "@" + b + "." + c;
  }

  lemma ShapeIsSplit(a: string, b: string, c: string)
    requires Part(a) && Part(b) && Part(c)
    ensures EmailRegex(a + "@" + b + "." + c)
  {
    var s := a + "@" + b + "." + c;
    var i, j := |a|, |a| + 1 + |b|;
    assert s[..i] == a;
    assert s[i + 1..j] == b;
    assert s[j + 1..] == c;
    assert EmailSplit(s, i, j);
  }

  /** A string matching the email pattern holds exactly one '@', has a
      non-empty local part before it and no white space anywhere. */
  lemma {:induction false} EmailShapeFacts(s: string)
    requires EmailRegex(s)
    ensures forall k :: 0 <= k < |s| ==> !Text.IsSpace(s[k])
    ensures Text.BeforeFirst(s, '@') != []
    ensures |Text.BeforeFirst(s, '@')| < |s|
    ensures forall k :: |Text.BeforeFirst(s, '@')| < k < |s| ==> s[k] != '@'
  {
    var i, j :| 0 < i && i + 1 < j < |s| - 1 && EmailSplit(s, i, j);
    forall k | 0 <= k < |s| ensures !Text.IsSpace(s[k]) && (k != i ==> s[k] != '@') {
      if k < i {
        assert s[..i][k] == s[k];
      } else if i < k < j {
        assert s[i + 1..j][k - i - 1] == s[k];
      } else if j < k {
        assert s[j + 1..][k - j - 1] == s[k];
      }
    }
  }

  /** `(?=.*X)` tried at position `p`: some character of class `X` follows
      `p` with no line terminator in between (`.` does not match one). */
  predicate Ahead(s: string, p: int, cls: char -> bool)
    requires 0 <= p <= |s|
  {
    exists k :: p <= k < |s| && cls(s[k]) && NoTerminator(s, p, k)
  }

  predicate NoTerminator(s: string, from: int, to: int)
    requires 0 <= from <= to <= |s|
  {
    forall m :: from <= m < to ==> !Text.IsLineTerminator(s[m])
  }

  /** `/(?=.*[a-z])(?=.*[A-Z])(?=.*\d)/.test(s)`: the three look-aheads
      succeed together at some starting position. */
  predicate PasswordClasses(s: string) {
    exists p :: 0 <= p <= |s|
      && Ahead(s, p, Text.IsLower) && Ahead(s, p, Text.IsUpper) && Ahead(s, p, Text.IsDigit)
  }

  /** Holds when a string contains a lowercase letter, an uppercase letter
      and a digit somewhere. */
  predicate HasLowerUpperDigit(s: string) {
    (exists k :: 0 <= k < |s| && Text.IsLower(s[k]))
    && (exists k :: 0 <= k < |s| && Text.IsUpper(s[k]))
    && (exists k :: 0 <= k < |s| && Text.IsDigit(s[k]))
  }

  predicate SingleLine(s: string) {
    forall m :: 0 <= m < |s| ==> !Text.IsLineTerminator(s[m])
  }

  /** The look-ahead pattern demands the three classes; on a single-line
      string it demands nothing more. */
  lemma PasswordClassesMeaning(s: string)
    ensures PasswordClasses(s) ==> HasLowerUpperDigit(s)
    ensures SingleLine(s) ==> (PasswordClasses(s) <==> HasLowerUpperDigit(s))
  {
    if PasswordClasses(s) {
      var p :| 0 <= p <= |s| && Ahead(s, p, Text.IsLower) && Ahead(s, p, Text.IsUpper) && Ahead(s, p, Text.IsDigit);
      var k1 :| p <= k1 < |s| && Text.IsLower(s[k1]) && NoTerminator(s, p, k1);
      var k2 :| p <= k2 < |s| && Text.IsUpper(s[k2]) && NoTerminator(s, p, k2);
      var k3 :| p <= k3 < |s| && Text.IsDigit(s[k3]) && NoTerminator(s, p, k3);
    }
    if SingleLine(s) && HasLowerUpperDigit(s) {
      var k1 :| 0 <= k1 < |s| && Text.IsLower(s[k1]);
      var k2 :| 0 <= k2 < |s| && Text.IsUpper(s[k2]);
      var k3 :| 0 <= k3 < |s| && Text.IsDigit(s[k3]);
      assert NoTerminator(s, 0, k1) && NoTerminator(s, 0, k2) && NoTerminator(s, 0, k3);
      assert Ahead(s, 0, Text.IsLower) && Ahead(s, 0, Text.IsUpper) && Ahead(s, 0, Text.IsDigit);
    }
  }

  predicate IsWordChar(c: char) {
    Text.IsLower(c) || Text.IsUpper(c) || Text.IsDigit(c) || c == '_'
  }

  /** `/^[a-zA-Z0-9_]+$/.test(s)`. */
  predicate WordChars(s: string) {
    s != [] && forall k :: 0 <= k < |s| ==> IsWordChar(s[k])
  }

  /** `/^\d+$/.test(s)`. */
  predicate AllDigits(s: string) {
    s != [] && forall k :: 0 <= k < |s| ==> Text.IsDigit(s[k])
  }

  /** `/^\d{10,}$/.test(s)`. */
  predicate TenOrMoreDigits(s: string) {
    |s| >= 10 && forall k :: 0 <= k < |s| ==> Text.IsDigit(s[k])
  }
}
