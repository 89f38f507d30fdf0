/** The string functions the code base borrows: trimming, prefixes, splitting and decimal digits. */
module Text {

  /** The characters strings.TrimSpace removes. */
  predicate IsSpace(c: char) {
    || c in {'\t', '\n', '\U{000B}', '\U{000C}', '\r', ' ', '\U{0085}', '\U{00A0}', '\U{1680}'}
    || '\U{2000}' <= c <= '\U{200A}'
    || c in {'\U{2028}', '\U{2029}', '\U{202F}', '\U{205F}', '\U{3000}'}
  }

  function TrimLeft(s: string): (t: string)
    ensures t != [] ==> !IsSpace(t[0])
  {
    if s != [] && IsSpace(s[0]) then TrimLeft(s[1..]) else s
  }

  function TrimRight(s: string): (t: string)
    ensures t <= s
    ensures t != [] ==> !IsSpace(t[|t| - 1])
  {
    if s != [] && IsSpace(s[|s| - 1]) then TrimRight(s[..|s| - 1]) else s
  }

  function TrimSpace(s: string): (t: string)
    ensures t != [] ==> !IsSpace(t[0]) && !IsSpace(t[|t| - 1])
  {
    TrimRight(TrimLeft(s))
  }

  predicate AllSpace(s: string) {
    forall i :: 0 <= i < |s| ==> IsSpace(s[i])
  }

  /** Trimming takes whitespace off both ends and nothing else. */
  lemma TrimTakesOnlySpace(s: string) returns (left: string, right: string)
    ensures s == left + TrimSpace(s) + right && AllSpace(left) && AllSpace(right)
  {
    left := TrimmedOnTheLeft(s);
    right := TrimmedOnTheRight(TrimLeft(s));
  }

  lemma {:induction false} TrimmedOnTheLeft(s: string) returns (left: string)
    ensures s == left + TrimLeft(s) && AllSpace(left)
  {
    if s != [] && IsSpace(s[0]) {
      left := TrimmedOnTheLeft(s[1..]);
      left := [s[0]] + left;
    } else {
      left := [];
    }
  }

  lemma {:induction false} TrimmedOnTheRight(s: string) returns (right: string)
    ensures s == TrimRight(s) + right && AllSpace(right)
  {
    if s != [] && IsSpace(s[|s| - 1]) {
      right := TrimmedOnTheRight(s[..|s| - 1]);
      right := right + [s[|s| - 1]];
    } else {
      right := [];
    }
  }

  /** What is left of a text is empty exactly if the text is whitespace throughout. */
  lemma BlankIff(s: string)
    ensures TrimSpace(s) == "" <==> AllSpace(s)
  {
    var left, right := TrimTakesOnlySpace(s);
    if TrimSpace(s) != "" {
      assert s[|left|] == TrimSpace(s)[0];
    }
  }

  function TrimSlashes(s: string): (t: string)
    ensures t != [] ==> t[0] != '/' && t[|t| - 1] != '/'
  {
    if s != [] && s[0] == '/' then TrimSlashes(s[1..])
    else if s != [] && s[|s| - 1] == '/' then TrimSlashes(s[..|s| - 1])
    else s
  }

  predicate AllSlash(s: string) {
    forall i :: 0 <= i < |s| ==> s[i] == '/'
  }

  /** Trimming takes slashes off both ends and nothing else. */
  lemma {:induction false} TrimTakesOnlySlashes(s: string) returns (left: string, right: string)
    ensures s == left + TrimSlashes(s) + right && AllSlash(left) && AllSlash(right)
    decreases |s|
  {
    left, right := [], [];
    if s != [] && s[0] == '/' {
      left, right := TrimTakesOnlySlashes(s[1..]);
      SlashBefore(s, left, TrimSlashes(s[1..]), right);
      left := ['/'] + left;
    } else if s != [] && s[|s| - 1] == '/' {
      left, right := TrimTakesOnlySlashes(s[..|s| - 1]);
      SlashBehind(s, left, TrimSlashes(s[..|s| - 1]), right);
      right := right + ['/'];
    }
  }

  lemma SlashBefore(s: string, left: string, middle: string, right: string)
    requires s != [] && s[0] == '/' && s[1..] == left + middle + right && AllSlash(left)
    ensures s == (['/'] + left) + middle + right && AllSlash(['/'] + left)
  {
    assert s == [s[0]] + s[1..];
  }

  lemma SlashBehind(s: string, left: string, middle: string, right: string)
    requires s != [] && s[|s| - 1] == '/' && s[..|s| - 1] == left + middle + right && AllSlash(right)
    ensures s == left + middle + (right + ['/']) && AllSlash(right + ['/'])
  {
    assert s == s[..|s| - 1] + [s[|s| - 1]];
  }

  predicate HasPrefix(s: string, prefix: string) {
    prefix <= s
  }

  /** The pieces of `s` between occurrences of `sep`; one more piece than there are separators. */
  function Split(s: string, sep: char): (parts: seq<string>)
    ensures parts != []
    ensures forall i :: 0 <= i < |parts| ==> sep !in parts[i]
  {
    if s == [] then [""]
    else
      var rest := Split(s[1..], sep);
      if s[0] == sep then [""] + rest
      else
        var first := [s[0]] + rest[0];
        assert sep !in first;
        var parts := [first] + rest[1..];
        assert forall i :: 1 <= i < |parts| ==> parts[i] == rest[i];
        parts
  }

  /** The inverse of Split. */
  function Join(parts: seq<string>, sep: char): string
    requires parts != []
  {
    if |parts| == 1 then parts[0] else parts[0] + [sep] + Join(parts[1..], sep)
  }

  lemma JoinBehind(parts: seq<string>, sep: char)
    requires parts != []
    ensures Join([""] + parts, sep) == [sep] + Join(parts, sep)
  {
    assert ([""] + parts)[1..] == parts;
  }

  lemma JoinLonger(c: char, parts: seq<string>, sep: char)
    requires parts != []
    ensures Join([[c] + parts[0]] + parts[1..], sep) == [c] + Join(parts, sep)
  {
    var longer := [[c] + parts[0]] + parts[1..];
    assert longer[1..] == parts[1..];
    if |parts| > 1 {
      assert Join(longer, sep) == [c] + parts[0] + [sep] + Join(parts[1..], sep);
    }
  }

  lemma {:induction false} JoinOfSplit(s: string, sep: char)
    ensures Join(Split(s, sep), sep) == s
  {
    if s != [] {
      hide Join;
      JoinOfSplit(s[1..], sep);
      assert s == [s[0]] + s[1..];
      if s[0] == sep {
        JoinBehind(Split(s[1..], sep), sep);
      } else {
        JoinLonger(s[0], Split(s[1..], sep), sep);
      }
    }
  }

  lemma {:induction false} SplitOfPiece(piece: string, sep: char)
    requires sep !in piece
    ensures Split(piece, sep) == [piece]
  {
    if piece != [] {
      assert sep !in piece[1..];
      SplitOfPiece(piece[1..], sep);
      assert [piece[0]] + piece[1..] == piece;
      assert [piece[1..]][1..] == [];
    } else {
      assert Split(piece, sep) == [""] == [piece];
    }
  }

  lemma {:induction false} SplitAtFirst(piece: string, rest: string, sep: char)
    requires sep !in piece
    ensures Split(piece + [sep] + rest, sep) == [piece] + Split(rest, sep)
  {
    var s := piece + [sep] + rest;
    if piece == [] {
      assert s[1..] == rest;
      assert [""] == [piece];
    } else {
      assert sep !in piece[1..];
      SplitAtFirst(piece[1..], rest, sep);
      assert s[1..] == piece[1..] + [sep] + rest;
      assert [piece[0]] + piece[1..] == piece;
      assert ([piece[1..]] + Split(rest, sep))[1..] == Split(rest, sep);
    }
  }

  // ----- Decimal numbers -----

  predicate IsDigit(c: char) {
    '0' <= c <= '9'
  }

  function DigitChar(d: nat): (c: char)
    requires d < 10
    ensures IsDigit(c) && c as int - '0' as int == d
  {
    ('0' as int + d) as char
  }

  function Decimal(n: nat): (s: string)
    ensures s != [] && forall i :: 0 <= i < |s| ==> IsDigit(s[i])
  {
    if n < 10 then [DigitChar(n)] else Decimal(n / 10) + [DigitChar(n % 10)]
  }

  /** The number a run of digits spells. */
  function DigitsValue(s: string): nat
    requires forall i :: 0 <= i < |s| ==> IsDigit(s[i])
  {
    if s == [] then 0
    else
      var last := s[|s| - 1];
      assert IsDigit(last);
      10 * DigitsValue(s[..|s| - 1]) + (last as int - '0' as int)
  }

  lemma {:induction false} ValueOfDecimal(n: nat)
    ensures DigitsValue(Decimal(n)) == n
  {
    if n >= 10 {
      ValueOfDecimal(n / 10);
      var s := Decimal(n);
      assert s[..|s| - 1] == Decimal(n / 10);
    } else {
      assert Decimal(n)[..0] == [];
    }
  }
}
