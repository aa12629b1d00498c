/**
 * The hobby tokeniser: `hobbies.split(",")`, and on create also
 * `.map((hobby) => hobby.trim().toUpperCase())`.
 */
module HobbyNormalizer {

  const Comma := ','

  /** The characters `String.prototype.trim` strips: ECMAScript WhiteSpace and LineTerminator. */
  predicate IsWhitespace(c: char) {
    || c == '\t' || c == '\n' || c == '\U{000B}' || c == '\U{000C}' || c == '\r' || c == ' '
    || c == '\U{00A0}' || c == '\U{1680}' || ('\U{2000}' <= c <= '\U{200A}')
    || c == '\U{2028}' || c == '\U{2029}' || c == '\U{202F}' || c == '\U{205F}'
    || c == '\U{3000}' || c == '\U{FEFF}'
  }

  /** Neither end of `s` is whitespace. */
  ghost predicate IsTrimmed(s: string) {
    s == [] || (!IsWhitespace(s[0]) && !IsWhitespace(s[|s| - 1]))
  }

  /** How many times `c` occurs in `s`. */
  function Count(s: string, c: char): nat {
    if s == [] then 0 else (if s[0] == c then 1 else 0) + Count(s[1..], c)
  }

  /** Glues tokens back together with `sep` between them: the inverse of `Split`. */
  function Join(parts: seq<string>, sep: char): string
    requires |parts| > 0
  {
    if |parts| == 1 then parts[0] else parts[0] + [sep] + Join(parts[1..], sep)
  }

  lemma JoinCons(a: string, rest: seq<string>, sep: char)
    requires |rest| > 0
    ensures Join([a] + rest, sep) == a + [sep] + Join(rest, sep)
  {
    assert ([a] + rest)[1..] == rest;
  }

  /** Prepending a character to the first token prepends it to the joined string. */
  lemma JoinExtendHead(c: char, rest: seq<string>, sep: char)
    requires |rest| > 0
    ensures Join([[c] + rest[0]] + rest[1..], sep) == [c] + Join(rest, sep)
  {
    if |rest| > 1 {
      JoinCons([c] + rest[0], rest[1..], sep);
      JoinCons(rest[0], rest[1..], sep);
      assert [rest[0]] + rest[1..] == rest;
    }
  }

  /**
   * `s.split(sep)` for a one-character separator: one token more than there
   * are separators, none of them holding the separator, and joining them
   * gives back `s`. The empty string splits into one empty token.
   */
  function Split(s: string, sep: char): (parts: seq<string>)
    ensures |parts| == Count(s, sep) + 1
    ensures forall i :: 0 <= i < |parts| ==> sep !in parts[i]
    ensures Join(parts, sep) == s
    decreases |s|
  {
    if s == [] then [[]]
    else
      var rest := Split(s[1..], sep);
      assert s == [s[0]] + s[1..];
      if s[0] == sep then
        JoinCons([], rest, sep);
        [[]] + rest
      else
        JoinExtendHead(s[0], rest, sep);
        [[s[0]] + rest[0]] + rest[1..]
  }

  /** Splitting a string that holds no separator gives that string alone. */
  lemma {:induction false} SplitWithoutSeparator(s: string, sep: char)
    requires sep !in s
    ensures Split(s, sep) == [s]
  {
    if s != [] {
      SplitWithoutSeparator(s[1..], sep);
    }
  }

  /** Splitting `a + [sep] + b`, where `a` holds no separator, peels `a` off as the first token. */
  lemma {:induction false} SplitAfterToken(a: string, b: string, sep: char)
    requires sep !in a
    ensures Split(a + [sep] + b, sep) == [a] + Split(b, sep)
  {
    var x := a + [sep] + b;
    if a == [] {
      assert x[0] == sep && x[1..] == b;
    } else {
      assert x[0] == a[0] && x[1..] == a[1..] + [sep] + b;
      SplitAfterToken(a[1..], b, sep);
      var rest := Split(x[1..], sep);
      assert rest[0] == a[1..] && rest[1..] == Split(b, sep);
      assert [a[0]] + a[1..] == a;
    }
  }

  /** Round trip the other way: splitting joined separator-free tokens gives the tokens back. */
  lemma {:induction false} SplitJoin(parts: seq<string>, sep: char)
    requires |parts| > 0
    requires forall i :: 0 <= i < |parts| ==> sep !in parts[i]
    ensures Split(Join(parts, sep), sep) == parts
  {
    if |parts| == 1 {
      SplitWithoutSeparator(parts[0], sep);
    } else {
      SplitJoin(parts[1..], sep);
      SplitAfterToken(parts[0], Join(parts[1..], sep), sep);
      assert [parts[0]] + parts[1..] == parts;
    }
  }

  /** How many whitespace characters `s` starts with. */
  function LeadingWhitespace(s: string): (n: nat)
    ensures n <= |s|
    ensures forall i :: 0 <= i < n ==> IsWhitespace(s[i])
    ensures n < |s| ==> !IsWhitespace(s[n])
    decreases |s|
  {
    if s != [] && IsWhitespace(s[0]) then 1 + LeadingWhitespace(s[1..]) else 0
  }

  /** How many whitespace characters `s` ends with. */
  function TrailingWhitespace(s: string): (n: nat)
    ensures n <= |s|
    ensures forall i :: |s| - n <= i < |s| ==> IsWhitespace(s[i])
    ensures n < |s| ==> !IsWhitespace(s[|s| - 1 - n])
    decreases |s|
  {
    if s != [] && IsWhitespace(s[|s| - 1]) then 1 + TrailingWhitespace(s[..|s| - 1]) else 0
  }

  /** `s.trimStart()`: drops the leading whitespace; the result does not start with whitespace. */
  function TrimStart(s: string): (r: string)
    ensures r == [] || !IsWhitespace(r[0])
  {
    s[LeadingWhitespace(s)..]
  }

  /** `s.trimEnd()`: drops the trailing whitespace; the result does not end with whitespace. */
  function TrimEnd(s: string): (r: string)
    ensures r == [] || !IsWhitespace(r[|r| - 1])
  {
    s[..|s| - TrailingWhitespace(s)]
  }

  /** `s.trim()`: trims both ends, so neither end of the result is whitespace. */
  function Trim(s: string): (r: string)
    ensures |r| <= |s| && IsTrimmed(r)
  {
    TrimEnd(TrimStart(s))
  }

  /**
   * What `trim` removes: the result is the slice of `s` that starts after the
   * leading whitespace, and everything outside it is whitespace.
   */
  lemma TrimMargins(s: string)
    ensures var r := Trim(s); var k := LeadingWhitespace(s);
      && k + |r| <= |s| && r == s[k..k + |r|]
      && (forall i :: 0 <= i < k ==> IsWhitespace(s[i]))
      && (forall i :: k + |r| <= i < |s| ==> IsWhitespace(s[i]))
  {
    TrimSlice(s);
    TrimTrailingMargin(s);
  }

  /** `Trim(s)` is the slice of `s` starting after the leading whitespace. */
  lemma TrimSlice(s: string)
    ensures var r := Trim(s); var k := LeadingWhitespace(s);
      k + |r| <= |s| && r == s[k..k + |r|]
  {
    var k := LeadingWhitespace(s);
    var n := |s[k..]| - TrailingWhitespace(s[k..]);
    assert Trim(s) == s[k..][..n];
    TakeOfDrop(s, k, n);
  }

  lemma TakeOfDrop(s: string, k: nat, n: nat)
    requires k + n <= |s|
    ensures s[k..][..n] == s[k..k + n]
  {
  }

  /** Everything after `Trim(s)` in `s` is whitespace. */
  lemma TrimTrailingMargin(s: string)
    ensures var r := Trim(s); var k := LeadingWhitespace(s);
      forall i :: k + |r| <= i < |s| ==> IsWhitespace(s[i])
  {
    var k := LeadingWhitespace(s);
    var t := s[k..];
    assert |Trim(s)| == |t| - TrailingWhitespace(t);
    forall i | k + |Trim(s)| <= i < |s|
      ensures IsWhitespace(s[i])
    {
      assert s[i] == t[i - k];
    }
  }

  /** A trimmed string is its own trim, so trimming is idempotent. */
  lemma TrimIdempotent(s: string)
    ensures Trim(Trim(s)) == Trim(s)
  {
    var t := Trim(s);
    assert TrimStart(t) == t;
    assert TrimEnd(t) == t;
  }

  predicate IsLowerAscii(c: char) {
    'a' <= c <= 'z'
  }

  /** `toUpperCase` on one character, for the ASCII letters. */
  function UpperChar(c: char): (u: char)
    ensures !IsLowerAscii(u)
    ensures IsLowerAscii(c) ==> 'A' <= u <= 'Z' && u as int == c as int - 32
    ensures !IsLowerAscii(c) ==> u == c
  {
    if IsLowerAscii(c) then (c as int - 32) as char else c
  }

  /** `s.toUpperCase()`: same length, no lower-case letter left, everything else kept. */
  function Upper(s: string): (r: string)
    ensures |r| == |s|
    ensures forall i :: 0 <= i < |r| ==> !IsLowerAscii(r[i])
    ensures forall i :: 0 <= i < |s| && !IsLowerAscii(s[i]) ==> r[i] == s[i]
    ensures forall i :: 0 <= i < |s| && IsLowerAscii(s[i]) ==> r[i] as int == s[i] as int - 32
  {
    seq(|s|, i requires 0 <= i < |s| => UpperChar(s[i]))
  }

  /** Upper-casing keeps a trimmed string trimmed. */
  lemma UpperKeepsTrimmed(s: string)
    requires IsTrimmed(s)
    ensures IsTrimmed(Upper(s))
  {
  }

  /**
   * The create-time normaliser: one token per comma-separated piece, in
   * order, each trimmed and upper-cased.
   */
  function NormalizeOnCreate(hobbies: string): (tokens: seq<string>)
    ensures |tokens| == |Split(hobbies, Comma)| == Count(hobbies, Comma) + 1
    ensures forall i :: 0 <= i < |tokens| ==> tokens[i] == Upper(Trim(Split(hobbies, Comma)[i]))
    ensures forall i :: 0 <= i < |tokens| ==>
      IsTrimmed(tokens[i]) && Comma !in tokens[i] && forall j :: 0 <= j < |tokens[i]| ==> !IsLowerAscii(tokens[i][j])
  {
    var parts := Split(hobbies, Comma);
    var tokens := seq(|parts|, i requires 0 <= i < |parts| => Upper(Trim(parts[i])));
    forall i | 0 <= i < |tokens|
      ensures IsTrimmed(tokens[i]) && Comma !in tokens[i]
    {
      UpperKeepsTrimmed(Trim(parts[i]));
      TrimKeepsAbsent(parts[i], Comma);
      UpperKeepsAbsent(Trim(parts[i]), Comma);
    }
    tokens
  }

  /** Trimming never introduces a character. */
  lemma TrimKeepsAbsent(s: string, c: char)
    requires c !in s
    ensures c !in Trim(s)
  {
    TrimMargins(s);
  }

  /** Upper-casing never introduces a non-letter character. */
  lemma UpperKeepsAbsent(s: string, c: char)
    requires c !in s && !('A' <= c <= 'Z')
    ensures c !in Upper(s)
  {
  }

  /** Splitting the worked example `"sports, Music "` keeps the raw pieces. */
  lemma SplitExample()
    ensures Split("sports, Music ", Comma) == ["sports", " Music "]
  {
    var parts := ["sports", " Music "];
    assert Join(parts[1..], Comma) == " Music ";
    assert Join(parts, Comma) == "sports" + [Comma] + " Music ";
    assert "sports" + [Comma] + " Music " == "sports, Music ";
    SplitJoin(parts, Comma);
  }

  /** Trimming the first piece of the worked example leaves it alone. */
  lemma TrimExampleFirst()
    ensures Trim("sports") == "sports"
  {
    assert !IsWhitespace('s');
    assert TrimStart("sports") == "sports";
    assert TrimEnd("sports") == "sports";
  }

  /** Trimming the second piece of the worked example strips one space at each end. */
  lemma TrimExampleSecond()
    ensures Trim(" Music ") == "Music"
  {
    TrimStartExample();
    TrimEndExample();
  }

  lemma TrimStartExample()
    ensures TrimStart(" Music ") == "Music "
  {
    assert IsWhitespace(' ') && !IsWhitespace('M');
    assert " Music "[1..] == "Music ";
  }

  lemma TrimEndExample()
    ensures TrimEnd("Music ") == "Music"
  {
    assert IsWhitespace(' ') && !IsWhitespace('c');
    assert "Music "[..5] == "Music";
  }

  /** Upper-casing the two trimmed pieces of the worked example. */
  lemma UpperExample()
    ensures Upper("sports") == "SPORTS"
    ensures Upper("Music") == "MUSIC"
  {
  }

  /** The first token of the worked example on create. */
  lemma NormalizeExampleFirst()
    ensures |NormalizeOnCreate("sports, Music ")| == 2
    ensures NormalizeOnCreate("sports, Music ")[0] == "SPORTS"
  {
    SplitExample();
    TrimExampleFirst();
    UpperExample();
  }

  /** The second token of the worked example on create. */
  lemma NormalizeExampleSecond()
    ensures |NormalizeOnCreate("sports, Music ")| == 2
    ensures NormalizeOnCreate("sports, Music ")[1] == "MUSIC"
  {
    SplitExample();
    TrimExampleSecond();
    UpperExample();
  }

  /** The worked example on create: `"sports, Music "` becomes `["SPORTS", "MUSIC"]`. */
  lemma NormalizeExample()
    ensures NormalizeOnCreate("sports, Music ") == ["SPORTS", "MUSIC"]
  {
    NormalizeExampleFirst();
    NormalizeExampleSecond();
  }
}
