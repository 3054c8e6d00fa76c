/** The JavaScript string operations the site's editors and terminal rely on:
    `trim`, `split(',')`, `join(', ')`, `toLowerCase` and the regular-expression
    class `\s`. */
module JsText {

  /** ECMAScript WhiteSpace and LineTerminator code points: what
      `String.prototype.trim` strips and what `\s` matches. */
  predicate IsSpace(c: char) {
    c == '\U{0009}' || c == '\U{000A}' || c == '\U{000B}' || c == '\U{000C}' || c == '\U{000D}'
    || c == ' ' || c == '\U{00A0}' || c == '\U{1680}' || ('\U{2000}' <= c <= '\U{200A}')
    || c == '\U{2028}' || c == '\U{2029}' || c == '\U{202F}' || c == '\U{205F}'
    || c == '\U{3000}' || c == '\U{FEFF}'
  }

  predicate AllSpace(s: string) {
    forall i :: 0 <= i < |s| ==> IsSpace(s[i])
  }

  /** Neither end of `s` is white space (what `trim` leaves behind). */
  predicate IsTrimmed(s: string) {
    s == [] || (!IsSpace(s[0]) && !IsSpace(s[|s| - 1]))
  }

  /** `r` is `s` with a white-space prefix and a white-space suffix cut off. */
  ghost predicate IsInfixBetweenSpaces(r: string, s: string) {
    exists i, j :: 0 <= i <= j <= |s| && r == s[i..j] && AllSpace(s[..i]) && AllSpace(s[j..])
  }

  /** `String.prototype.trimStart`. */
  function TrimStart(s: string): (r: string)
    ensures |r| <= |s| && r == s[|s| - |r|..]
    ensures AllSpace(s[..|s| - |r|])
    ensures r == [] || !IsSpace(r[0])
  {
    if s != [] && IsSpace(s[0]) then
      var r := TrimStart(s[1..]);
      assert s[..|s| - |r|] == [s[0]] + s[1..][..|s| - 1 - |r|];
      r
    else
      s
  }

  /** `String.prototype.trimEnd`. */
  function TrimEnd(s: string): (r: string)
    ensures |r| <= |s| && r == s[..|r|]
    ensures AllSpace(s[|r|..])
    ensures r == [] || !IsSpace(r[|r| - 1])
  {
    if s != [] && IsSpace(s[|s| - 1]) then
      var r := TrimEnd(s[..|s| - 1]);
      assert s[|r|..] == s[..|s| - 1][|r|..] + [s[|s| - 1]];
      r
    else
      s
  }

  /** `String.prototype.trim`: the longest infix of `s` between a white-space
      prefix and a white-space suffix whose ends are not white space. */
  function Trim(s: string): (r: string)
    ensures IsTrimmed(r)
    ensures IsInfixBetweenSpaces(r, s)
  {
    var t := TrimStart(s);
    var r := TrimEnd(t);
    var i := |s| - |t|;
    assert r == s[i..i + |r|];
    assert s[i + |r|..] == t[|r|..];
    assert r != [] ==> r[0] == t[0];
    r
  }

  /** A string is its own trim exactly when neither of its ends is white space. */
  lemma TrimFixedPoint(s: string)
    ensures Trim(s) == s <==> IsTrimmed(s)
  {
    if IsTrimmed(s) {
      assert TrimStart(s) == s;
      assert TrimEnd(s) == s;
    }
  }

  /** Trimming twice is trimming once. */
  lemma TrimIdempotent(s: string)
    ensures Trim(Trim(s)) == Trim(s)
  {
    TrimFixedPoint(Trim(s));
  }

  /** Number of occurrences of `c` in `s`. */
  function Count(s: string, c: char): nat {
    if s == [] then 0 else (if s[0] == c then 1 else 0) + Count(s[1..], c)
  }

  /** `s.split(sep)` for a one-character separator: the pieces between the
      separators, so there is always one more piece than separators. */
  function Split(s: string, sep: char): (r: seq<string>)
    ensures |r| == Count(s, sep) + 1
    ensures forall i :: 0 <= i < |r| ==> sep !in r[i]
  {
    if s == [] then [[]]
    else
      var rest := Split(s[1..], sep);
      if s[0] == sep then [[]] + rest else [[s[0]] + rest[0]] + rest[1..]
  }

  /** `parts.join(sep)`. */
  function Join(parts: seq<string>, sep: string): string {
    if parts == [] then []
    else if |parts| == 1 then parts[0]
    else parts[0] + sep + Join(parts[1..], sep)
  }

  lemma {:induction false} JoinPrefixFirst(x: string, parts: seq<string>, sep: string)
    requires parts != []
    ensures Join([x + parts[0]] + parts[1..], sep) == x + Join(parts, sep)
  {
    var ps := [x + parts[0]] + parts[1..];
    assert ps[1..] == parts[1..];
  }

  /** Splitting and joining back with the same separator gives the original text. */
  lemma {:induction false} JoinSplit(s: string, sep: char)
    ensures Join(Split(s, sep), [sep]) == s
    decreases |s|
  {
    if s != [] {
      var rest := Split(s[1..], sep);
      JoinSplit(s[1..], sep);
      if s[0] == sep {
        assert ([[]] + rest)[1..] == rest;
      } else {
        JoinPrefixFirst([s[0]], rest, [sep]);
      }
    }
  }

  lemma {:induction false} SplitWithoutSeparator(a: string, sep: char)
    requires sep !in a
    ensures Split(a, sep) == [a]
  {
    if a != [] {
      SplitWithoutSeparator(a[1..], sep);
      assert [a[0]] + a[1..] == a;
    }
  }

  lemma {:induction false} SplitAfterFirstPiece(a: string, b: string, sep: char)
    requires sep !in a
    ensures Split(a + [sep] + b, sep) == [a] + Split(b, sep)
  {
    var s := a + [sep] + b;
    if a == [] {
      assert s[1..] == b;
    } else {
      assert s[1..] == a[1..] + [sep] + b;
      SplitAfterFirstPiece(a[1..], b, sep);
      assert [a[0]] + a[1..] == a;
    }
  }

  /** Joining separator-free pieces and splitting again gives the pieces back. */
  lemma {:induction false} SplitJoin(parts: seq<string>, sep: char)
    requires parts != []
    requires forall i :: 0 <= i < |parts| ==> sep !in parts[i]
    ensures Split(Join(parts, [sep]), sep) == parts
  {
    if |parts| == 1 {
      SplitWithoutSeparator(parts[0], sep);
    } else {
      SplitJoin(parts[1..], sep);
      SplitAfterFirstPiece(parts[0], Join(parts[1..], [sep]), sep);
      assert [parts[0]] + parts[1..] == parts;
    }
  }

  /** `text.split(',').map(s => s.trim())`, the parser of the comma-separated
      skill-item and project-tag fields. */
  function SplitTrimmed(text: string): (r: seq<string>)
    ensures |r| == Count(text, ',') + 1
    ensures forall i :: 0 <= i < |r| ==> IsTrimmed(r[i]) && ',' !in r[i]
    ensures forall i :: 0 <= i < |r| ==> IsInfixBetweenSpaces(r[i], Split(text, ',')[i])
  {
    var parts := Split(text, ',');
    seq(|parts|, i requires 0 <= i < |parts| => Trim(parts[i]))
  }

  /** Clearing the field yields one empty entry, not an empty list. */
  lemma SplitTrimmedOfEmpty()
    ensures SplitTrimmed("") == [""]
  {
    assert Split("", ',') == [""];
  }

  lemma {:induction false} SplitShownList(items: seq<string>)
    requires items != []
    requires forall i :: 0 <= i < |items| ==> ',' !in items[i]
    ensures |Split(Join(items, ", "), ',')| == |items|
    ensures Split(Join(items, ", "), ',')[0] == items[0]
    ensures forall k :: 1 <= k < |items| ==> Split(Join(items, ", "), ',')[k] == " " + items[k]
  {
    if |items| == 1 {
      SplitWithoutSeparator(items[0], ',');
    } else {
      var tail := Join(items[1..], ", ");
      SplitShownList(items[1..]);
      assert Join(items, ", ") == items[0] + [','] + (" " + tail);
      SplitAfterFirstPiece(items[0], " " + tail, ',');
      assert (" " + tail)[1..] == tail;
    }
  }

  lemma TrimAfterOneSpace(p: string)
    requires IsTrimmed(p)
    ensures Trim(" " + p) == p
  {
    var s := " " + p;
    assert s[0] == ' ' && s[1..] == p;
    assert TrimStart(p) == p;
    assert TrimStart(s) == p;
    assert TrimEnd(p) == p;
  }

  lemma SplitTrimmedAt(text: string)
    ensures |SplitTrimmed(text)| == |Split(text, ',')|
    ensures forall i :: 0 <= i < |Split(text, ',')| ==> SplitTrimmed(text)[i] == Trim(Split(text, ',')[i])
  {
  }

  /** The editors show a list as `items.join(', ')` and parse every edit back with
      SplitTrimmed: a list of trimmed, comma-free entries survives that round trip. */
  lemma {:induction false} ShownListRoundTrip(items: seq<string>)
    requires items != []
    requires forall i :: 0 <= i < |items| ==> IsTrimmed(items[i]) && ',' !in items[i]
    ensures SplitTrimmed(Join(items, ", ")) == items
  {
    var text := Join(items, ", ");
    SplitShownList(items);
    SplitTrimmedAt(text);
    var r := SplitTrimmed(text);
    forall k | 0 <= k < |items|
      ensures r[k] == items[k]
    {
      if k == 0 {
        TrimFixedPoint(items[0]);
      } else {
        TrimAfterOneSpace(items[k]);
      }
    }
  }

  /** `toLowerCase` on one character; only the ASCII letters are modelled. */
  function LowerChar(c: char): char {
    if 'A' <= c <= 'Z' then (c as int + 32) as char else c
  }

  predicate IsUpper(c: char) {
    'A' <= c <= 'Z'
  }

  /** `toLowerCase`. */
  function ToLower(s: string): (r: string)
    ensures |r| == |s|
  {
    seq(|s|, i requires 0 <= i < |s| => LowerChar(s[i]))
  }

  /** `toLowerCase` keeps the length, leaves no upper-case letter, and keeps
      every other character, white space in particular. */
  lemma ToLowerFacts(s: string)
    ensures |ToLower(s)| == |s|
    ensures forall i :: 0 <= i < |s| ==> !IsUpper(ToLower(s)[i])
    ensures forall i :: 0 <= i < |s| && !IsUpper(s[i]) ==> ToLower(s)[i] == s[i]
    ensures forall i :: 0 <= i < |s| ==> (IsSpace(ToLower(s)[i]) <==> IsSpace(s[i]))
  {
  }

  lemma {:induction false} TrimStartLower(s: string)
    ensures TrimStart(ToLower(s)) == ToLower(TrimStart(s))
    decreases |s|
  {
    ToLowerFacts(s);
    if s != [] && IsSpace(s[0]) {
      assert ToLower(s)[1..] == ToLower(s[1..]);
      TrimStartLower(s[1..]);
    }
  }

  lemma {:induction false} TrimEndLower(s: string)
    ensures TrimEnd(ToLower(s)) == ToLower(TrimEnd(s))
    decreases |s|
  {
    ToLowerFacts(s);
    if s != [] && IsSpace(s[|s| - 1]) {
      assert ToLower(s)[..|s| - 1] == ToLower(s[..|s| - 1]);
      TrimEndLower(s[..|s| - 1]);
    }
  }

  /** Lower-casing does not touch white space, so it commutes with trimming; in
      particular a line is blank after lower-casing exactly when it was blank. */
  lemma TrimLowerCommute(s: string)
    ensures Trim(ToLower(s)) == ToLower(Trim(s))
    ensures Trim(ToLower(s)) == [] <==> Trim(s) == []
  {
    TrimStartLower(s);
    TrimEndLower(TrimStart(s));
  }
}
