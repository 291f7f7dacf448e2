/** ASCII text helpers in the manner of Go's strings package. */
module Text {

  predicate IsSpace(c: char) { c == ' ' || ('\t' <= c <= '\r') }

  function LowerChar(c: char): char {
    if 'A' <= c <= 'Z' then (c as int + 32) as char else c
  }

  function Lower(s: string): (r: string)
    ensures |r| == |s|
  {
    seq(|s|, i requires 0 <= i < |s| => LowerChar(s[i]))
  }

  predicate Trimmed(s: string) { s != "" ==> !IsSpace(s[0]) && !IsSpace(s[|s| - 1]) }

  /** The text without leading and trailing white space. */
  function TrimSpace(s: string): (r: string)
    ensures Trimmed(r)
    decreases |s|
  {
    if s == "" then ""
    else if IsSpace(s[0]) then TrimSpace(s[1..])
    else if IsSpace(s[|s| - 1]) then TrimSpace(s[..|s| - 1])
    else s
  }

  predicate EqualFold(a: string, b: string) { Lower(a) == Lower(b) }

  lemma LowerTwice(s: string)
    ensures Lower(Lower(s)) == Lower(s)
  {
    assert forall i | 0 <= i < |s| :: Lower(s)[i] == LowerChar(s[i]);
  }

  /** Text that equals a trimmed text up to case is trimmed. */
  lemma FoldedIsTrimmed(s: string, trimmed: string)
    requires EqualFold(s, trimmed) && Trimmed(trimmed)
    ensures TrimSpace(s) == s
  {
    assert |s| == |Lower(s)| == |Lower(trimmed)| == |trimmed|;
    forall i | 0 <= i < |s| ensures IsSpace(s[i]) == IsSpace(trimmed[i]) {
      assert LowerChar(s[i]) == Lower(s)[i] == Lower(trimmed)[i] == LowerChar(trimmed[i]);
    }
  }

  function UpperChar(c: char): char {
    if 'a' <= c <= 'z' then (c as int - 32) as char else c
  }

  function Upper(s: string): (r: string)
    ensures |r| == |s|
  {
    seq(|s|, i requires 0 <= i < |s| => UpperChar(s[i]))
  }

  /** Exactly `n` capital letters. */
  predicate Capitals(s: string, n: nat) { |s| == n && forall i | 0 <= i < n :: 'A' <= s[i] <= 'Z' }

  lemma CapitalsAre(s: string, n: nat)
    ensures Capitals(s, n) <==> |s| == n && forall c <- s :: c in LARGE
  {
    forall c: char ensures 'A' <= c <= 'Z' <==> c in LARGE { IsLarge(c); }
    if Capitals(s, n) {
      forall c <- s ensures 'A' <= c <= 'Z' {
        var i :| 0 <= i < |s| && s[i] == c;
      }
    }
    assert forall i | 0 <= i < |s| :: s[i] in s;
  }

  lemma IsSmall(c: char)
    ensures 'a' <= c <= 'z' <==> c in SMALL
  {
    if 'a' <= c <= 'z' { assert SMALL[c as int - 'a' as int] == c; }
  }

  lemma IsLarge(c: char)
    ensures 'A' <= c <= 'Z' <==> c in LARGE
  {
    if 'A' <= c <= 'Z' { assert LARGE[c as int - 'A' as int] == c; }
  }

  lemma CapitalsAreTidy(s: string, n: nat)
    requires Capitals(s, n)
    ensures Upper(TrimSpace(s)) == s
  {}

  predicate IsHex(c: char) { '0' <= c <= '9' || 'a' <= c <= 'f' || 'A' <= c <= 'F' }

  /** The 36-character form of a UUID. */
  predicate IsUuid(s: string) {
    && |s| == 36
    && forall i | 0 <= i < 36 :: if i in {8, 13, 18, 23} then s[i] == '-' else IsHex(s[i])
  }

  // ----- characters and spaces -----

  const SMALL := "abcdefghijklmnopqrstuvwxyz"
  const LARGE := "ABCDEFGHIJKLMNOPQRSTUVWXYZ"

  /** Lower and upper case exchange the 26 letters one by one. */
  lemma CaseOfLetters(i: nat)
    requires i < 26
    ensures LowerChar(LARGE[i]) == SMALL[i] && UpperChar(SMALL[i]) == LARGE[i]
  {}

  /** They leave every other character. */
  lemma CaseOfOthers(c: char)
    ensures LowerChar(c) != c <==> c in LARGE
    ensures UpperChar(c) != c <==> c in SMALL
  {
    IsLarge(c);
    IsSmall(c);
  }

  predicate AllSpaces(s: string) { forall i | 0 <= i < |s| :: s[i] in " \t\n\U{000B}\U{000C}\r" }

  lemma SpacesAre(c: char)
    ensures IsSpace(c) <==> AllSpaces([c])
  {
    assert [c][0] == c;
  }

  /** The text is the trimmed text with these two ends around it. */
  predicate EndsAre(s: string, before: string, after: string) {
    s == before + TrimSpace(s) + after && AllSpaces(before) && AllSpaces(after)
  }

  /** Trimming takes nothing but white space off, from the two ends. */
  lemma {:induction false} TrimmedOff(s: string) returns (before: string, after: string)
    ensures EndsAre(s, before, after)
    decreases |s|
  {
    if s == "" {
      before, after := "", "";
    } else if IsSpace(s[0]) {
      var rest;
      rest, after := TrimmedOff(s[1..]);
      before := [s[0]] + rest;
      SpaceInFront(s, rest, after);
    } else if IsSpace(s[|s| - 1]) {
      var rest;
      before, rest := TrimmedOff(s[..|s| - 1]);
      after := rest + [s[|s| - 1]];
      SpaceBehind(s, before, rest);
    } else {
      before, after := "", "";
    }
  }

  lemma SpaceInFront(s: string, before: string, after: string)
    requires s != "" && IsSpace(s[0]) && EndsAre(s[1..], before, after)
    ensures EndsAre(s, [s[0]] + before, after)
  {
    SpacesAre(s[0]);
    assert s == [s[0]] + s[1..];
    assert [s[0]] + (before + TrimSpace(s) + after) == [s[0]] + before + TrimSpace(s) + after;
  }

  lemma SpaceBehind(s: string, before: string, after: string)
    requires s != "" && !IsSpace(s[0]) && IsSpace(s[|s| - 1]) && EndsAre(s[..|s| - 1], before, after)
    ensures EndsAre(s, before, after + [s[|s| - 1]])
  {
    var last := [s[|s| - 1]];
    SpacesAre(s[|s| - 1]);
    assert s == s[..|s| - 1] + last;
    assert before + TrimSpace(s) + after + last == before + TrimSpace(s) + (after + last);
  }

  lemma HexDigitsAre(c: char)
    ensures IsHex(c) <==> c in "0123456789abcdefABCDEF"
  {}

  // ----- numbers -----

  predicate AllDigits(s: string) { forall i | 0 <= i < |s| :: '0' <= s[i] <= '9' }

  function ParseDecimal(s: string): nat
    requires AllDigits(s)
  {
    if s == "" then 0 else ParseDecimal(s[..|s| - 1]) * 10 + (s[|s| - 1] as int - '0' as int)
  }

  function Decimal(n: nat): string {
    (if n < 10 then "" else Decimal(n / 10)) + [(('0' as int) + n % 10) as char]
  }

  /** A printed number reads back as itself and has no idle zero in front. */
  lemma {:induction false} DecimalRoundTrip(n: nat)
    ensures AllDigits(Decimal(n)) && Decimal(n) != "" && ParseDecimal(Decimal(n)) == n
    ensures n > 0 ==> Decimal(n)[0] != '0'
  {
    var last := [(('0' as int) + n % 10) as char];
    if n < 10 {
      assert Decimal(n) == last && last[..0] == "";
    } else {
      DecimalRoundTrip(n / 10);
      assert Decimal(n) == Decimal(n / 10) + last;
      assert Decimal(n)[..|Decimal(n)| - 1] == Decimal(n / 10);
    }
  }

  predicate AllHex(s: string) { forall i | 0 <= i < |s| :: IsHex(s[i]) }

  /** A UUID is five groups of 8, 4, 4, 4 and 12 hexadecimal digits, joined by hyphens. */
  lemma UuidsAre(a: string, b: string, c: string, d: string, e: string)
    requires |a| == 8 && |b| == |c| == |d| == 4 && |e| == 12
    ensures IsUuid(a + "-" + b + "-" + c + "-" + d + "-" + e) <==>
            AllHex(a) && AllHex(b) && AllHex(c) && AllHex(d) && AllHex(e)
  {
    var s := a + "-" + b + "-" + c + "-" + d + "-" + e;
    assert s[..8] == a && s[9..13] == b && s[14..18] == c && s[19..23] == d && s[24..] == e;
    assert s[8] == s[13] == s[18] == s[23] == '-';
    assert forall i | 0 <= i < 8 :: s[i] == a[i];
    assert forall i | 0 <= i < 4 :: s[9 + i] == b[i] && s[14 + i] == c[i] && s[19 + i] == d[i];
    assert forall i | 0 <= i < 12 :: s[24 + i] == e[i];
  }

  // ----- fields -----

  function SkipSpaces(s: string): (r: string)
    ensures |r| <= |s|
    ensures r != "" ==> !IsSpace(r[0])
  {
    if s == "" || !IsSpace(s[0]) then s else SkipSpaces(s[1..])
  }

  /** Length of the leading run without white space. */
  function WordLength(s: string): (n: nat)
    ensures n <= |s|
    ensures forall i | 0 <= i < n :: !IsSpace(s[i])
    ensures n < |s| ==> IsSpace(s[n])
  {
    if s == "" || IsSpace(s[0]) then 0 else 1 + WordLength(s[1..])
  }

  predicate IsWord(w: string) { w != "" && forall i | 0 <= i < |w| :: !IsSpace(w[i]) }

  function Fields(s: string): (words: seq<string>)
    ensures forall k | 0 <= k < |words| :: IsWord(words[k])
    decreases |s|
  {
    var t := SkipSpaces(s);
    if t == "" then []
    else
      var n := WordLength(t);
      assert n > 0;
      [t[..n]] + Fields(t[n..])
  }

  /** The words with one space between each two. */
  function JoinSpaced(words: seq<string>): string {
    if words == [] then ""
    else if |words| == 1 then words[0]
    else words[0] + " " + JoinSpaced(words[1..])
  }

  function LowerAll(words: seq<string>): (r: seq<string>)
    ensures |r| == |words|
  {
    seq(|words|, k requires 0 <= k < |words| => Lower(words[k]))
  }

  lemma FieldsSkipsSpace(s: string)
    ensures Fields(" " + s) == Fields(s)
  {}

  lemma {:induction false} FieldsOfJoin(words: seq<string>)
    requires forall k | 0 <= k < |words| :: IsWord(words[k])
    ensures Fields(JoinSpaced(words)) == words
  {
    if words != [] {
      var w, rest := words[0], words[1..];
      assert forall k | 0 <= k < |rest| :: rest[k] == words[k + 1];
      FieldsOfJoin(rest);
      var tail := if rest == [] then "" else " " + JoinSpaced(rest);
      assert JoinSpaced(words) == w + tail;
      FirstWord(w, tail);
      if rest != [] { FieldsSkipsSpace(JoinSpaced(rest)); }
      assert words == [w] + rest;
    }
  }

  lemma FirstWord(w: string, tail: string)
    requires IsWord(w) && (tail != "" ==> IsSpace(tail[0]))
    ensures Fields(w + tail) == [w] + Fields(tail)
  {
    WordLengthOf(w, tail);
    assert SkipSpaces(w + tail) == w + tail;
    assert (w + tail)[..|w|] == w && (w + tail)[|w|..] == tail;
  }

  lemma {:induction false} WordLengthOf(w: string, tail: string)
    requires IsWord(w) && (tail == "" || IsSpace(tail[0]))
    ensures WordLength(w + tail) == |w|
  {
    assert WordLength(w + tail) <= |w| by {
      if tail == "" { assert w + tail == w; } else { assert (w + tail)[|w|] == tail[0]; }
    }
    assert forall i | 0 <= i < |w| :: (w + tail)[i] == w[i];
  }

  lemma {:induction false} LowerOfJoin(words: seq<string>)
    ensures Lower(JoinSpaced(words)) == JoinSpaced(LowerAll(words))
  {
    if |words| == 1 {
      assert LowerAll(words) == [Lower(words[0])];
    } else if |words| > 1 {
      LowerOfJoin(words[1..]);
      assert LowerAll(words)[1..] == LowerAll(words[1..]);
      var rest := JoinSpaced(words[1..]);
      assert Lower(words[0] + " " + rest) == Lower(words[0]) + " " + Lower(rest);
    }
  }

  /** Squeezing white space and lowering the case a second time changes nothing. */
  lemma LowerFieldsTwice(s: string)
    ensures var key := Lower(JoinSpaced(Fields(s))); Lower(JoinSpaced(Fields(key))) == key
  {
    var words := LowerAll(Fields(s));
    LowerOfJoin(Fields(s));
    forall k | 0 <= k < |words| ensures IsWord(words[k]) && Lower(words[k]) == words[k] {
      var w := Fields(s)[k];
      assert IsWord(w) && words[k] == Lower(w);
      forall i | 0 <= i < |w| ensures !IsSpace(Lower(w)[i]) { assert !IsSpace(w[i]); }
      LowerTwice(w);
    }
    FieldsOfJoin(words);
    LowerOfJoin(words);
    assert LowerAll(words) == words;
  }
}
