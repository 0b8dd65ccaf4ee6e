/** Text helpers shared by the front end and the back end: ECMAScript `trim`,
    `split` / `join` (the same semantics as Python's `str.split` for a non-empty
    separator), prefix and substring tests, and the comma-list parsing that the
    profile forms and the video-upload tag field all use. */
module Text {

  /** ECMAScript WhiteSpace and LineTerminator code points: what `String.prototype.trim` strips. */
  predicate IsSpace(c: char) {
    || c == '\t' || c == '\n' || c == '\U{000B}' || c == '\U{000C}' || c == '\r'
    || c == ' ' || c == '\U{00A0}' || c == '\U{1680}'
    || ('\U{2000}' <= c <= '\U{200A}')
    || c == '\U{2028}' || c == '\U{2029}' || c == '\U{202F}' || c == '\U{205F}'
    || c == '\U{3000}' || c == '\U{FEFF}'
  }

  /** Python's white space (`str.isspace`): what `str.strip` strips. It adds the
      four information separators and NEL to the ECMAScript set and leaves out
      the byte-order mark. */
  predicate IsPySpace(c: char) {
    || ('\t' <= c <= '\r') || ('\U{001C}' <= c <= '\U{001F}')
    || c == ' ' || c == '\U{0085}' || c == '\U{00A0}' || c == '\U{1680}'
    || ('\U{2000}' <= c <= '\U{200A}')
    || c == '\U{2028}' || c == '\U{2029}' || c == '\U{202F}' || c == '\U{205F}'
    || c == '\U{3000}'
  }

  /** `t` occurs in `s` starting at index `k`. */
  predicate OccursAt(s: string, t: string, k: int) {
    0 <= k <= |s| - |t| && s[k..k + |t|] == t
  }

  /** `r` sits at index `k` of `s` with only `space` characters around it. */
  predicate Padded(s: string, r: string, k: int, space: char -> bool) {
    && OccursAt(s, r, k)
    && (forall i :: 0 <= i < k ==> space(s[i]))
    && (forall i :: k + |r| <= i < |s| ==> space(s[i]))
  }

  /** The index of the first character at or after `i` that is not a `space`
      one, or `|s|` when there is none. */
  function SkipStart(s: string, space: char -> bool, i: nat): (k: nat)
    requires i <= |s|
    ensures i <= k <= |s|
    ensures k < |s| ==> !space(s[k])
    decreases |s| - i
  {
    if i < |s| && space(s[i]) then SkipStart(s, space, i + 1) else i
  }

  /** The index just past the last character before `j` and at or after `lo`
      that is not a `space` one, or `lo` when there is none. */
  function SkipEnd(s: string, space: char -> bool, lo: nat, j: nat): (e: nat)
    requires lo <= j <= |s|
    ensures lo <= e <= j
    ensures e > lo ==> !space(s[e - 1])
  {
    if j > lo && space(s[j - 1]) then SkipEnd(s, space, lo, j - 1) else j
  }

  lemma {:induction false} SkipStartSkipsSpace(s: string, space: char -> bool, i: nat)
    requires i <= |s|
    ensures forall m :: i <= m < SkipStart(s, space, i) ==> space(s[m])
    decreases |s| - i
  {
    if i < |s| && space(s[i]) {
      SkipStartSkipsSpace(s, space, i + 1);
    }
  }

  lemma {:induction false} SkipEndSkipsSpace(s: string, space: char -> bool, lo: nat, j: nat)
    requires lo <= j <= |s|
    ensures forall m :: SkipEnd(s, space, lo, j) <= m < j ==> space(s[m])
  {
    if j > lo && space(s[j - 1]) {
      SkipEndSkipsSpace(s, space, lo, j - 1);
    }
  }

  /** In a string of `space` characters only, the start skips to the end. */
  lemma {:induction false} SkipStartAllSpace(s: string, space: char -> bool, i: nat)
    requires i <= |s|
    requires forall m :: i <= m < |s| ==> space(s[m])
    ensures SkipStart(s, space, i) == |s|
    decreases |s| - i
  {
    if i < |s| {
      SkipStartAllSpace(s, space, i + 1);
    }
  }

  /** `s` without its leading and trailing `space` characters. */
  function Strip(s: string, space: char -> bool): string {
    var k := SkipStart(s, space, 0);
    s[k..SkipEnd(s, space, k, |s|)]
  }

  /** What is left neither starts nor ends with a `space` character, and only
      such characters surround it (so it is empty only when the whole string
      consists of them). */
  lemma StripPadded(s: string, space: char -> bool)
    ensures var r := Strip(s, space);
      && (r == [] || (!space(r[0]) && !space(r[|r| - 1])))
      && Padded(s, r, SkipStart(s, space, 0), space)
  {
    var k := SkipStart(s, space, 0);
    SkipStartSkipsSpace(s, space, 0);
    SkipEndSkipsSpace(s, space, k, |s|);
  }

  /** A string with no white space at either end. */
  predicate IsTrimmed(s: string) {
    s == [] || (!IsSpace(s[0]) && !IsSpace(s[|s| - 1]))
  }

  /** `s.trim()`: only white space is removed, from both ends and all of it. */
  function Trim(s: string): (r: string)
    ensures IsTrimmed(r)
    ensures |r| <= |s|
    ensures exists k :: Padded(s, r, k, IsSpace)
  {
    StripPadded(s, IsSpace);
    Strip(s, IsSpace)
  }

  /** Python's `s.strip()`, as a Django REST framework `CharField` applies it. */
  function PyStrip(s: string): (r: string)
    ensures r == [] || (!IsPySpace(r[0]) && !IsPySpace(r[|r| - 1]))
    ensures exists k :: Padded(s, r, k, IsPySpace)
  {
    StripPadded(s, IsPySpace);
    Strip(s, IsPySpace)
  }

  /** A string that trims to nothing consists of white space only. */
  predicate IsBlank(s: string) {
    Trim(s) == []
  }

  lemma BlankIffAllSpace(s: string)
    ensures IsBlank(s) <==> forall i :: 0 <= i < |s| ==> IsSpace(s[i])
  {
    var k :| Padded(s, Trim(s), k, IsSpace);
    if Trim(s) != [] {
      assert s[k] == Trim(s)[0];
    }
  }

  /** Trimming an already trimmed string changes nothing. */
  lemma TrimmedIsFixpoint(s: string)
    requires IsTrimmed(s)
    ensures Trim(s) == s
  {
    var r := Trim(s);
    var k :| Padded(s, r, k, IsSpace);
    if s != [] {
      assert !IsSpace(s[0]) && !IsSpace(s[|s| - 1]);
    }
  }

  /** Trimming is idempotent. */
  lemma TrimIdempotent(s: string)
    ensures Trim(Trim(s)) == Trim(s)
  {
    TrimmedIsFixpoint(Trim(s));
  }

  /** A leading space in front of a trimmed word is stripped again. */
  lemma TrimSpaceThenWord(x: string)
    requires IsTrimmed(x)
    ensures Trim(" " + x) == x
  {
    assert (" " + x)[1..] == x;
  }

  predicate StartsWith(s: string, prefix: string) {
    |prefix| <= |s| && s[..|prefix|] == prefix
  }

  /** `s.includes(t)`: `t` occurs as a contiguous piece of `s`. */
  predicate Includes(s: string, t: string)
    decreases |s|
  {
    StartsWith(s, t) || (s != [] && Includes(s[1..], t))
  }

  lemma IncludesEmpty(s: string)
    ensures Includes(s, "")
  {
  }

  lemma {:induction false} IncludesWitness(s: string, t: string)
    requires Includes(s, t)
    ensures exists k :: OccursAt(s, t, k)
    decreases |s|
  {
    if StartsWith(s, t) {
      assert OccursAt(s, t, 0);
    } else {
      IncludesWitness(s[1..], t);
      var k :| OccursAt(s[1..], t, k);
      assert s[1..][k..k + |t|] == s[k + 1..k + 1 + |t|];
      assert OccursAt(s, t, k + 1);
    }
  }

  /** `s.split(sep)` for a non-empty separator: the pieces between successive
      non-overlapping occurrences of `sep`, scanning from the left. */
  function SplitOn(s: string, sep: string): (r: seq<string>)
    requires sep != []
    ensures |r| >= 1
    decreases |s|
  {
    if |s| < |sep| then [s]
    else if s[..|sep|] == sep then [""] + SplitOn(s[|sep|..], sep)
    else
      var rest := SplitOn(s[1..], sep);
      [[s[0]] + rest[0]] + rest[1..]
  }

  /** `parts.join(sep)`. */
  function JoinWith(parts: seq<string>, sep: string): string
  {
    if parts == [] then ""
    else if |parts| == 1 then parts[0]
    else parts[0] + sep + JoinWith(parts[1..], sep)
  }

  /** Splitting then joining with the same separator gives the input back. */
  lemma {:induction false} JoinSplit(s: string, sep: string)
    requires sep != []
    ensures JoinWith(SplitOn(s, sep), sep) == s
    decreases |s|
  {
    if |s| < |sep| {
      assert SplitOn(s, sep) == [s];
    } else if s[..|sep|] == sep {
      var rest := SplitOn(s[|sep|..], sep);
      JoinSplit(s[|sep|..], sep);
      JoinCons("", rest, sep);
      assert SplitOn(s, sep) == [""] + rest;
      assert s == sep + s[|sep|..];
    } else {
      var rest := SplitOn(s[1..], sep);
      JoinSplit(s[1..], sep);
      JoinExtendHead(s[0], rest, sep);
      assert SplitOn(s, sep) == [[s[0]] + rest[0]] + rest[1..];
      assert s == [s[0]] + s[1..];
    }
  }

  lemma JoinCons(p: string, rest: seq<string>, sep: string)
    requires |rest| >= 1
    ensures JoinWith([p] + rest, sep) == p + sep + JoinWith(rest, sep)
  {
    assert ([p] + rest)[1..] == rest;
  }

  /** Putting a character in front of the first part puts it in front of the joined text. */
  lemma JoinExtendHead(c: char, rest: seq<string>, sep: string)
    requires |rest| >= 1
    ensures JoinWith([[c] + rest[0]] + rest[1..], sep) == [c] + JoinWith(rest, sep)
  {
    if |rest| > 1 {
      JoinCons([c] + rest[0], rest[1..], sep);
      assert rest == [rest[0]] + rest[1..];
      JoinCons(rest[0], rest[1..], sep);
    }
  }

  /** With a one-character separator no piece contains that character. */
  lemma {:induction false} SplitPiecesFree(s: string, c: char)
    ensures forall p :: p in SplitOn(s, [c]) ==> c !in p
    decreases |s|
  {
    if |s| < 1 {
    } else if s[..1] == [c] {
      SplitPiecesFree(s[1..], c);
    } else {
      SplitPiecesFree(s[1..], c);
      var rest := SplitOn(s[1..], [c]);
      assert rest[0] in rest;
      assert s[0] != c by { assert s[..1][0] == s[0]; }
      forall p | p in rest[1..] ensures p in rest {
        var i :| 0 <= i < |rest[1..]| && rest[1..][i] == p;
        assert rest[i + 1] == p;
      }
    }
  }

  /** With a one-character separator there is exactly one piece iff the character is absent. */
  lemma {:induction false} SplitSingleIffAbsent(s: string, c: char)
    ensures |SplitOn(s, [c])| == 1 <==> c !in s
    decreases |s|
  {
    if |s| < 1 {
    } else if s[..1] == [c] {
      assert s[0] == s[..1][0];
      assert |SplitOn(s, [c])| >= 2;
    } else {
      assert s[0] == s[..1][0];
      SplitSingleIffAbsent(s[1..], c);
      assert s == [s[0]] + s[1..];
    }
  }

  /** Splitting a string that does not contain the separator character gives it back whole. */
  lemma SplitAbsent(s: string, c: char)
    requires c !in s
    ensures SplitOn(s, [c]) == [s]
  {
    SplitSingleIffAbsent(s, c);
    JoinSplit(s, [c]);
  }

  /** Cutting at the first occurrence of the separator character. */
  lemma {:induction false} SplitAtFirst(a: string, c: char, b: string)
    requires c !in a
    ensures SplitOn(a + [c] + b, [c]) == [a] + SplitOn(b, [c])
    decreases |a|
  {
    var s := a + [c] + b;
    if a == [] {
      assert s[..1] == [c];
      assert s[1..] == b;
    } else {
      assert s[..1] != [c] by { assert s[..1][0] == a[0]; }
      assert s[1..] == a[1..] + [c] + b;
      SplitAtFirst(a[1..], c, b);
      assert [s[0]] + a[1..] == a;
    }
  }

  /** Cutting at the last occurrence of the separator character. */
  lemma {:induction false} SplitAtLast(a: string, c: char, b: string)
    requires c !in b
    ensures SplitOn(a + [c] + b, [c]) == SplitOn(a, [c]) + [b]
    decreases |a|
  {
    var s := a + [c] + b;
    if a == [] {
      SplitAtFirst(a, c, b);
      SplitAbsent(b, c);
    } else if a[0] == c {
      assert s[..1] == [c];
      assert s[1..] == a[1..] + [c] + b;
      assert a[..1] == [c];
      SplitAtLast(a[1..], c, b);
    } else {
      assert s == [a[0]] + (a[1..] + [c] + b);
      SplitCons(a[0], a[1..] + [c] + b, c);
      SplitAtLast(a[1..], c, b);
      assert a == [a[0]] + a[1..];
      SplitCons(a[0], a[1..], c);
    }
  }

  /** A string that does not contain the separator splits into itself. */
  lemma {:induction false} SplitWithoutSep(s: string, sep: string)
    requires sep != [] && !Includes(s, sep)
    ensures SplitOn(s, sep) == [s]
    decreases |s|
  {
    if |s| >= |sep| {
      SplitWithoutSep(s[1..], sep);
      assert [s[0]] + s[1..] == s;
    }
  }

  /** Cutting at a separator whose first character does not occur before it. */
  lemma {:induction false} SplitAtFirstSep(a: string, sep: string, b: string)
    requires sep != [] && sep[0] !in a
    ensures SplitOn(a + sep + b, sep) == [a] + SplitOn(b, sep)
    decreases |a|
  {
    var s := a + sep + b;
    if a == [] {
      assert s[..|sep|] == sep;
      assert s[|sep|..] == b;
    } else {
      assert s[..|sep|] != sep by { assert s[..|sep|][0] == a[0]; }
      assert s[1..] == a[1..] + sep + b;
      SplitAtFirstSep(a[1..], sep, b);
      assert [s[0]] + a[1..] == a;
    }
  }

  /** A leading character other than the separator joins the first piece. */
  lemma SplitCons(x: char, s: string, c: char)
    requires x != c
    ensures var rest := SplitOn(s, [c]);
            SplitOn([x] + s, [c]) == [[x] + rest[0]] + rest[1..]
  {
    var t := [x] + s;
    assert t[..1] != [c] by { assert t[..1][0] == x; }
    assert t[1..] == s;
  }

  /** Each later element prefixed by one space: what `join(", ")` leaves after a split on ",". */
  function SpaceEach(xs: seq<string>): (r: seq<string>)
    ensures |r| == |xs|
    ensures forall i :: 0 <= i < |xs| ==> r[i] == " " + xs[i]
  {
    if xs == [] then [] else [" " + xs[0]] + SpaceEach(xs[1..])
  }

  lemma {:induction false} SplitJoinedComma(xs: seq<string>)
    requires xs != []
    requires forall i :: 0 <= i < |xs| ==> ',' !in xs[i]
    ensures SplitOn(JoinWith(xs, ", "), [',']) == [xs[0]] + SpaceEach(xs[1..])
  {
    if |xs| == 1 {
      SplitAbsent(xs[0], ',');
    } else {
      var tail := JoinWith(xs[1..], ", ");
      assert JoinWith(xs, ", ") == xs[0] + [','] + ([' '] + tail);
      SplitAtFirst(xs[0], ',', [' '] + tail);
      SplitJoinedComma(xs[1..]);
      SplitCons(' ', tail, ',');
      assert xs[1..][1..] == xs[2..];
    }
  }

  lemma TrimmedCons(t: string, rest: seq<string>)
    requires t != [] && IsTrimmed(t)
    requires forall i :: 0 <= i < |rest| ==> rest[i] != [] && IsTrimmed(rest[i])
    ensures forall i :: 0 <= i < |[t] + rest| ==> ([t] + rest)[i] != [] && IsTrimmed(([t] + rest)[i])
  {
    forall i | 0 <= i < |[t] + rest|
      ensures ([t] + rest)[i] != [] && IsTrimmed(([t] + rest)[i])
    {
      if i > 0 {
        assert ([t] + rest)[i] == rest[i - 1];
      }
    }
  }

  /** Each piece trimmed, empty pieces dropped: the `.map(s => s.trim()).filter(s => s)` chain. */
  function TrimNonEmpty(pieces: seq<string>): (r: seq<string>)
    ensures |r| <= |pieces|
    ensures forall i :: 0 <= i < |r| ==> r[i] != [] && IsTrimmed(r[i])
  {
    if pieces == [] then []
    else
      var t := Trim(pieces[0]);
      var rest := TrimNonEmpty(pieces[1..]);
      if t == [] then rest
      else
        TrimmedCons(t, rest);
        [t] + rest
  }

  /** `s.split(",").map(t => t.trim()).filter(t => t)`. */
  function ParseCommaList(s: string): (r: seq<string>)
    ensures forall i :: 0 <= i < |r| ==> r[i] != [] && IsTrimmed(r[i]) && ',' !in r[i]
  {
    var pieces := SplitOn(s, [',']);
    SplitPiecesFree(s, ',');
    TrimNonEmptyKeepsAbsent(pieces, ',');
    TrimNonEmpty(pieces)
  }

  /** An empty text holds no items. */
  lemma ParseEmptyList()
    ensures ParseCommaList("") == []
  {
    assert SplitOn("", [',']) == [""];
    assert Trim("") == [];
    assert TrimNonEmpty([""]) == [];
  }

  lemma {:induction false} TrimNonEmptyKeepsAbsent(pieces: seq<string>, c: char)
    requires forall p :: p in pieces ==> c !in p
    ensures forall i :: 0 <= i < |TrimNonEmpty(pieces)| ==> c !in TrimNonEmpty(pieces)[i]
  {
    if pieces != [] {
      assert pieces[0] in pieces;
      TrimKeepsAbsent(pieces[0], c);
      assert forall p :: p in pieces[1..] ==> p in pieces;
      TrimNonEmptyKeepsAbsent(pieces[1..], c);
      var t, rest := Trim(pieces[0]), TrimNonEmpty(pieces[1..]);
      if t != [] {
        assert TrimNonEmpty(pieces) == [t] + rest;
        forall i | 0 <= i < |[t] + rest| ensures c !in ([t] + rest)[i] {
          if i > 0 {
            assert ([t] + rest)[i] == rest[i - 1];
          }
        }
      }
    }
  }

  /** Trimming adds no character. */
  lemma TrimKeepsAbsent(s: string, c: char)
    requires c !in s
    ensures c !in Trim(s)
  {
    var t := Trim(s);
    var k :| Padded(s, t, k, IsSpace);
    forall j | 0 <= j < |t| ensures t[j] != c {
      assert t[j] == s[k + j];
    }
  }

  /** A well-formed item: non-empty, trimmed and free of commas. */
  predicate IsListItem(x: string) {
    x != [] && IsTrimmed(x) && ',' !in x
  }

  lemma {:induction false} TrimNonEmptySpaced(xs: seq<string>)
    requires forall i :: 0 <= i < |xs| ==> IsListItem(xs[i])
    ensures TrimNonEmpty(SpaceEach(xs)) == xs
  {
    if xs != [] {
      TrimSpaceThenWord(xs[0]);
      assert SpaceEach(xs)[1..] == SpaceEach(xs[1..]);
      TrimNonEmptySpaced(xs[1..]);
    }
  }

  /** Joining well-formed items with ", " and parsing the result back gives the items again. */
  lemma {:induction false} CommaListRoundTrip(xs: seq<string>)
    requires forall i :: 0 <= i < |xs| ==> IsListItem(xs[i])
    ensures ParseCommaList(JoinWith(xs, ", ")) == xs
  {
    if xs == [] {
      ParseEmptyList();
    } else {
      var pieces := [xs[0]] + SpaceEach(xs[1..]);
      SplitJoinedComma(xs);
      assert SplitOn(JoinWith(xs, ", "), [',']) == pieces;
      TrimmedIsFixpoint(xs[0]);
      TrimNonEmptySpaced(xs[1..]);
      assert pieces[1..] == SpaceEach(xs[1..]);
      assert TrimNonEmpty(pieces) == [xs[0]] + TrimNonEmpty(pieces[1..]);
      assert [xs[0]] + xs[1..] == xs;
    }
  }

  predicate EndsWith(s: string, suffix: string) {
    |suffix| <= |s| && s[|s| - |suffix|..] == suffix
  }

  /** A join ends with its last part. */
  lemma {:induction false} JoinEndsWithLast(parts: seq<string>, sep: string)
    requires parts != []
    ensures EndsWith(JoinWith(parts, sep), parts[|parts| - 1])
  {
    if |parts| > 1 {
      JoinEndsWithLast(parts[1..], sep);
      var rest := JoinWith(parts[1..], sep);
      var s := parts[0] + sep + rest;
      assert s[|s| - |rest|..] == rest;
      assert parts[1..][|parts[1..]| - 1] == parts[|parts| - 1];
    }
  }

  /** The decimal digit for `d`. */
  function DigitChar(d: nat): (c: char)
    requires d < 10
    ensures '0' <= c <= '9' && c as int - '0' as int == d
  {
    ('0' as int + d) as char
  }

  predicate AllDigits(s: string) {
    forall i :: 0 <= i < |s| ==> '0' <= s[i] <= '9'
  }

  /** Python's `str(n)` for a non-negative integer. */
  function NatToString(n: nat): (r: string)
    ensures r != [] && AllDigits(r)
  {
    if n < 10 then [DigitChar(n)] else NatToString(n / 10) + [DigitChar(n % 10)]
  }

  /** The value of a string of decimal digits. */
  function ParseDigits(s: string): nat
    requires AllDigits(s)
  {
    if s == [] then 0 else ParseDigits(s[..|s| - 1]) * 10 + (s[|s| - 1] as int - '0' as int)
  }

  lemma {:induction false} DigitsRoundTrip(n: nat)
    ensures ParseDigits(NatToString(n)) == n
  {
    if n >= 10 {
      DigitsRoundTrip(n / 10);
      var s := NatToString(n);
      assert s[..|s| - 1] == NatToString(n / 10);
    }
  }

  /** Pieces of a split with a multi-character separator never contain it. */
  lemma {:induction false} SplitPieceFree(s: string, sep: string)
    requires sep != []
    ensures forall p :: p in SplitOn(s, sep) ==> !Includes(p, sep)
    decreases |s|
  {
    if |s| < |sep| {
      NotIncludedWhenShorter(s, sep);
    } else if s[..|sep|] == sep {
      SplitPieceFree(s[|sep|..], sep);
      NotIncludedWhenShorter("", sep);
    } else {
      var rest := SplitOn(s[|sep|..], sep);
      SplitPieceFree(s[1..], sep);
      var tail := SplitOn(s[1..], sep);
      assert tail[0] in tail;
      forall p | p in tail[1..] ensures p in tail {
        var i :| 0 <= i < |tail[1..]| && tail[1..][i] == p;
        assert tail[i + 1] == p;
      }
      ConsNotIncluding(s, sep, tail[0]);
    }
  }

  lemma NotIncludedWhenShorter(s: string, t: string)
    requires |s| < |t|
    ensures !Includes(s, t)
    decreases |s|
  {
    if s != [] {
      NotIncludedWhenShorter(s[1..], t);
    }
  }

  /** The first piece gains the leading character of `s` only when `s` does not start with `sep`. */
  lemma ConsNotIncluding(s: string, sep: string, p: string)
    requires sep != [] && |s| >= |sep| && s[..|sep|] != sep
    requires !Includes(p, sep)
    requires |SplitOn(s[1..], sep)| >= 1 && p == SplitOn(s[1..], sep)[0]
    ensures !Includes([s[0]] + p, sep)
  {
    var q := [s[0]] + p;
    assert q[1..] == p;
    FirstPieceIsPrefix(s[1..], sep);
    assert q == s[..|q|];
    if |q| >= |sep| {
      assert q[..|sep|] == s[..|sep|];
    }
  }

  /** The first piece of a split is a prefix of the input. */
  lemma {:induction false} FirstPieceIsPrefix(s: string, sep: string)
    requires sep != []
    ensures var p := SplitOn(s, sep)[0]; |p| <= |s| && s[..|p|] == p
    decreases |s|
  {
    if |s| < |sep| {
    } else if s[..|sep|] == sep {
    } else {
      var first := SplitOn(s[1..], sep)[0];
      FirstPieceIsPrefix(s[1..], sep);
      assert SplitOn(s, sep)[0] == [s[0]] + first;
      assert s[..|first| + 1] == [s[0]] + s[1..][..|first|];
    }
  }
}
