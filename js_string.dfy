/** The JavaScript string built-ins the plugin relies on, over `string` (a sequence of
    code points): `trim`, the regular-expression class `\s`, `includes`, a global
    `replace` of a literal pattern by nothing, `split(/\s+/)`, ASCII case mapping and
    `parseInt` with radix inference. */
module JsString {
  import opened Wrappers

  /** JavaScript truthiness of a string that may be undefined: defined and not empty. */
  predicate Truthy(o: Option<string>) {
    o.Some? && o.value != ""
  }

  /** ECMAScript WhiteSpace and LineTerminator: what `trim` removes and `\s` matches. */
  predicate IsWhiteSpace(c: char) {
    || c == '\t' || c == '\n' || c == '\U{000B}' || c == '\U{000C}' || c == '\r' || c == ' '
    || c == '\U{00A0}' || c == '\U{1680}' || ('\U{2000}' <= c <= '\U{200A}')
    || c == '\U{2028}' || c == '\U{2029}' || c == '\U{202F}' || c == '\U{205F}'
    || c == '\U{3000}' || c == '\U{FEFF}'
  }

  /** Only white space between indices `lo` (inclusive) and `hi` (exclusive). */
  predicate AllWhiteSpace(s: string, lo: int, hi: int)
    requires 0 <= lo <= hi <= |s|
  {
    forall i :: lo <= i < hi ==> IsWhiteSpace(s[i])
  }

  /** `s.trimStart()`. */
  function TrimStart(s: string): (r: string)
    ensures |r| <= |s| && r == s[|s| - |r|..]
    ensures AllWhiteSpace(s, 0, |s| - |r|)
    ensures r != [] ==> !IsWhiteSpace(r[0])
  {
    if s != [] && IsWhiteSpace(s[0]) then TrimStart(s[1..]) else s
  }

  /** `s.trimEnd()`. */
  function TrimEnd(s: string): (r: string)
    ensures |r| <= |s| && r == s[..|r|]
    ensures AllWhiteSpace(s, |r|, |s|)
    ensures r != [] ==> !IsWhiteSpace(r[|r| - 1])
  {
    if s != [] && IsWhiteSpace(s[|s| - 1]) then TrimEnd(s[..|s| - 1]) else s
  }

  /** `s.trim()`: `s` without its leading and trailing white space. */
  function Trim(s: string): (r: string)
    ensures |r| <= |s|
    ensures r != [] ==> !IsWhiteSpace(r[0]) && !IsWhiteSpace(r[|r| - 1])
  {
    TrimEnd(TrimStart(s))
  }

  /** `!s.trim()`: the string is empty or white space only. */
  predicate IsBlank(s: string) {
    Trim(s) == []
  }

  lemma TrimIdempotent(s: string)
    ensures Trim(Trim(s)) == Trim(s)
  {
    var r := Trim(s);
    if r != [] {
      assert TrimStart(r) == r;
      assert TrimEnd(r) == r;
    }
  }

  function LowerChar(c: char): char {
    if 'A' <= c <= 'Z' then (c as int + 32) as char else c
  }

  function UpperChar(c: char): char {
    if 'a' <= c <= 'z' then (c as int - 32) as char else c
  }

  /** `s.toLowerCase()` on the ASCII letters. */
  function Lower(s: string): (r: string)
    ensures |r| == |s|
  {
    seq(|s|, i requires 0 <= i < |s| => LowerChar(s[i]))
  }

  /** `s.toUpperCase()` on the ASCII letters. */
  function Upper(s: string): (r: string)
    ensures |r| == |s|
  {
    seq(|s|, i requires 0 <= i < |s| => UpperChar(s[i]))
  }

  lemma LowerIdempotent(s: string)
    ensures Lower(Lower(s)) == Lower(s)
  {
  }

  predicate IsPrefix(p: string, s: string) {
    |p| <= |s| && s[..|p|] == p
  }

  /** `sub` occurs in `s` at offset `i`. */
  predicate OccursAt(s: string, sub: string, i: int) {
    0 <= i && i + |sub| <= |s| && s[i..i + |sub|] == sub
  }

  /** `s.includes(sub)`: `sub` occurs in `s` at some offset. */
  function Includes(s: string, sub: string): (b: bool)
    ensures b <==> exists i :: OccursAt(s, sub, i)
  {
    if IsPrefix(sub, s) then
      assert OccursAt(s, sub, 0);
      true
    else if s == [] then
      false
    else
      var b := Includes(s[1..], sub);
      assert forall i :: OccursAt(s[1..], sub, i) ==> OccursAt(s, sub, i + 1);
      assert forall i :: OccursAt(s, sub, i) ==> i == 0 || OccursAt(s[1..], sub, i - 1);
      b
  }

  /** `s.replace(/pat/g, "")` for a pattern with no special characters: every
      occurrence, found left to right without overlap, is removed. */
  function RemoveAll(s: string, pat: string): (r: string)
    requires pat != []
    ensures |r| <= |s|
    ensures !Includes(s, pat) ==> r == s
    decreases |s|
  {
    if s == [] then []
    else if IsPrefix(pat, s) then RemoveAll(s[|pat|..], pat)
    else [s[0]] + RemoveAll(s[1..], pat)
  }

  /** An occurrence of the pattern at the start is removed and the scan resumes after it. */
  lemma RemoveAllLeadingPattern(pat: string, t: string)
    requires pat != []
    ensures RemoveAll(pat + t, pat) == RemoveAll(t, pat)
  {
    var s := pat + t;
    assert IsPrefix(pat, s) by { assert s[..|pat|] == pat; }
    assert s[|pat|..] == t;
  }

  /** Text in which the pattern's first character does not occur is copied through. */
  lemma {:induction false} RemoveAllLiteralPrefix(p: string, t: string, pat: string)
    requires pat != []
    requires forall i :: 0 <= i < |p| ==> p[i] != pat[0]
    ensures RemoveAll(p + t, pat) == p + RemoveAll(t, pat)
    decreases |p|
  {
    if p != [] {
      RemoveAllLiteralPrefix(p[1..], t, pat);
      RemoveAllCopiesFirst(p + t, pat);
      ConsAppend(p, t);
      calc {
        RemoveAll(p + t, pat);
        [p[0]] + RemoveAll(p[1..] + t, pat);
        [p[0]] + (p[1..] + RemoveAll(t, pat));
        { ConsAppend(p, RemoveAll(t, pat)); }
        p + RemoveAll(t, pat);
      }
    } else {
      assert p + t == t;
    }
  }

  /** Where the pattern's first character is not the first character, that character
      is copied and the scan moves on. */
  lemma RemoveAllCopiesFirst(s: string, pat: string)
    requires pat != [] && s != [] && s[0] != pat[0]
    ensures RemoveAll(s, pat) == [s[0]] + RemoveAll(s[1..], pat)
  {
    assert !IsPrefix(pat, s) by {
      if |pat| <= |s| { assert s[..|pat|][0] == s[0]; }
    }
  }

  /** Text none of whose first |p| positions starts the pattern keeps those |p|
      characters, and the rest is scanned as it stands. */
  lemma {:induction false} RemoveAllNoMatchPrefix(p: string, t: string, pat: string)
    requires pat != []
    requires forall i :: 0 <= i < |p| ==> !OccursAt(p + t, pat, i)
    ensures RemoveAll(p + t, pat) == p + RemoveAll(t, pat)
    decreases |p|
  {
    if p != [] {
      var s := p + t;
      ConsAppend(p, t);
      assert !IsPrefix(pat, s) by {
        assert !OccursAt(s, pat, 0);
        if |pat| <= |s| { assert s[..|pat|] == s[0..|pat|]; }
      }
      forall i | 0 <= i < |p[1..]| ensures !OccursAt(p[1..] + t, pat, i) {
        OccursAtTail(s, pat, i);
      }
      RemoveAllNoMatchPrefix(p[1..], t, pat);
      calc {
        RemoveAll(s, pat);
        [p[0]] + RemoveAll(p[1..] + t, pat);
        [p[0]] + (p[1..] + RemoveAll(t, pat));
        { ConsAppend(p, RemoveAll(t, pat)); }
        p + RemoveAll(t, pat);
      }
    } else {
      assert p + t == t;
    }
  }

  /** An occurrence in the tail is an occurrence one position later in the text. */
  lemma OccursAtTail(s: string, pat: string, i: nat)
    requires s != []
    ensures OccursAt(s[1..], pat, i) <==> OccursAt(s, pat, i + 1)
  {
    if i + 1 + |pat| <= |s| {
      assert s[1..][i..i + |pat|] == s[i + 1..i + 1 + |pat|];
    }
  }

  /** Appending after a non-empty text: its first character, then the rest. */
  lemma ConsAppend(p: string, t: string)
    requires p != []
    ensures (p + t)[0] == p[0] && (p + t)[1..] == p[1..] + t
    ensures [p[0]] + (p[1..] + t) == p + t
  {
    assert p == [p[0]] + p[1..];
  }

  /** Index of the first white-space character of `s`, or `|s|` when there is none. */
  function FirstSpace(s: string): (k: nat)
    ensures k <= |s|
    ensures forall i :: 0 <= i < k ==> !IsWhiteSpace(s[i])
    ensures k < |s| ==> IsWhiteSpace(s[k])
  {
    if s == [] || IsWhiteSpace(s[0]) then 0 else 1 + FirstSpace(s[1..])
  }

  /** `s.split(/\s+/)`: the pieces between maximal runs of white space; a run at
      the start or the end of `s` yields an empty first or last piece. */
  function Split(s: string): (r: seq<string>)
    ensures |r| >= 1
    ensures forall i, j :: 0 <= i < |r| && 0 <= j < |r[i]| ==> !IsWhiteSpace(r[i][j])
    decreases |s|
  {
    var k := FirstSpace(s);
    if k == |s| then [s]
    else
      var rest := TrimStart(s[k..]);
      assert |rest| < |s| - k;
      [s[..k]] + Split(rest)
  }

  /** `words.join(sep)`. */
  function JoinWords(words: seq<string>, sep: string): string {
    if words == [] then ""
    else if |words| == 1 then words[0]
    else JoinWords(words[..|words| - 1], sep) + sep + words[|words| - 1]
  }

  lemma JoinThreeWords(a: string, b: string, c: string, sep: string)
    ensures JoinWords([a, b, c], sep) == a + sep + b + sep + c
  {
    assert [a, b, c][..2] == [a, b];
    assert [a, b][..1] == [a];
    assert JoinWords([a], sep) == a;
    assert JoinWords([a, b], sep) == a + sep + b;
  }

  /** `words.join(sep)` with a first word in front: the separator goes between them. */
  lemma {:induction false} JoinWordsCons(w: string, ws: seq<string>, sep: string)
    requires ws != []
    ensures JoinWords([w] + ws, sep) == w + sep + JoinWords(ws, sep)
    decreases |ws|
  {
    var xs := [w] + ws;
    if |ws| == 1 {
      assert xs[..|xs| - 1] == [w];
    } else {
      var init := ws[..|ws| - 1];
      var last := ws[|ws| - 1];
      assert xs[..|xs| - 1] == [w] + init;
      JoinWordsCons(w, init, sep);
      calc {
        JoinWords(xs, sep);
        JoinWords([w] + init, sep) + sep + last;
        w + sep + JoinWords(init, sep) + sep + last;
        w + sep + (JoinWords(init, sep) + sep + last);
        w + sep + JoinWords(ws, sep);
      }
    }
  }

  /** A keyword: not empty and without white space. */
  predicate IsWord(w: string) {
    w != [] && forall j :: 0 <= j < |w| ==> !IsWhiteSpace(w[j])
  }

  /** Splitting words joined by single spaces gives the words back. */
  lemma {:induction false} SplitJoinWords(ws: seq<string>)
    requires ws != [] && forall i :: 0 <= i < |ws| ==> IsWord(ws[i])
    ensures Split(JoinWords(ws, " ")) == ws
    decreases |ws|
  {
    if |ws| == 1 {
      SplitWord(ws[0]);
    } else {
      var tail := ws[1..];
      assert ws == [ws[0]] + tail;
      JoinWordsCons(ws[0], tail, " ");
      JoinWordsStart(tail, " ");
      assert IsWord(tail[0]);
      SplitWordThen(ws[0], JoinWords(tail, " "));
      SplitJoinWords(tail);
    }
  }

  /** A word splits into itself. */
  lemma SplitWord(w: string)
    requires IsWord(w)
    ensures Split(w) == [w]
  {
    assert FirstSpace(w) == |w|;
  }

  /** A piece without white space, a run of white space and text that does not start
      with white space: the piece comes first and the text is split on. The piece may be
      empty (text that starts with white space), and so may the text (text that ends
      with it). */
  lemma SplitPieceThen(w: string, sp: string, rest: string)
    requires forall j :: 0 <= j < |w| ==> !IsWhiteSpace(w[j])
    requires sp != [] && forall j :: 0 <= j < |sp| ==> IsWhiteSpace(sp[j])
    requires rest == [] || !IsWhiteSpace(rest[0])
    ensures Split(w + sp + rest) == [w] + Split(rest)
  {
    FirstSpaceAfterPiece(w, sp, rest);
    TrimStartRun(sp, rest);
  }

  /** A word, one space and text that starts with no white space. */
  lemma SplitWordThen(w: string, rest: string)
    requires IsWord(w) && rest != [] && !IsWhiteSpace(rest[0])
    ensures Split(w + " " + rest) == [w] + Split(rest)
  {
    SplitPieceThen(w, " ", rest);
  }

  /** The first white space after a piece without white space is where the run begins. */
  lemma FirstSpaceAfterPiece(w: string, sp: string, rest: string)
    requires forall j :: 0 <= j < |w| ==> !IsWhiteSpace(w[j])
    requires sp != [] && IsWhiteSpace(sp[0])
    ensures var s := w + sp + rest;
      FirstSpace(s) == |w| < |s| && s[..|w|] == w && s[|w|..] == sp + rest
  {
    var s := w + sp + rest;
    assert forall i :: 0 <= i < |w| ==> s[i] == w[i];
    assert s[|w|] == sp[0];
  }

  /** trimStart removes a leading run of white space and nothing after it. */
  lemma {:induction false} TrimStartRun(sp: string, rest: string)
    requires forall j :: 0 <= j < |sp| ==> IsWhiteSpace(sp[j])
    requires rest == [] || !IsWhiteSpace(rest[0])
    ensures TrimStart(sp + rest) == rest
    decreases |sp|
  {
    if sp == [] {
      assert sp + rest == rest;
    } else {
      ConsAppend(sp, rest);
      TrimStartRun(sp[1..], rest);
    }
  }

  /** Joined words start with the first word. */
  lemma JoinWordsStart(ws: seq<string>, sep: string)
    requires ws != []
    ensures IsPrefix(ws[0], JoinWords(ws, sep))
  {
    if |ws| > 1 {
      assert ws == [ws[0]] + ws[1..];
      JoinWordsCons(ws[0], ws[1..], sep);
    }
  }

  predicate IsDigit(c: char) {
    '0' <= c <= '9'
  }

  predicate IsHexDigit(c: char) {
    IsDigit(c) || 'a' <= c <= 'f' || 'A' <= c <= 'F'
  }

  predicate IsRadixDigit(c: char, hex: bool) {
    if hex then IsHexDigit(c) else IsDigit(c)
  }

  function DigitValue(c: char, hex: bool): nat
    requires IsRadixDigit(c, hex)
  {
    if IsDigit(c) then c as int - '0' as int
    else if 'a' <= c <= 'f' then c as int - 'a' as int + 10
    else c as int - 'A' as int + 10
  }

  /** The longest prefix of `s` made of digits of the radix. */
  function DigitRun(s: string, hex: bool): (r: string)
    ensures IsPrefix(r, s)
    ensures forall i :: 0 <= i < |r| ==> IsRadixDigit(r[i], hex)
    ensures |r| < |s| ==> !IsRadixDigit(s[|r|], hex)
  {
    if s != [] && IsRadixDigit(s[0], hex) then [s[0]] + DigitRun(s[1..], hex) else []
  }

  /** The number a run of digits denotes, read most significant digit first. */
  function RunValue(ds: string, hex: bool): nat
    requires forall i :: 0 <= i < |ds| ==> IsRadixDigit(ds[i], hex)
  {
    if ds == [] then 0
    else RunValue(ds[..|ds| - 1], hex) * (if hex then 16 else 10) + DigitValue(ds[|ds| - 1], hex)
  }

  /** `parseInt(s)` without a radix: leading white space is skipped, one sign is
      read, a `0x` or `0X` prefix selects radix 16, and the longest run of digits
      that follows is the value; with no digit the result is `NaN` (`None`). */
  function ParseInt(s: string): Option<int> {
    var t := TrimStart(s);
    var negative := t != [] && t[0] == '-';
    var u := if t != [] && (t[0] == '-' || t[0] == '+') then t[1..] else t;
    var hex := |u| >= 2 && u[0] == '0' && (u[1] == 'x' || u[1] == 'X');
    var ds := DigitRun(if hex then u[2..] else u, hex);
    var v: int := RunValue(ds, hex);
    if ds == [] then None else if negative then Some(-v) else Some(v)
  }

  /** `String(n)` for a natural number: its decimal digits, no leading zero. */
  function NatToString(n: nat): (r: string)
    ensures |r| >= 1 && forall i :: 0 <= i < |r| ==> IsDigit(r[i])
    ensures r[0] == '0' ==> n == 0 && r == "0"
  {
    if n < 10 then [('0' as int + n) as char]
    else NatToString(n / 10) + [('0' as int + n % 10) as char]
  }

  lemma {:induction false} RunValueOfNatToString(n: nat)
    ensures RunValue(NatToString(n), false) == n
  {
    var r := NatToString(n);
    if n >= 10 {
      RunValueOfNatToString(n / 10);
      assert r[..|r| - 1] == NatToString(n / 10);
    }
  }

  /** The digit run of a string of digits is the whole string. */
  lemma {:induction false} DigitRunOfDigits(s: string, hex: bool)
    requires forall i :: 0 <= i < |s| ==> IsRadixDigit(s[i], hex)
    ensures DigitRun(s, hex) == s
  {
    if s != [] {
      DigitRunOfDigits(s[1..], hex);
    }
  }

  /** `parseInt(String(n)) === n`: parsing reads back every decimal numeral. */
  lemma ParseIntNatToString(n: nat)
    ensures ParseInt(NatToString(n)) == Some(n)
  {
    var r := NatToString(n);
    assert !IsWhiteSpace(r[0]) && r[0] != '-' && r[0] != '+';
    assert TrimStart(r) == r;
    assert !(|r| >= 2 && r[0] == '0');
    DigitRunOfDigits(r, false);
    RunValueOfNatToString(n);
  }
}
