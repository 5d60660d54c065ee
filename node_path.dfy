/** Stand-ins for the Node.js helpers the plugin calls: `decodeURIComponent` and the
    POSIX flavour of `path.basename`, `path.extname` and `path.join`. */
module NodePath {
  import opened JsString

  /** `decodeURIComponent(s)` restricted to single-byte escapes: each `%XX` with `XX`
      a hexadecimal byte below 0x80 becomes that character; every other character,
      including a `%` that does not start such an escape, is kept. */
  function DecodeUri(s: string): (r: string)
    ensures |r| <= |s|
    decreases |s|
  {
    if s == [] then []
    else if |s| >= 3 && s[0] == '%' && IsHexDigit(s[1]) && IsHexDigit(s[2]) && DigitValue(s[1], true) < 8 then
      [(DigitValue(s[1], true) * 16 + DigitValue(s[2], true)) as char] + DecodeUri(s[3..])
    else
      [s[0]] + DecodeUri(s[1..])
  }

  /** A path without any `%` is its own decoding. */
  lemma {:induction false} DecodeUriWithoutEscape(s: string)
    requires forall i :: 0 <= i < |s| ==> s[i] != '%'
    ensures DecodeUri(s) == s
    decreases |s|
  {
    if s != [] {
      DecodeUriWithoutEscape(s[1..]);
    }
  }

  /** Index of the last `c` in `s`, or -1 when there is none. */
  function LastIndexOf(s: string, c: char): (k: int)
    ensures -1 <= k < |s|
    ensures k >= 0 ==> s[k] == c
    ensures forall i :: k < i < |s| ==> s[i] != c
  {
    if s == [] then -1
    else if s[|s| - 1] == c then |s| - 1
    else LastIndexOf(s[..|s| - 1], c)
  }

  /** `p` without the `/` characters it ends with. */
  function StripTrailingSlashes(p: string): (r: string)
    ensures IsPrefix(r, p)
    ensures r != [] ==> r[|r| - 1] != '/'
  {
    if p != [] && p[|p| - 1] == '/' then StripTrailingSlashes(p[..|p| - 1]) else p
  }

  /** `path.posix.basename(p)`: the last segment of `p`, trailing separators ignored. */
  function Basename(p: string): (r: string)
    ensures forall i :: 0 <= i < |r| ==> r[i] != '/'
  {
    var q := StripTrailingSlashes(p);
    q[LastIndexOf(q, '/') + 1..]
  }

  /** `path.posix.extname(p)`: from the last `.` of the base name to its end, or the
      empty string when the base name has no `.`, starts with its only `.` or is `..`. */
  function Extname(p: string): (r: string)
    ensures r != [] ==> r[0] == '.' && forall i :: 1 <= i < |r| ==> r[i] != '.'
  {
    var b := Basename(p);
    var k := LastIndexOf(b, '.');
    if b == ".." || k <= 0 then "" else b[k..]
  }

  /** The non-empty segments of `parts` joined by `/`. */
  function JoinSegments(parts: seq<string>): string {
    if parts == [] then ""
    else
      var head := JoinSegments(parts[..|parts| - 1]);
      var last := parts[|parts| - 1];
      if last == [] then head else if head == [] then last else head + "/" + last
  }

  /** `path.posix.join(...parts)` without the normalisation of `.`, `..` and repeated
      separators: the non-empty segments joined by `/`, or `.` when there is none. */
  function JoinAll(parts: seq<string>): string {
    var j := JoinSegments(parts);
    if j == [] then "." else j
  }
}
