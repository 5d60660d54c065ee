/** The placeholder formatter installed as `String.format` by two plugins
    (plugins/mytool/preload.js and plugins/CustomTool/preload.js, identical definitions),
    and the one-line subtitle the "yiyan" feature builds with it.

    `format.replace(/{(\d+)}/g, f)` scans the template left to right; at each position
    where `{`, one or more decimal digits and `}` begin, the match is replaced by what
    `f` returns and the scan resumes after it. `f` returns `args[number]` when that is
    not undefined and the match itself otherwise. `args[number]` is an element of the
    arguments array only when `number` is the canonical decimal spelling of an index
    below its length, so `{01}` never names an argument. Arguments are given as the
    strings the replacement turns them into; `None` is an undefined argument. */
module StringFormat {
  import opened Wrappers
  import opened JsString

  /** `p` is one match of `{(\d+)}`. */
  predicate IsPlaceholder(p: string) {
    |p| >= 3 && p[0] == '{' && p[|p| - 1] == '}' && forall i :: 1 <= i < |p| - 1 ==> IsDigit(p[i])
  }

  /** The length of the match of `{(\d+)}` at the start of `t`, or 0 when there is none. */
  function PlaceholderLen(t: string): (k: nat)
    ensures k == 0 || 3 <= k <= |t|
    ensures k > 0 ==> IsPlaceholder(t[..k])
    ensures k > 0 ==> forall i :: 1 <= i < k - 1 ==> IsDigit(t[i])
    ensures forall j :: 0 <= j <= |t| && IsPlaceholder(t[..j]) ==> j == k
  {
    if t == [] || t[0] != '{' then
      assert forall j :: 0 <= j <= |t| ==> !IsPlaceholder(t[..j]) by {
        forall j | 0 <= j <= |t| ensures !IsPlaceholder(t[..j]) {
          if j > 0 { assert t[..j][0] == t[0]; }
        }
      }
      0
    else
      var ds := DigitRun(t[1..], false);
      var k := |ds| + 2;
      if ds != [] && k <= |t| && t[k - 1] == '}' then
        assert forall i :: 1 <= i < k - 1 ==> t[i] == ds[i - 1];
        assert IsPlaceholder(t[..k]) by {
          assert forall i :: 1 <= i < k - 1 ==> t[..k][i] == ds[i - 1];
        }
        k
      else
        0
  }

  /** `args[number]` for the digits `number`: defined only for a canonical index (no
      leading zero) below the number of arguments. */
  function Lookup(args: seq<Option<string>>, number: string): (r: Option<string>)
    requires forall i :: 0 <= i < |number| ==> IsDigit(number[i])
    ensures r.Some? ==> exists n: nat :: n < |args| && NatToString(n) == number && args[n] == r
  {
    if number == [] || (number[0] == '0' && |number| > 1) then None
    else
      var n := RunValue(number, false);
      if n < |args| then
        CanonicalNumeral(number);
        args[n]
      else None
  }

  /** A canonical run of digits is the decimal spelling of its value. */
  lemma {:induction false} CanonicalNumeral(ds: string)
    requires ds != [] && forall i :: 0 <= i < |ds| ==> IsDigit(ds[i])
    requires ds[0] == '0' ==> |ds| == 1
    ensures NatToString(RunValue(ds, false)) == ds
    decreases |ds|
  {
    var init := ds[..|ds| - 1];
    var last := ds[|ds| - 1];
    if |ds| > 1 {
      CanonicalNumeral(init);
      RunValuePositive(init);
      var v := RunValue(ds, false);
      assert v / 10 == RunValue(init, false);
      assert ds == init + [last];
    }
  }

  /** A canonical run of more than one digit denotes at least 1. */
  lemma {:induction false} RunValuePositive(ds: string)
    requires ds != [] && forall i :: 0 <= i < |ds| ==> IsDigit(ds[i])
    requires ds[0] != '0'
    ensures RunValue(ds, false) >= 1
    decreases |ds|
  {
    if |ds| > 1 {
      RunValuePositive(ds[..|ds| - 1]);
    }
  }

  /** No `{` occurs in `t`, so no placeholder can begin anywhere. */
  predicate BraceFree(t: string) {
    forall i :: 0 <= i < |t| ==> t[i] != '{'
  }

  /** `format.replace(/{(\d+)}/g, ...)`: one left-to-right pass over the template. */
  function Format(t: string, args: seq<Option<string>>): (r: string)
    ensures BraceFree(t) ==> r == t
    decreases |t|
  {
    if t == [] then []
    else
      var k := PlaceholderLen(t);
      if k == 0 then [t[0]] + Format(t[1..], args)
      else
        var sub := Lookup(args, t[1..k - 1]);
        (if sub.Some? then sub.value else t[..k]) + Format(t[k..], args)
  }

  /** The template has a match of `{(\d+)}` starting at index `i`. */
  predicate PlaceholderAt(t: string, i: nat)
    requires i <= |t|
  {
    PlaceholderLen(t[i..]) > 0
  }

  /** A template without any `{digits}` pattern comes back unchanged. */
  lemma {:induction false} FormatWithoutPlaceholder(t: string, args: seq<Option<string>>)
    requires forall i :: 0 <= i < |t| ==> !PlaceholderAt(t, i)
    ensures Format(t, args) == t
    decreases |t|
  {
    if t != [] {
      assert t[0..] == t;
      assert !PlaceholderAt(t, 0);
      FormatLiteralStep(t, args);
      forall i | 0 <= i < |t[1..]| ensures !PlaceholderAt(t[1..], i) {
        assert t[1..][i..] == t[i + 1..];
        assert !PlaceholderAt(t, i + 1);
      }
      FormatWithoutPlaceholder(t[1..], args);
    }
  }

  /** When no argument is defined every placeholder stays as it is. */
  lemma {:induction false} FormatWithoutArguments(t: string, args: seq<Option<string>>)
    requires forall j :: 0 <= j < |args| ==> args[j].None?
    ensures Format(t, args) == t
    decreases |t|
  {
    if t != [] {
      var k := PlaceholderLen(t);
      if k == 0 {
        FormatWithoutArguments(t[1..], args);
        FormatLiteralStep(t, args);
      } else {
        FormatWithoutArguments(t[k..], args);
        FormatKeptPlaceholder(t, args);
      }
    }
  }

  /** With no defined argument, a placeholder at the start is copied and the scan
      moves past it. */
  lemma FormatKeptPlaceholder(t: string, args: seq<Option<string>>)
    requires forall j :: 0 <= j < |args| ==> args[j].None?
    requires PlaceholderLen(t) > 0 && Format(t[PlaceholderLen(t)..], args) == t[PlaceholderLen(t)..]
    ensures Format(t, args) == t
  {
    var k := PlaceholderLen(t);
    var ds := t[1..k - 1];
    PlaceholderDigits(t);
    LookupWithoutArguments(args, ds);
    FormatKeptStep(t, args);
    SplitAt(t, k);
  }

  /** The text between the braces of a leading match is digits. */
  lemma PlaceholderDigits(t: string)
    requires PlaceholderLen(t) > 0
    ensures var ds := t[1..PlaceholderLen(t) - 1]; forall i :: 0 <= i < |ds| ==> IsDigit(ds[i])
  {
    var ds := t[1..PlaceholderLen(t) - 1];
    forall i | 0 <= i < |ds| ensures IsDigit(ds[i]) {
      assert ds[i] == t[i + 1];
    }
  }

  /** Cutting a text in two and joining the parts gives it back. */
  lemma SplitAt(t: string, k: nat)
    requires k <= |t|
    ensures t[..k] + t[k..] == t
  {
  }

  /** A placeholder that names no defined argument is copied and the scan moves past it. */
  lemma FormatKeptStep(t: string, args: seq<Option<string>>)
    requires PlaceholderLen(t) > 0 && Lookup(args, t[1..PlaceholderLen(t) - 1]).None?
    ensures Format(t, args) == t[..PlaceholderLen(t)] + Format(t[PlaceholderLen(t)..], args)
  {
  }

  /** With no defined argument, no lookup finds one. */
  lemma LookupWithoutArguments(args: seq<Option<string>>, number: string)
    requires forall j :: 0 <= j < |args| ==> args[j].None?
    requires forall i :: 0 <= i < |number| ==> IsDigit(number[i])
    ensures Lookup(args, number).None?
  {
  }

  /** Where no placeholder begins, the first character is copied and the scan moves on. */
  lemma FormatLiteralStep(t: string, args: seq<Option<string>>)
    requires t != [] && PlaceholderLen(t) == 0
    ensures Format(t, args) == [t[0]] + Format(t[1..], args)
    ensures t == [t[0]] + t[1..]
  {
  }

  /** No match begins at a character other than `{`. */
  lemma NoPlaceholderWithoutBrace(t: string)
    requires t != [] && t[0] != '{'
    ensures PlaceholderLen(t) == 0
  {
  }

  /** Text without `{` is copied through, whatever follows it. */
  lemma {:induction false} FormatLiteralPrefix(p: string, t: string, args: seq<Option<string>>)
    requires forall i :: 0 <= i < |p| ==> p[i] != '{'
    ensures Format(p + t, args) == p + Format(t, args)
    decreases |p|
  {
    if p != [] {
      var s := p + t;
      ConsAppend(p, t);
      NoPlaceholderWithoutBrace(s);
      FormatLiteralStep(s, args);
      FormatLiteralPrefix(p[1..], t, args);
      calc {
        Format(s, args);
        [p[0]] + Format(p[1..] + t, args);
        [p[0]] + (p[1..] + Format(t, args));
        { ConsAppend(p, Format(t, args)); }
        p + Format(t, args);
      }
    } else {
      assert p + t == t;
    }
  }

  /** What the placeholder `{n}` becomes. */
  function Substitute(args: seq<Option<string>>, n: nat): string {
    if n < |args| && args[n].Some? then args[n].value else "{" + NatToString(n) + "}"
  }

  /** A placeholder `{n}` at the start of the template is replaced by argument `n` when
      it is defined and kept otherwise, and the scan goes on after it: the substituted
      text is never scanned again. */
  lemma FormatPlaceholderThen(n: nat, rest: string, args: seq<Option<string>>)
    ensures Format("{" + NatToString(n) + "}" + rest, args) == Substitute(args, n) + Format(rest, args)
  {
    var ds := NatToString(n);
    var p := "{" + ds + "}";
    var t := p + rest;
    var k := |ds| + 2;
    assert t[..k] == p;
    assert IsPlaceholder(p) by {
      assert forall i :: 1 <= i < |p| - 1 ==> p[i] == ds[i - 1];
    }
    assert PlaceholderLen(t) == k;
    assert t[1..k - 1] == ds;
    assert t[k..] == rest;
    RunValueOfNatToString(n);
    var sub := Lookup(args, ds);
    assert sub == if n < |args| then args[n] else None;
  }

  /** `String.format("{n}", ...)` is argument `n` when it is defined: substituted text
      is not expanded again, even if it holds placeholders itself. */
  lemma FormatSinglePlaceholder(n: nat, args: seq<Option<string>>)
    ensures Format("{" + NatToString(n) + "}", args) == Substitute(args, n)
    ensures n < |args| && args[n].Some? ==> Format("{" + NatToString(n) + "}", args) == args[n].value
    ensures n >= |args| ==> Format("{" + NatToString(n) + "}", args) == "{" + NatToString(n) + "}"
  {
    FormatPlaceholderThen(n, "", args);
    assert "{" + NatToString(n) + "}" + "" == "{" + NatToString(n) + "}";
  }

  /** A placeholder whose digits have a leading zero names no argument. */
  lemma LeadingZeroKept(args: seq<Option<string>>)
    ensures Format("{01}", args) == "{01}"
  {
    var t := "{01}";
    assert IsPlaceholder(t[..4]) by {
      assert t[..4] == t;
    }
    assert PlaceholderLen(t) == 4;
    assert t[1..3] == "01";
    assert t[4..] == [];
  }

  // ---------------------------------------------------------------------------
  // Installation

  /** What `String.format` holds: this formatter, or one defined before. */
  datatype Formatter = PlaceholderFormatter | OtherFormatter(name: string)

  /** `if (!String.format) String.format = ...`: an existing formatter is kept. */
  function Install(existing: Option<Formatter>): (f: Formatter)
    ensures existing.Some? ==> f == existing.value
    ensures existing.None? ==> f == PlaceholderFormatter
  {
    if existing.Some? then existing.value else PlaceholderFormatter
  }

  /** The guarded assignment is stable: running it a second time on its own result
      changes nothing, and from no earlier formatter both runs leave the placeholder
      formatter in place. */
  lemma InstallIdempotent(existing: Option<Formatter>)
    ensures Install(Some(Install(existing))) == Install(existing)
    ensures Install(Some(Install(None))) == PlaceholderFormatter
  {
  }

  // ---------------------------------------------------------------------------
  // The yiyan subtitle

  /** The description of the yiyan item: `from1`, or `from1|from2` when `from2` is not
      the empty string (an undefined `from2` is not the empty string). */
  function YiyanDescription(from1: Option<string>, from2: Option<string>): string {
    var subtitle := if from2 != Some("") then Some(Format("{0}|{1}", [from1, from2])) else from1;
    Format("{0}", [subtitle])
  }

  /** The template `{n}` + `mid` + `{m}`. */
  function PairTemplate(n: nat, mid: string, m: nat): string {
    "{" + NatToString(n) + "}" + mid + "{" + NatToString(m) + "}"
  }

  /** Two placeholders around literal text: each is substituted on its own. */
  lemma FormatPair(n: nat, mid: string, m: nat, args: seq<Option<string>>)
    requires forall i :: 0 <= i < |mid| ==> mid[i] != '{'
    ensures Format(PairTemplate(n, mid, m), args) == Substitute(args, n) + mid + Substitute(args, m)
  {
    var first := "{" + NatToString(n) + "}";
    var second := "{" + NatToString(m) + "}";
    var sn, sm := Substitute(args, n), Substitute(args, m);
    calc {
      Format(PairTemplate(n, mid, m), args);
      { assert PairTemplate(n, mid, m) == first + (mid + second); }
      Format(first + (mid + second), args);
      { FormatPlaceholderThen(n, mid + second, args); }
      sn + Format(mid + second, args);
      { FormatLiteralPrefix(mid, second, args); }
      sn + (mid + Format(second, args));
      { FormatSinglePlaceholder(m, args); }
      sn + (mid + sm);
      sn + mid + sm;
    }
  }

  /** `String.format("{0}|{1}", a, b)`: the two substitutions around a bar. */
  lemma FormatBarPair(args: seq<Option<string>>)
    ensures Format("{0}|{1}", args) == Substitute(args, 0) + "|" + Substitute(args, 1)
  {
    BarTemplate();
    FormatPair(0, "|", 1, args);
  }

  /** The template `{0}|{1}` is the pair template of 0, `|` and 1. */
  lemma BarTemplate()
    ensures PairTemplate(0, "|", 1) == "{0}|{1}"
  {
    assert NatToString(0) == "0" && NatToString(1) == "1";
  }

  /** With both parts defined the description is `from1` alone when `from2` is empty and
      `from1|from2` otherwise, whatever braces the parts contain. */
  lemma YiyanDescriptionDefined(from1: string, from2: string)
    ensures YiyanDescription(Some(from1), Some(from2)) == if from2 == "" then from1 else from1 + "|" + from2
  {
    FormatBarPair([Some(from1), Some(from2)]);
    FormatOnlyArgument(if from2 != "" then from1 + "|" + from2 else from1);
  }

  /** The placeholders `{0}` and `{1}` are spelled with the numerals of 0 and 1. */
  lemma SmallPlaceholders()
    ensures "{" + NatToString(0) + "}" == "{0}" && "{" + NatToString(1) + "}" == "{1}"
  {
    assert NatToString(0) == "0" && NatToString(1) == "1";
  }

  /** `String.format("{0}", s)` is `s` itself, braces and all: the substituted text is
      not scanned again. */
  lemma {:induction false} FormatOnlyArgument(s: string)
    ensures Format("{0}", [Some(s)]) == s
  {
    SmallPlaceholders();
    FormatSinglePlaceholder(0, [Some(s)]);
  }

  /** `String.format("{0}|{1}", a)` with an undefined second argument keeps `{1}`. */
  lemma {:induction false} FormatBarUndefinedSecond(from1: string)
    ensures Format("{0}|{1}", [Some(from1), None]) == from1 + "|{1}"
  {
    var args := [Some(from1), None];
    calc {
      Format("{0}|{1}", args);
      { FormatBarPair(args); }
      Substitute(args, 0) + "|" + Substitute(args, 1);
      { SmallPlaceholders(); }
      from1 + "|" + "{1}";
      { AppendBar(from1); }
      from1 + "|{1}";
    }
  }

  /** Appending `|` and then `{1}` appends `|{1}`. */
  lemma AppendBar(s: string)
    ensures s + "|" + "{1}" == s + "|{1}"
  {
  }

  /** An undefined `from2` leaves its placeholder in the description. */
  lemma {:induction false} YiyanDescriptionUndefinedFrom2(from1: string)
    ensures YiyanDescription(Some(from1), None) == from1 + "|{1}"
  {
    FormatBarUndefinedSecond(from1);
    FormatOnlyArgument(from1 + "|{1}");
  }
}
