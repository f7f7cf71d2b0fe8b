/** The dashboard's summary card: the icon name it derives from a short
    name, the value it shows and the gradient behind its icon. */
module StatsCard {
  import opened Optional
  import opened JsText
  import opened JsValue
  import opened Seqs
  import opened ThemeContext

  /** A character the regular expression `[^a-zA-Z0-9]` matches. */
  predicate IsSeparator(c: char) {
    !IsAsciiAlnum(c)
  }

  /** `s.split(/[^a-zA-Z0-9]/)`: the pieces between separators, empty
      pieces included; the empty string splits into one empty piece. */
  function Split(s: string): (r: seq<string>)
    ensures |r| >= 1
    decreases |s|
  {
    if s == [] then [""]
    else
      var p := Split(s[1..]);
      if IsSeparator(s[0]) then [""] + p else [[s[0]] + p[0]] + p[1..]
  }

  /** `part.charAt(0).toUpperCase() + part.slice(1)` */
  function Capitalize(part: string): string {
    if part == [] then [] else [UpperAscii(part[0])] + part[1..]
  }

  /** `.map(Capitalize)` */
  function CapitalizeAll(parts: seq<string>): (r: seq<string>)
    ensures |r| == |parts|
  {
    if parts == [] then [] else [Capitalize(parts[0])] + CapitalizeAll(parts[1..])
  }

  /** `.join("")` */
  function Concat(parts: seq<string>): string {
    if parts == [] then [] else parts[0] + Concat(parts[1..])
  }

  /** What `.filter(Boolean)` keeps of a list of strings. */
  predicate NonEmpty(part: string) {
    part != []
  }

  /** `pascalCase(name)`: split on every character that is not an ASCII
      letter or digit, drop the empty pieces, capitalise each piece,
      concatenate. */
  function PascalCase(name: string): string {
    Joined(Split(name))
  }

  /** The last three steps of `pascalCase` on a list of pieces. */
  function Joined(parts: seq<string>): string {
    Concat(CapitalizeAll(Filter(parts, NonEmpty)))
  }

  /** The same result read off in one pass: separators are dropped, and a
      letter or digit is upper-cased when it starts a piece (`atStart`). */
  function Scanned(s: string, atStart: bool): string
    decreases |s|
  {
    if s == [] then []
    else if IsSeparator(s[0]) then Scanned(s[1..], true)
    else [if atStart then UpperAscii(s[0]) else s[0]] + Scanned(s[1..], false)
  }

  /** `pascalCase` applied to the `icon` property: the parameter defaults
      to "" when the property is absent. */
  function PascalCaseOf(icon: Value): Option<string> {
    match icon
    case Undefined => Some(PascalCase(""))
    case Str(s) => Some(PascalCase(s))
    case _ => None
  }

  /** The pieces `Split` returns contain no separator, and there is one more
      of them than there are separators. */
  lemma {:induction false} SplitPieces(s: string)
    ensures |Split(s)| == 1 + Count(s, IsSeparator)
    ensures forall i, j :: 0 <= i < |Split(s)| && 0 <= j < |Split(s)[i]| ==> IsAsciiAlnum(Split(s)[i][j])
    decreases |s|
  {
    if s != [] {
      SplitPieces(s[1..]);
      var p := Split(s[1..]);
      if !IsSeparator(s[0]) {
        var q := [s[0]] + p[0];
        assert forall j :: 0 <= j < |q| ==> IsAsciiAlnum(q[j]) by {
          forall j | 0 <= j < |q| ensures IsAsciiAlnum(q[j]) {
            if j > 0 { assert q[j] == p[0][j - 1]; }
          }
        }
      }
    }
  }

  /** Dropping one piece from the front and capitalising it. */
  lemma JoinedCons(x: string, rest: seq<string>)
    ensures Joined([x] + rest) == Capitalize(x) + Joined(rest)
  {
    var s := [x] + rest;
    assert s[0] == x && s[1..] == rest;
    if x == [] {
      assert Filter(s, NonEmpty) == Filter(rest, NonEmpty);
    } else {
      assert Filter(s, NonEmpty) == [x] + Filter(rest, NonEmpty);
      var c := CapitalizeAll([x] + Filter(rest, NonEmpty));
      assert c == [Capitalize(x)] + CapitalizeAll(Filter(rest, NonEmpty));
    }
  }

  /** The one-pass reading agrees with split, filter, map and join, both in
      the middle of a piece and at its start. */
  lemma {:induction false} ScannedSplit(t: string)
    ensures Scanned(t, false) == Split(t)[0] + Joined(Split(t)[1..])
    ensures Scanned(t, true) == Capitalize(Split(t)[0]) + Joined(Split(t)[1..])
    decreases |t|
  {
    if t == [] {
      assert Split(t)[1..] == [];
    } else {
      ScannedSplit(t[1..]);
      if IsSeparator(t[0]) {
        ScannedSplitSeparator(t);
      } else {
        ScannedSplitAlnum(t);
      }
    }
  }

  /** The step of `ScannedSplit` past a separator, which starts a piece. */
  lemma ScannedSplitSeparator(t: string)
    requires t != [] && IsSeparator(t[0])
    requires Scanned(t[1..], true) == Capitalize(Split(t[1..])[0]) + Joined(Split(t[1..])[1..])
    ensures Scanned(t, false) == Split(t)[0] + Joined(Split(t)[1..])
    ensures Scanned(t, true) == Capitalize(Split(t)[0]) + Joined(Split(t)[1..])
  {
    var q := Split(t[1..]);
    assert Split(t) == [""] + q;
    assert Split(t)[1..] == q;
    JoinedCons(q[0], q[1..]);
    assert [q[0]] + q[1..] == q;
  }

  /** The step of `ScannedSplit` past a letter or digit, which joins the
      piece that follows it. */
  lemma ScannedSplitAlnum(t: string)
    requires t != [] && !IsSeparator(t[0])
    requires Scanned(t[1..], false) == Split(t[1..])[0] + Joined(Split(t[1..])[1..])
    ensures Scanned(t, false) == Split(t)[0] + Joined(Split(t)[1..])
    ensures Scanned(t, true) == Capitalize(Split(t)[0]) + Joined(Split(t)[1..])
  {
    var q := Split(t[1..]);
    var p0 := [t[0]] + q[0];
    var rest := Joined(q[1..]);
    assert Split(t) == [p0] + q[1..];
    assert Split(t)[0] == p0 && Split(t)[1..] == q[1..];
    assert Scanned(t, false) == [t[0]] + (q[0] + rest);
    Regroup([t[0]], q[0], rest);
    assert Capitalize(p0) == [UpperAscii(t[0])] + q[0] by {
      assert p0[0] == t[0] && p0[1..] == q[0];
    }
    assert Scanned(t, true) == [UpperAscii(t[0])] + (q[0] + rest);
    Regroup([UpperAscii(t[0])], q[0], rest);
  }

  lemma Regroup(a: string, b: string, c: string)
    ensures a + (b + c) == (a + b) + c
  {
  }

  /** `pascalCase` is the one-pass reading from the start of a piece. */
  lemma PascalCaseScanned(name: string)
    ensures PascalCase(name) == Scanned(name, true)
  {
    var p := Split(name);
    ScannedSplit(name);
    JoinedCons(p[0], p[1..]);
    assert [p[0]] + p[1..] == p;
  }

  lemma UpperAsciiAlnum(c: char)
    ensures IsAsciiAlnum(UpperAscii(c)) <==> IsAsciiAlnum(c)
    ensures UpperAscii(UpperAscii(c)) == UpperAscii(c)
  {
  }

  /** One pass keeps exactly the letters and digits. */
  lemma {:induction false} ScannedAlnum(s: string, atStart: bool)
    ensures |Scanned(s, atStart)| == Count(s, IsAsciiAlnum)
    ensures forall i :: 0 <= i < |Scanned(s, atStart)| ==> IsAsciiAlnum(Scanned(s, atStart)[i])
    decreases |s|
  {
    if s != [] {
      ScannedAlnum(s[1..], true);
      ScannedAlnum(s[1..], false);
      UpperAsciiAlnum(s[0]);
      if !IsSeparator(s[0]) {
        var r := Scanned(s, atStart);
        assert forall i :: 1 <= i < |r| ==> r[i] == Scanned(s[1..], false)[i - 1];
      }
    }
  }

  /** `pascalCase`'s result is made of ASCII letters and digits only, one for
      each letter or digit of its input. */
  lemma PascalCaseAlnum(name: string)
    ensures |PascalCase(name)| == Count(name, IsAsciiAlnum)
    ensures forall i :: 0 <= i < |PascalCase(name)| ==> IsAsciiAlnum(PascalCase(name)[i])
  {
    PascalCaseScanned(name);
    ScannedAlnum(name, true);
  }

  /** Inside a piece, text of letters and digits is kept as it is. */
  lemma {:induction false} ScannedPlain(t: string)
    requires forall i :: 0 <= i < |t| ==> IsAsciiAlnum(t[i])
    ensures Scanned(t, false) == t
    decreases |t|
  {
    if t != [] {
      ScannedPlain(t[1..]);
    }
  }

  /** A non-empty result starts with a character upper-casing leaves alone. */
  lemma {:induction false} ScannedStartsUpper(s: string)
    requires Scanned(s, true) != []
    ensures UpperAscii(Scanned(s, true)[0]) == Scanned(s, true)[0]
    decreases |s|
  {
    if IsSeparator(s[0]) {
      ScannedStartsUpper(s[1..]);
    } else {
      UpperAsciiAlnum(s[0]);
    }
  }

  /** Applying `pascalCase` twice gives what applying it once gives. */
  lemma PascalCaseIdempotent(name: string)
    ensures PascalCase(PascalCase(name)) == PascalCase(name)
  {
    var r := PascalCase(name);
    PascalCaseScanned(name);
    PascalCaseAlnum(name);
    PascalCaseScanned(r);
    if r != [] {
      ScannedStartsUpper(name);
      ScannedPlain(r[1..]);
      assert Scanned(r, true) == [UpperAscii(r[0])] + Scanned(r[1..], false);
      assert [r[0]] + r[1..] == r;
    }
  }

  /** No name gives no icon name. */
  lemma PascalCaseEmpty()
    ensures PascalCase("") == ""
  {
    PascalCaseScanned("");
  }

  /** The card's own example: "cube" names the `Cube` icon. */
  lemma PascalCaseCube()
    ensures PascalCase("cube") == "Cube"
  {
    PascalCaseScanned("cube");
    ScannedPlain("ube");
    assert "cube"[0] == 'c' && "cube"[1..] == "ube";
  }

  /** `value !== undefined && value !== null ? value : "-"` */
  function DisplayValue(value: Value): (r: Value)
    ensures Nullish(value) ==> r == Str("-")
    ensures !Nullish(value) ==> r == value
  {
    if !value.Undefined? && !value.Null? then value else Str("-")
  }

  /** The card never shows `undefined` or `null`, and `0`, `""` and `false`
      are shown as they are. */
  lemma DisplayValueShown(value: Value)
    ensures !Nullish(DisplayValue(value))
    ensures DisplayValue(DisplayValue(value)) == DisplayValue(value)
    ensures DisplayValue(value) == Str("-") <==> Nullish(value) || value == Str("-")
  {
  }

  /** The colour keys of `gradientColors`. */
  const ColorKeys: set<string> := {"blue", "orange", "red", "green", "gray", "purple"}

  const Blue: seq<string> := ["#3b82f6", "#2563eb"]

  /** `s || fallback` on a string. */
  function OrText(s: string, fallback: string): string {
    if s != "" then s else fallback
  }

  /** `gradientColors`, which takes the gray pair from the theme. */
  function Gradients(theme: Theme): (g: map<string, seq<string>>)
    ensures g.Keys == ColorKeys
    ensures g["blue"] == Blue
  {
    map["blue" := Blue,
        "orange" := ["#f97316", "#ea580c"],
        "red" := ["#ef4444", "#dc2626"],
        "green" := ["#22c55e", "#16a34a"],
        "gray" := [OrText(theme.colors.border, "#e5e7eb"), OrText(theme.colors.surfaceAlt, "#f3f4f6")],
        "purple" := ["#7c3aed", "#6d28d9"]]
  }

  /** `gradientColors[color] || gradientColors.blue`, where `color` defaults
      to "blue" when the property is absent (None). */
  function ChosenGradient(color: Option<string>, theme: Theme): (r: seq<string>)
    ensures |r| == 2
    ensures color.Some? && color.value in ColorKeys ==> r == Gradients(theme)[color.value]
    ensures color.None? || color.value !in ColorKeys ==> r == Blue
  {
    var key := if color.Some? then color.value else "blue";
    if key in Gradients(theme) then Gradients(theme)[key] else Gradients(theme)["blue"]
  }

  /** Both themes define the colours the gray gradient reads, so it is the
      theme's own border and alternate surface; on the light theme these are
      the fallbacks themselves. */
  lemma GrayFromTheme()
    ensures ChosenGradient(Some("gray"), LightTheme) == ["#e5e7eb", "#f3f4f6"]
    ensures ChosenGradient(Some("gray"), DarkTheme) == ["#30363D", "#1F242C"]
  {
    assert "gray" in ColorKeys;
  }

  /** Only gray depends on the theme. */
  lemma GradientThemeIndependent(color: Option<string>, a: Theme, b: Theme)
    requires color != Some("gray")
    ensures ChosenGradient(color, a) == ChosenGradient(color, b)
  {
  }
}
