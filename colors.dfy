/**
 * `adjust_alpha` of the older package: a colour string "rgb(r, g, b)" or
 * "rgba(r, g, b, a)" (or a named colour, looked up elsewhere) becomes its
 * components with the alpha scaled and clamped into [0, 1].
 */
module Colors {
  import opened Py

  /** What `adjust_alpha` formats as `rgba(r, g, b, a)`. */
  datatype Rgba = Rgba(r: int, g: int, b: int, a: real)

  /** The whitespace `int()` and `float()` skip around ASCII text. */
  predicate IsSpace(c: char)
  {
    c == ' ' || c == '\t' || c == '\n' || c == '\r' || c == '\U{B}' || c == '\U{C}'
  }

  predicate IsDigit(c: char)
  {
    '0' as int <= c as int <= '9' as int
  }

  /** `s.index(c)`: the first position of c; ValueError when there is none. */
  function Index(s: string, c: char): (r: Result<nat>)
    ensures r.Err? <==> c !in s
    ensures r.Ok? ==> r.value < |s| && s[r.value] == c && c !in s[..r.value]
    ensures r.Err? ==> r.error == ValueError
    decreases |s|
  {
    if |s| == 0 then Err(ValueError)
    else if s[0] == c then Ok(0)
    else
      var r := Index(s[1..], c);
      if r.Err? then r
      else
        assert s[..r.value + 1] == [s[0]] + s[1..][..r.value];
        Ok(r.value + 1)
  }

  /** `s.split(c)`: the pieces between the occurrences of c, at least one. */
  function Split(s: string, c: char): (parts: seq<string>)
    ensures |parts| >= 1
    decreases |s|
  {
    var i := Index(s, c);
    if i.Err? then [s] else [s[..i.value]] + Split(s[i.value + 1..], c)
  }

  /** No piece of a split holds the separator, and a text without it is its only piece. */
  lemma {:induction false} SplitLacks(s: string, c: char)
    ensures forall k :: 0 <= k < |Split(s, c)| ==> c !in Split(s, c)[k]
    ensures c !in s ==> Split(s, c) == [s]
    decreases |s|
  {
    var i := Index(s, c);
    if i.Ok? {
      var rest := Split(s[i.value + 1..], c);
      SplitLacks(s[i.value + 1..], c);
      assert Split(s, c) == [s[..i.value]] + rest;
    }
  }

  /** The pieces joined back with c between them: `c.join(parts)`. */
  function Join(parts: seq<string>, c: char): string
    decreases |parts|
  {
    if |parts| == 0 then "" else if |parts| == 1 then parts[0] else parts[0] + [c] + Join(parts[1..], c)
  }

  /** Joining a first piece onto at least one more puts c after it. */
  lemma JoinCons(p: string, rest: seq<string>, c: char)
    requires |rest| >= 1
    ensures Join([p] + rest, c) == p + [c] + Join(rest, c)
  {
    assert ([p] + rest)[1..] == rest;
  }

  /** Joining the pieces of a split gives the string back. */
  lemma {:induction false} SplitJoin(s: string, c: char)
    ensures Join(Split(s, c), c) == s
    decreases |s|
  {
    var i := Index(s, c);
    if i.Ok? {
      var head, tail := s[..i.value], s[i.value + 1..];
      calc {
        Join(Split(s, c), c);
        Join([head] + Split(tail, c), c);
        { JoinCons(head, Split(tail, c), c); }
        head + [c] + Join(Split(tail, c), c);
        { SplitJoin(tail, c); }
        head + [c] + tail;
        s;
      }
    }
  }

  /** A piece without c, then c, splits off as the first piece. */
  lemma SplitFront(a: string, b: string, c: char)
    requires c !in a
    ensures Split(a + [c] + b, c) == [a] + Split(b, c)
  {
    var s := a + [c] + b;
    assert s[..|a|] == a && s[|a| + 1..] == b && s[|a|] == c;
    assert c !in s[..|a|];
  }

  /** The leading whitespace `int()` and `float()` skip. */
  function StripLeft(s: string): string
    decreases |s|
  {
    if |s| > 0 && IsSpace(s[0]) then StripLeft(s[1..]) else s
  }

  /** The trailing whitespace `int()` and `float()` skip. */
  function StripRight(s: string): string
    decreases |s|
  {
    if |s| > 0 && IsSpace(s[|s| - 1]) then StripRight(s[..|s| - 1]) else s
  }

  /** StripLeft removes exactly the leading whitespace. */
  lemma {:induction false} StripLeftShape(s: string)
    ensures var t := StripLeft(s);
            |t| <= |s| && t == s[|s| - |t|..] && (|t| > 0 ==> !IsSpace(t[0])) &&
            forall i :: 0 <= i < |s| - |t| ==> IsSpace(s[i])
    decreases |s|
  {
    if |s| > 0 && IsSpace(s[0]) {
      StripLeftShape(s[1..]);
    }
  }

  /** StripRight removes exactly the trailing whitespace. */
  lemma {:induction false} StripRightShape(s: string)
    ensures var t := StripRight(s);
            |t| <= |s| && t == s[..|t|] && (|t| > 0 ==> !IsSpace(t[|t| - 1])) &&
            forall i :: |t| <= i < |s| ==> IsSpace(s[i])
    decreases |s|
  {
    if |s| > 0 && IsSpace(s[|s| - 1]) {
      StripRightShape(s[..|s| - 1]);
    }
  }

  /** The text `int()` and `float()` read, without the whitespace they skip on both sides. */
  function Strip(s: string): string
  {
    StripRight(StripLeft(s))
  }

  /** A non-empty run of decimal digits. */
  predicate AllDigits(s: string)
  {
    |s| > 0 && forall i :: 0 <= i < |s| ==> IsDigit(s[i])
  }

  /** The value of one decimal digit. */
  function Digit(c: char): (d: nat)
    requires IsDigit(c)
    ensures d < 10
  {
    c as int - '0' as int
  }

  /** The value of a run of decimal digits. */
  function DigitsValue(s: string): nat
    requires forall i :: 0 <= i < |s| ==> IsDigit(s[i])
    decreases |s|
  {
    if |s| == 0 then 0 else DigitsValue(s[..|s| - 1]) * 10 + Digit(s[|s| - 1])
  }

  /** The optional sign `int()` and `float()` accept: whether it is a minus, and the text after it. */
  function Signed(t: string): (r: (bool, string))
    ensures |r.1| <= |t|
  {
    if |t| > 0 && (t[0] == '-' || t[0] == '+') then (t[0] == '-', t[1..]) else (false, t)
  }

  /** v, negated when the sign was a minus. */
  function Apply(negative: bool, v: real): real
  {
    if negative then -v else v
  }

  /** `int(s)`: surrounding whitespace, an optional sign, and decimal digits; ValueError otherwise. */
  function ParseInt(s: string): (r: Result<int>)
    ensures r.Err? ==> r.error == ValueError
  {
    var (negative, body) := Signed(Strip(s));
    if !AllDigits(body) then Err(ValueError)
    else
      var v: int := DigitsValue(body);
      Ok(if negative then -v else v)
  }

  /** The value of the digits after a decimal point: "25" is 0.25. */
  function Fraction(s: string): (v: real)
    requires forall i :: 0 <= i < |s| ==> IsDigit(s[i])
    decreases |s|
  {
    if |s| == 0 then 0.0 else (Digit(s[0]) as real + Fraction(s[1..])) / 10.0
  }

  /**
   * `float(s)` on decimal literals: surrounding whitespace, an optional sign,
   * digits with an optional fraction after a point, at least one digit in
   * all; ValueError otherwise.
   */
  function ParseFloat(s: string): (r: Result<real>)
    ensures r.Err? ==> r.error == ValueError
  {
    var (negative, body) := Signed(Strip(s));
    var dot := Index(body, '.');
    if dot.Err? then
      if AllDigits(body) then Ok(Apply(negative, DigitsValue(body) as real)) else Err(ValueError)
    else
      var whole, frac := body[..dot.value], body[dot.value + 1..];
      if (|whole| > 0 || |frac| > 0) && (|whole| == 0 || AllDigits(whole)) && (|frac| == 0 || AllDigits(frac)) then
        Ok(Apply(negative, DigitsValue(whole) as real + Fraction(frac)))
      else Err(ValueError)
  }

  /** `a *= adjust_a`. */
  function Scale(a: real, adjust: real): real
  {
    a * adjust
  }

  /** Scaling the default alpha 1.0 gives the factor itself. */
  lemma ScaleOne(adjust: real)
    ensures Scale(1.0, adjust) == adjust
  {
  }

  /** `max(0, min(a, 1))`. */
  function Clamp(a: real): (c: real)
    ensures 0.0 <= c <= 1.0
    ensures 0.0 <= a <= 1.0 ==> c == a
    ensures a < 0.0 ==> c == 0.0
    ensures a > 1.0 ==> c == 1.0
  {
    var m := if a < 1.0 then a else 1.0;
    if 0.0 < m then m else 0.0
  }

  /**
   * `adjust_alpha(color, adjust_a)`, with `named` standing for the red, green
   * and blue of a colour name as `to_rgb` scaled to 0..255 gives them (or its
   * error). A string starting with "rgb" is read between its first "(" and
   * its first ")", split on commas: the first three pieces are `int`s, the
   * alpha is the fourth piece as a `float` when there are exactly four and 1.0
   * otherwise; every failure raises ValueError. The alpha is scaled by
   * `adjust_a` and clamped.
   */
  function AdjustAlpha(color: string, adjust: real, named: Result<(int, int, int)>): (r: Result<Rgba>)
    ensures r.Ok? ==> 0.0 <= r.value.a <= 1.0
    ensures IsRgbText(color) ==> (r.Err? ==> r.error == ValueError)
    ensures IsRgbText(color) && ('(' !in color || ')' !in color) ==> r == Err(ValueError)
    ensures !IsRgbText(color) ==> (r.Err? <==> named.Err?) && (r.Err? ==> r.error == named.error)
    ensures !IsRgbText(color) && r.Ok? ==> (r.value.r, r.value.g, r.value.b) == named.value
  {
    if IsRgbText(color) then
      var parts :- Components(color);
      var (r, g, b, a) :- ReadComponents(parts);
      Ok(Rgba(r, g, b, Clamp(Scale(a, adjust))))
    else
      var (r, g, b) :- named;
      Ok(Rgba(r, g, b, Clamp(Scale(1.0, adjust))))
  }

  /** Whether a colour is given as text starting with "rgb" rather than by name. */
  predicate IsRgbText(color: string)
  {
    |color| >= 3 && color[..3] == "rgb"
  }

  /** The comma-separated pieces between the first "(" and the first ")" of a colour text. */
  function Components(color: string): (r: Result<seq<string>>)
    ensures r.Err? <==> '(' !in color || ')' !in color
    ensures r.Err? ==> r.error == ValueError
  {
    var open :- Index(color, '(');
    var close :- Index(color, ')');
    Ok(Split(PySlice(color, open + 1, close), ','))
  }

  /**
   * The first three pieces as `int`s and the alpha: the fourth piece as a
   * `float` when there are exactly four, 1.0 otherwise; fewer than three
   * pieces cannot be unpacked into r, g and b.
   */
  function ReadComponents(parts: seq<string>): (r: Result<(int, int, int, real)>)
    ensures r.Err? ==> r.error == ValueError
    ensures r.Ok? ==> |parts| >= 3 && |parts| != 4 ==> r.value.3 == 1.0
  {
    if |parts| < 3 then Err(ValueError)
    else
      var r :- ParseInt(parts[0]);
      var g :- ParseInt(parts[1]);
      var b :- ParseInt(parts[2]);
      var a :- if |parts| == 4 then ParseFloat(parts[3]) else Ok(1.0);
      Ok((r, g, b, a))
  }

  /** With `adjust_a` 0, as for the hidden end of a gradient, every colour comes out fully transparent. */
  lemma ZeroAdjustHides(color: string, named: Result<(int, int, int)>)
    ensures var r := AdjustAlpha(color, 0.0, named);
            r.Ok? ==> r.value.a == 0.0
  {
    var r := AdjustAlpha(color, 0.0, named);
    if r.Ok? {
      if IsRgbText(color) {
        var parts :| Components(color) == Ok(parts);
        var v :| ReadComponents(parts) == Ok(v);
        AdjustRead(color, 0.0, named, parts, v);
        assert Scale(v.3, 0.0) == 0.0;
      } else {
        ScaleOne(0.0);
      }
    }
  }

  /** The decimal digits of n, as `str` writes them. */
  function DigitsOf(n: nat): (s: string)
    ensures AllDigits(s)
  {
    if n < 10 then [('0' as int + n) as char] else DigitsOf(n / 10) + [('0' as int + n % 10) as char]
  }

  /** `str(n)` for an int. */
  function IntText(n: int): string
  {
    if n < 0 then "-" + DigitsOf(-n) else DigitsOf(n)
  }

  /** The digits `str` writes read back as the number. */
  lemma {:induction false} DigitsRoundTrip(n: nat)
    ensures DigitsValue(DigitsOf(n)) == n
  {
    if n >= 10 {
      DigitsRoundTrip(n / 10);
      var s := DigitsOf(n);
      assert s[..|s| - 1] == DigitsOf(n / 10);
    }
  }

  /** Stripping text that starts and ends with a non-space leaves it; leading spaces go. */
  lemma StripSpaced(w: string, t: string)
    requires forall i :: 0 <= i < |w| ==> IsSpace(w[i])
    requires |t| > 0 && !IsSpace(t[0]) && !IsSpace(t[|t| - 1])
    ensures Strip(w + t) == t
  {
    StripLeftSpaced(w, t);
  }

  /** Leading spaces before a text starting with a non-space are what `StripLeft` removes. */
  lemma {:induction false} StripLeftSpaced(w: string, t: string)
    requires forall i :: 0 <= i < |w| ==> IsSpace(w[i])
    requires |t| > 0 && !IsSpace(t[0])
    ensures StripLeft(w + t) == t
    decreases |w|
  {
    if |w| > 0 {
      assert (w + t)[1..] == w[1..] + t;
      StripLeftSpaced(w[1..], t);
    } else {
      assert w + t == t;
    }
  }

  /** `int` reads back what `str` writes for an int, after any leading whitespace. */
  lemma ParseIntText(w: string, n: int)
    requires forall i :: 0 <= i < |w| ==> IsSpace(w[i])
    ensures ParseInt(w + IntText(n)) == Ok(n)
  {
    var t := IntText(n);
    StripSpaced(w, t);
    if n < 0 {
      DigitsRoundTrip(-n);
      assert t[1..] == DigitsOf(-n);
    } else {
      DigitsRoundTrip(n);
    }
  }

  /** A run of digits holds no decimal point. */
  lemma DigitsLackDot(s: string)
    requires AllDigits(s)
    ensures Index(s, '.') == Err(ValueError)
  {
    assert forall k :: 0 <= k < |s| ==> s[k] != '.';
  }

  /** `float` reads the text `str` writes for an int as that number, after any leading whitespace. */
  lemma ParseFloatText(w: string, n: int)
    requires forall i :: 0 <= i < |w| ==> IsSpace(w[i])
    ensures ParseFloat(w + IntText(n)) == Ok(n as real)
  {
    var t := IntText(n);
    StripSpaced(w, t);
    var m: nat := if n < 0 then -n else n;
    var digits := DigitsOf(m);
    DigitsRoundTrip(m);
    DigitsLackDot(digits);
    if n < 0 {
      assert t[1..] == digits;
      assert Signed(t) == (true, digits);
    } else {
      assert IsDigit(digits[0]);
      assert Signed(t) == (false, digits);
    }
  }

  /** `float(" -2.5")` is -2.5: spaces go, the sign applies to the whole and the fraction. */
  lemma ParseFloatExample()
    ensures ParseFloat(" -2.5") == Ok(-2.5)
  {
    StripSpaced(" ", "-2.5");
    assert " " + "-2.5" == " -2.5";
    assert Signed("-2.5") == (true, "2.5");
    IndexAfter("2", "5", '.');
    assert "2" + ['.'] + "5" == "2.5";
    assert "2.5"[..1] == "2" && "2.5"[2..] == "5";
    assert AllDigits("2") && AllDigits("5");
    assert DigitsValue("2") == 2;
    assert Fraction("5") == 0.5;
  }

  /** The text `name(p0,p1,...)` of a colour whose pieces are `parts`. */
  function ColorText(name: string, parts: seq<string>): string
  {
    name + "(" + Join(parts, ',') + ")"
  }

  /** "rgb(r, g, b)", as `str` writes three ints. */
  function RgbText(r: int, g: int, b: int): string
  {
    ColorText("rgb", [IntText(r), " " + IntText(g), " " + IntText(b)])
  }

  /** "rgba(r, g, b, a)", as `str` writes three ints and with alpha text a. */
  function RgbaText(r: int, g: int, b: int, a: string): string
  {
    ColorText("rgba", [IntText(r), " " + IntText(g), " " + IntText(b), " " + a])
  }

  /** No text `str` writes for an int contains a comma or a parenthesis. */
  lemma IntTextPlain(n: int)
    ensures Plain(IntText(n))
  {
    var t := IntText(n);
    if n < 0 {
      assert t[1..] == DigitsOf(-n);
    }
    forall i | 0 <= i < |t|
      ensures t[i] != ',' && t[i] != ')' && t[i] != '('
    {
      if n < 0 && i > 0 {
        assert t[i] == DigitsOf(-n)[i - 1];
      }
    }
  }

  /** Text without commas and parentheses. */
  predicate Plain(t: string)
  {
    ',' !in t && '(' !in t && ')' !in t
  }

  /** A text whose first occurrence of c is right after a, which lacks c. */
  lemma IndexAfter(a: string, b: string, c: char)
    requires c !in a
    ensures Index(a + [c] + b, c) == Ok(|a|)
  {
    var s := a + [c] + b;
    var r := Index(s, c);
    assert s[|a|] == c;
    assert s[..|a|] == a;
    assert r.Ok? && r.value <= |a|;
  }

  /** A character in no piece is in no join of them with another separator. */
  lemma {:induction false} JoinLacks(parts: seq<string>, c: char, d: char)
    requires c != d && forall i :: 0 <= i < |parts| ==> d !in parts[i]
    ensures d !in Join(parts, c)
    decreases |parts|
  {
    if |parts| > 1 {
      JoinLacks(parts[1..], c, d);
    }
  }

  /** Splitting pieces joined with a separator none of them holds gives the pieces back. */
  lemma {:induction false} JoinSplit(parts: seq<string>, c: char)
    requires |parts| >= 1 && forall i :: 0 <= i < |parts| ==> c !in parts[i]
    ensures Split(Join(parts, c), c) == parts
    decreases |parts|
  {
    if |parts| > 1 {
      SplitFront(parts[0], Join(parts[1..], c), c);
      JoinSplit(parts[1..], c);
    }
  }

  /**
   * In the text of a colour named without parentheses, with plain pieces,
   * `adjust_alpha` finds the pieces: its "(" follows the name, its first ")"
   * is the last character, and what lies between splits into the pieces.
   */
  lemma ColorTextParts(name: string, parts: seq<string>)
    requires '(' !in name && ')' !in name
    requires |parts| >= 1 && forall i :: 0 <= i < |parts| ==> Plain(parts[i])
    ensures var s := ColorText(name, parts);
            Index(s, '(') == Ok(|name|) && Index(s, ')') == Ok(|s| - 1) &&
            Split(PySlice(s, |name| + 1, |s| - 1), ',') == parts
  {
    var j := Join(parts, ',');
    var s := ColorText(name, parts);
    JoinLacks(parts, ',', '(');
    JoinLacks(parts, ',', ')');
    assert s == name + ['('] + (j + ")");
    IndexAfter(name, j + ")", '(');
    assert s == (name + "(" + j) + [')'] + "";
    assert ')' !in name + "(" + j;
    IndexAfter(name + "(" + j, "", ')');
    assert s[|name| + 1..|s| - 1] == j;
    JoinSplit(parts, ',');
  }

  /** The pieces of an "rgb(r, g, b)" text are plain. */
  lemma RgbPartsPlain(r: int, g: int, b: int, a: string)
    requires Plain(a)
    ensures var parts := [IntText(r), " " + IntText(g), " " + IntText(b), " " + a];
            forall i :: 0 <= i < |parts| ==> Plain(parts[i])
  {
    IntTextPlain(r);
    IntTextPlain(g);
    IntTextPlain(b);
  }

  /** The pieces `adjust_alpha` finds in a colour text with plain pieces. */
  lemma ComponentsOfText(name: string, parts: seq<string>)
    requires '(' !in name && ')' !in name
    requires |parts| >= 1 && forall i :: 0 <= i < |parts| ==> Plain(parts[i])
    ensures Components(ColorText(name, parts)) == Ok(parts)
  {
    ColorTextParts(name, parts);
  }

  /** The three ints of "rgb(r, g, b)" read back, with alpha 1.0. */
  lemma ReadRgb(r: int, g: int, b: int)
    ensures ReadComponents([IntText(r), " " + IntText(g), " " + IntText(b)]) == Ok((r, g, b, 1.0))
  {
    ParseIntText("", r);
    assert "" + IntText(r) == IntText(r);
    ParseIntText(" ", g);
    ParseIntText(" ", b);
  }

  /** The three ints and the alpha of "rgba(r, g, b, a)" read back. */
  lemma ReadRgba(r: int, g: int, b: int, a: string, v: real)
    requires ParseFloat(" " + a) == Ok(v)
    ensures ReadComponents([IntText(r), " " + IntText(g), " " + IntText(b), " " + a]) == Ok((r, g, b, v))
  {
    ParseIntText("", r);
    assert "" + IntText(r) == IntText(r);
    ParseIntText(" ", g);
    ParseIntText(" ", b);
  }

  /** A colour text whose name starts with "rgb" starts with "rgb". */
  lemma RgbPrefix(name: string, parts: seq<string>)
    requires |name| >= 3 && name[..3] == "rgb"
    ensures |ColorText(name, parts)| >= 3 && ColorText(name, parts)[..3] == "rgb"
  {
    var t := ColorText(name, parts);
    assert t[..3] == name[..3];
  }

  /** `adjust_alpha` of an "rgb" text is the reading of its pieces, the alpha scaled and clamped. */
  lemma AdjustRead(color: string, adjust: real, named: Result<(int, int, int)>, parts: seq<string>, v: (int, int, int, real))
    requires IsRgbText(color)
    requires Components(color) == Ok(parts) && ReadComponents(parts) == Ok(v)
    ensures AdjustAlpha(color, adjust, named) == Ok(Rgba(v.0, v.1, v.2, Clamp(Scale(v.3, adjust))))
  {
  }

  /**
   * `adjust_alpha` on the text of an "rgb(r, g, b)" colour gives back its
   * three ints with the alpha 1.0 scaled and clamped.
   */
  lemma RgbRoundTrip(r: int, g: int, b: int, adjust: real, named: Result<(int, int, int)>)
    ensures AdjustAlpha(RgbText(r, g, b), adjust, named) == Ok(Rgba(r, g, b, Clamp(adjust)))
  {
    var parts := [IntText(r), " " + IntText(g), " " + IntText(b)];
    RgbTextReads(r, g, b);
    AdjustRead(RgbText(r, g, b), adjust, named, parts, (r, g, b, 1.0));
    ScaleOne(adjust);
  }

  /** The text "rgb(r, g, b)" is rgb text whose pieces read back as r, g, b and the alpha 1.0. */
  lemma RgbTextReads(r: int, g: int, b: int)
    ensures var parts := [IntText(r), " " + IntText(g), " " + IntText(b)];
            IsRgbText(RgbText(r, g, b)) && Components(RgbText(r, g, b)) == Ok(parts) &&
            ReadComponents(parts) == Ok((r, g, b, 1.0))
  {
    var parts := [IntText(r), " " + IntText(g), " " + IntText(b)];
    IntTextPlain(r);
    IntTextPlain(g);
    IntTextPlain(b);
    ComponentsOfText("rgb", parts);
    ReadRgb(r, g, b);
    assert RgbText(r, g, b)[..3] == "rgb";
  }

  /**
   * `adjust_alpha` on the text of an "rgba(r, g, b, a)" colour whose alpha
   * text reads as the float v gives back its three ints and v scaled and
   * clamped.
   */
  lemma RgbaRoundTrip(r: int, g: int, b: int, a: string, v: real, adjust: real, named: Result<(int, int, int)>)
    requires Plain(a) && ParseFloat(" " + a) == Ok(v)
    ensures AdjustAlpha(RgbaText(r, g, b, a), adjust, named) == Ok(Rgba(r, g, b, Clamp(Scale(v, adjust))))
  {
    var parts := [IntText(r), " " + IntText(g), " " + IntText(b), " " + a];
    RgbaTextReads(r, g, b, a, v);
    AdjustRead(RgbaText(r, g, b, a), adjust, named, parts, (r, g, b, v));
  }

  /** The text "rgba(r, g, b, a)" is rgb text whose pieces read back as r, g, b and the float of a. */
  lemma RgbaTextReads(r: int, g: int, b: int, a: string, v: real)
    requires Plain(a) && ParseFloat(" " + a) == Ok(v)
    ensures var parts := [IntText(r), " " + IntText(g), " " + IntText(b), " " + a];
            IsRgbText(RgbaText(r, g, b, a)) && Components(RgbaText(r, g, b, a)) == Ok(parts) &&
            ReadComponents(parts) == Ok((r, g, b, v))
  {
    var parts := [IntText(r), " " + IntText(g), " " + IntText(b), " " + a];
    var t := RgbaText(r, g, b, a);
    assert t == ColorText("rgba", parts);
    RgbPartsPlain(r, g, b, a);
    ComponentsOfText("rgba", parts);
    ReadRgba(r, g, b, a, v);
    RgbPrefix("rgba", parts);
  }
}
