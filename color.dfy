/**
 * `Color` (packages/engine/src/utils/color.ts): red, green and blue channels nominally in
 * 0..255 and an alpha nominally in 0..1, with conversions for the GPU and for CSS.
 */
module Colors {
  import opened Numeric

  /** `new Color(r = 255, g = 255, b = 255, a = 1)`. */
  datatype Color = Color(r: real := 255.0, g: real := 255.0, b: real := 255.0, a: real := 1.0) {

    /** `toFloat32Array`: the colour channels divided by 255, alpha as it is. */
    function ToFloat32Array(): (f: seq<real>)
      ensures |f| == 4
    {
      [r / 255.0, g / 255.0, b / 255.0, a]
    }

    /**
     * `toRGBAString`: the CSS form `rgba(r g b / a)`, each number printed by
     * `Number.prototype.toString` (non-integral values by the host formatter `fractional`).
     */
    function ToRGBAString(fractional: real -> string): string {
      "rgba(" + NumberToString(r, fractional) + " " + NumberToString(g, fractional) + " "
        + NumberToString(b, fractional) + " / " + NumberToString(a, fractional) + ")"
    }
  }

  /** `Color.red(alpha = 1)`. */
  function Red(alpha: real := 1.0): Color
  {
    Color(255.0, 0.0, 0.0, alpha)
  }

  predicate InRange(c: Color) {
    0.0 <= c.r <= 255.0 && 0.0 <= c.g <= 255.0 && 0.0 <= c.b <= 255.0 && 0.0 <= c.a <= 1.0
  }

  /** The default colour is opaque white, and `Color.red` is full red with the given alpha. */
  lemma Defaults(alpha: real)
    ensures Color() == Color(255.0, 255.0, 255.0, 1.0) && InRange(Color())
    ensures Red() == Color(255.0, 0.0, 0.0, 1.0)
    ensures Red(alpha).r == 255.0 && Red(alpha).g == 0.0 && Red(alpha).b == 0.0 && Red(alpha).a == alpha
  {
  }

  /**
   * A colour in range converts to four values in [0, 1]; multiplying the first three back
   * by 255 and taking the fourth as it is restores the colour (alpha is not rescaled).
   */
  lemma Float32ArrayInUnitRange(c: Color)
    ensures InRange(c) ==> forall i :: 0 <= i < 4 ==> 0.0 <= c.ToFloat32Array()[i] <= 1.0
    ensures Color(c.ToFloat32Array()[0] * 255.0, c.ToFloat32Array()[1] * 255.0, c.ToFloat32Array()[2] * 255.0, c.ToFloat32Array()[3]) == c
  {
  }

  // ----------------------------------------------------------------------------
  // Reading the CSS string back: splitting on spaces recovers the four numbers in order.

  /** `String.prototype.split` with a one-character separator. */
  function Split(s: string, sep: char): (parts: seq<string>)
    ensures |parts| > 0
    decreases |s|
  {
    if |s| == 0 then [""]
    else if s[0] == sep then [""] + Split(s[1..], sep)
    else
      var rest := Split(s[1..], sep);
      [[s[0]] + rest[0]] + rest[1..]
  }

  /** A field free of the separator, followed by the separator, splits off as one part. */
  lemma {:induction false} SplitField(a: string, sep: char, b: string)
    requires sep !in a
    ensures Split(a + [sep] + b, sep) == [a] + Split(b, sep)
    decreases |a|
  {
    if |a| == 0 {
      assert a + [sep] + b == [sep] + b;
      assert ([sep] + b)[1..] == b;
    } else {
      assert (a + [sep] + b)[1..] == a[1..] + [sep] + b;
      SplitField(a[1..], sep, b);
      assert [a[0]] + a[1..] == a;
    }
  }

  lemma {:induction false} SplitNoSeparator(a: string, sep: char)
    requires sep !in a
    ensures Split(a, sep) == [a]
    decreases |a|
  {
    if |a| > 0 {
      SplitNoSeparator(a[1..], sep);
      assert [a[0]] + a[1..] == a;
    }
  }

  /** The formatter for non-integral numbers never emits a space. */
  ghost predicate SpaceFree(fractional: real -> string) {
    forall x {:trigger fractional(x)} :: ' ' !in fractional(x)
  }

  lemma NumberToStringSpaceFree(x: real, fractional: real -> string)
    requires SpaceFree(fractional)
    ensures ' ' !in NumberToString(x, fractional)
  {
    if x == (x.Floor as real) && Abs(x) < 1000000000000000000000.0 {
      var n := if x.Floor < 0 then -x.Floor else x.Floor;
      NatToStringRoundTrip(n);
      var d := NatToString(n);
      assert forall i :: 0 <= i < |d| ==> d[i] != ' ';
      if x.Floor < 0 {
        assert NumberToString(x, fractional) == "-" + d;
      }
    }
  }

  /**
   * `toRGBAString` is `rgba(` … `)` around the four numbers, separated by single spaces
   * with a `/` before alpha: splitting the inside on spaces gives r, g, b, "/", a in order.
   */
  lemma RGBAStringFields(c: Color, fractional: real -> string)
    requires SpaceFree(fractional)
    ensures var s := c.ToRGBAString(fractional);
      |s| > 6 && s[..5] == "rgba(" && s[|s| - 1] == ')' &&
      Split(s[5..|s| - 1], ' ') == [NumberToString(c.r, fractional), NumberToString(c.g, fractional),
                                    NumberToString(c.b, fractional), "/", NumberToString(c.a, fractional)]
  {
    var R, G, B, A := NumberToString(c.r, fractional), NumberToString(c.g, fractional),
                      NumberToString(c.b, fractional), NumberToString(c.a, fractional);
    NumberToStringSpaceFree(c.r, fractional);
    NumberToStringSpaceFree(c.g, fractional);
    NumberToStringSpaceFree(c.b, fractional);
    NumberToStringSpaceFree(c.a, fractional);
    var inner := R + " " + G + " " + B + " / " + A;
    assert c.ToRGBAString(fractional) == "rgba(" + inner + ")";
    Wrapped(inner);
    SplitFive(R, G, B, A);
  }

  /** The text between `rgba(` and `)` is what was wrapped. */
  lemma Wrapped(inner: string)
    ensures var s := "rgba(" + inner + ")";
      |s| == |inner| + 6 && s[..5] == "rgba(" && s[|s| - 1] == ')' && s[5..|s| - 1] == inner
  {
  }

  /** Four space-free fields joined as `R G B / A` split back into five parts. */
  lemma SplitFive(R: string, G: string, B: string, A: string)
    requires ' ' !in R && ' ' !in G && ' ' !in B && ' ' !in A
    ensures Split(R + " " + G + " " + B + " / " + A, ' ') == [R, G, B, "/", A]
  {
    var t4 := "/" + [' '] + A;
    var t3 := B + [' '] + t4;
    var t2 := G + [' '] + t3;
    var t1 := R + [' '] + t2;
    Joined(R, G, B, A, t4, t3, t2, t1);
    SplitNoSeparator(A, ' ');
    SplitField("/", ' ', A);
    SplitField(B, ' ', t4);
    SplitField(G, ' ', t3);
    SplitField(R, ' ', t2);
  }

  /** `R G B / A` regrouped field by field from the right. */
  lemma Joined(R: string, G: string, B: string, A: string, t4: string, t3: string, t2: string, t1: string)
    requires t4 == "/" + [' '] + A && t3 == B + [' '] + t4 && t2 == G + [' '] + t3 && t1 == R + [' '] + t2
    ensures R + " " + G + " " + B + " / " + A == t1
  {
    var p := R + " " + G + " " + B;
    assert " / " + A == [' '] + t4;
    Regroup(p, " / ", A);
    Regroup(R + " " + G + " ", B, [' '] + t4);
    Regroup(B, [' '], t4);
    Regroup(R + " " + G, " ", t3);
    Regroup(R + " ", G, [' '] + t3);
    Regroup(G, [' '], t3);
    Regroup(R, " ", t2);
  }

  lemma Regroup(a: string, b: string, c: string)
    ensures a + b + c == a + (b + c)
  {
  }

  /** A whole channel value in 0..255 prints as its decimal digits, which read back as the value. */
  lemma ChannelRoundTrip(v: nat, fractional: real -> string)
    requires v <= 255
    ensures var s := NumberToString(v as real, fractional);
      (forall i :: 0 <= i < |s| ==> IsDigit(s[i])) && ParseDigits(s) == v
  {
    assert (v as real).Floor == v;
    NatToStringRoundTrip(v);
  }
}
