/** The display helpers of `Formatters`: `formatNumber`, `formatDate` and
    `formatInteger`. The locale formatting by `Intl.NumberFormat` and the
    number parsers `parseFloat`/`parseInt` are outside the model: a
    formatter's result is either the placeholder or the number it hands to
    `Intl.NumberFormat`, and the parser is a parameter that yields `None`
    for `NaN`. */
module Formatters {
  import opened Wrappers
  import opened Strings
  import opened Numerals

  /** What the formatters receive: `null`, `undefined`, a string, or a
      number (`None` standing for `NaN`). */
  datatype Input = Null | Undefined | Text(s: string) | Number(n: Option<real>)

  /** The placeholder `'–'`, or the number passed on to the locale
      formatter. */
  datatype Display = Dash | Shown(n: real)

  const Placeholder := "–"

  predicate IsAbsent(input: Input) {
    input.Null? || input.Undefined? || input == Text("")
  }

  // --------------------------------------------------------- formatNumber

  /** `num.replace(/\./g, '').replace(',', '.')`: the thousands points go,
      and the first decimal comma becomes a point. */
  function NormalizeDecimal(s: string): string {
    ReplaceFirst(RemoveAll(s, '.'), ',', '.')
  }

  lemma {:induction false} ReplaceFirstCount(s: string, from: char, to: char)
    requires to !in s && from != to
    ensures Count(ReplaceFirst(s, from, to), to) == if from in s then 1 else 0
  {
    if s != [] {
      ReplaceFirstCount(s[1..], from, to);
      if s[0] == from {
        assert ([to] + s[1..])[1..] == s[1..];
      } else {
        assert ([s[0]] + ReplaceFirst(s[1..], from, to))[1..] == ReplaceFirst(s[1..], from, to);
        assert from in s <==> from in s[1..];
      }
    }
  }

  /** The normalised string holds a point exactly when the input holds a
      comma, and never more than one. */
  lemma NormalizeDecimalPoints(s: string)
    ensures Count(NormalizeDecimal(s), '.') == if ',' in s then 1 else 0
  {
    RemoveAllKeepsOthers(s, '.');
    ReplaceFirstCount(RemoveAll(s, '.'), ',', '.');
  }

  /** `parseFloat` result as `formatNumber` reads it. */
  function FromParsed(x: Option<real>): (d: Display)
    ensures d.Dash? <==> x.None?
    ensures x.Some? ==> d == Shown(x.value)
  {
    match x
    case None => Dash
    case Some(v) => Shown(v)
  }

  /** `formatNumber`: the placeholder for a missing value and for `NaN`; a
      string is normalised and parsed first. */
  function FormatNumber(input: Input, parseFloat: string -> Option<real>): (d: Display)
    ensures IsAbsent(input) ==> d == Dash
    ensures input.Text? && input.s != "" ==> d == FromParsed(parseFloat(NormalizeDecimal(input.s)))
    ensures input.Number? ==> d == FromParsed(input.n)
  {
    match input
    case Null => Dash
    case Undefined => Dash
    case Text(s) => if s == "" then Dash else FromParsed(parseFloat(NormalizeDecimal(s)))
    case Number(n) => FromParsed(n)
  }

  /** An amount written the way the views show it, `1.249,95`, is
      normalised to the plain decimal `1249.95`. */
  lemma NormalizeGrouped(ds: string, frac: string)
    requires AllDigits(ds) && AllDigits(frac)
    ensures NormalizeDecimal(Group(ds) + "," + frac) == ds + "." + frac
  {
    GroupStripsBack(ds);
    NormalizeStripped(Group(ds), ds, frac);
  }

  lemma NormalizeStripped(g: string, ds: string, frac: string)
    requires RemoveAll(g, '.') == ds && AllDigits(ds) && AllDigits(frac)
    ensures NormalizeDecimal(g + "," + frac) == ds + "." + frac
  {
    PointsGo(g, ds, frac);
    CommaBecomesPoint(ds, frac);
    calc {
      NormalizeDecimal(g + "," + frac);
      { ConcatAssoc(g, ",", frac); }
      NormalizeDecimal(g + ("," + frac));
      ReplaceFirst(RemoveAll(g + ("," + frac), '.'), ',', '.');
      ReplaceFirst(ds + ("," + frac), ',', '.');
      ds + ("." + frac);
      { ConcatAssoc(ds, ".", frac); }
      ds + "." + frac;
    }
  }

  /** Only the group points go: the comma and the decimals stay. */
  lemma PointsGo(g: string, ds: string, frac: string)
    requires RemoveAll(g, '.') == ds && AllDigits(frac)
    ensures RemoveAll(g + ("," + frac), '.') == ds + ("," + frac)
  {
    var tail := "," + frac;
    DigitsHaveNoDot(frac);
    assert '.' !in tail;
    RemoveAllAbsent(tail, '.');
    RemoveAllAppend(g, tail, '.');
  }

  /** The comma after the digits becomes a point. */
  lemma CommaBecomesPoint(ds: string, frac: string)
    requires AllDigits(ds)
    ensures ReplaceFirst(ds + ("," + frac), ',', '.') == ds + ("." + frac)
  {
    var tail := "," + frac;
    DigitsHaveNoDot(ds);
    ReplaceFirstAfterPrefix(ds, tail, ',', '.');
    assert tail[0] == ',' && tail[1..] == frac;
  }

  /** With a parser that reads plain decimals of two fraction digits at
      their value, `formatNumber` shows a grouped amount at its value. */
  lemma FormatNumberOfGrouped(ds: string, frac: string, parseFloat: string -> Option<real>)
    requires AllDigits(ds) && ds != "" && AllDigits(frac) && |frac| == 2
    requires parseFloat(ds + "." + frac) == Some(ParseDigits(ds) as real + ParseDigits(frac) as real / 100.0)
    ensures FormatNumber(Text(Group(ds) + "," + frac), parseFloat)
              == Shown(ParseDigits(ds) as real + ParseDigits(frac) as real / 100.0)
  {
    NormalizeGrouped(ds, frac);
  }

  // ----------------------------------------------------------- formatDate

  /** Element `i` of a destructured array, `undefined` (shown as the text
      "undefined") when the array is shorter. */
  function Part(parts: seq<string>, i: nat): string {
    if i < |parts| then parts[i] else "undefined"
  }

  /** `formatDate`: `Y-M-D` becomes `D-M-Y`; an empty or missing date gives
      `null`. */
  function FormatDate(date: Option<string>): (r: Option<string>)
    ensures r.None? <==> date.None? || date.value == ""
  {
    if date.None? || date.value == "" then None
    else
      var parts := Split(date.value, '-');
      Some(Part(parts, 2) + "-" + Part(parts, 1) + "-" + Part(parts, 0))
  }

  lemma SplitThree(y: string, m: string, d: string)
    requires '-' !in y && '-' !in m && '-' !in d
    ensures Split(y + "-" + m + "-" + d, '-') == [y, m, d]
  {
    SplitNoSeparator(d, '-');
    SplitPrefix(m, d, '-');
    SplitPrefix(y, m + "-" + d, '-');
    assert y + "-" + m + "-" + d == y + ['-'] + (m + ['-'] + d);
  }

  /** A date of three `-`-separated fields comes back with its fields in
      reverse order. */
  lemma FormatDateReorders(y: string, m: string, d: string)
    requires '-' !in y && '-' !in m && '-' !in d
    ensures FormatDate(Some(y + "-" + m + "-" + d)) == Some(d + "-" + m + "-" + y)
  {
    SplitThree(y, m, d);
  }

  /** Formatting twice gives back any string with exactly two `-`. */
  lemma FormatDateTwice(s: string)
    requires Count(s, '-') == 2
    ensures FormatDate(FormatDate(Some(s))) == Some(s)
  {
    var parts := Split(s, '-');
    SplitLength(s, '-');
    JoinSplit(s, '-');
    var y, m, d := parts[0], parts[1], parts[2];
    assert parts[1..][1..] == [d];
    assert Join(parts[1..], '-') == m + "-" + d;
    assert s == y + "-" + (m + "-" + d);
    assert s == y + "-" + m + "-" + d;
    FormatDateReorders(y, m, d);
    FormatDateReorders(d, m, y);
  }

  /** A non-empty string without `-` fills the missing fields with
      "undefined". */
  lemma FormatDateWithoutDash(s: string)
    requires s != "" && '-' !in s
    ensures FormatDate(Some(s)) == Some("undefined-undefined-" + s)
  {
    SplitNoSeparator(s, '-');
    assert "undefined" + "-" + "undefined" + "-" + s == "undefined-undefined-" + s;
  }

  lemma FormatDateExample()
    ensures FormatDate(Some("2024-01-15")) == Some("15-01-2024")
  {
    FormatDateReorders("2024", "01", "15");
    assert "2024" + "-" + "01" + "-" + "15" == "2024-01-15";
    assert "15" + "-" + "01" + "-" + "2024" == "15-01-2024";
  }

  // -------------------------------------------------------- formatInteger

  /** `formatInteger`: the placeholder for a missing value and for `NaN`; a
      string loses every `.` and is parsed as a base-10 integer first. */
  function FormatInteger(input: Input, parseInt: string -> Option<int>): (d: Display)
    ensures IsAbsent(input) ==> d == Dash
    ensures input.Text? && input.s != "" ==>
              (d.Dash? <==> parseInt(RemoveAll(input.s, '.')).None?)
              && (d.Shown? ==> d.n == parseInt(RemoveAll(input.s, '.')).value as real)
    ensures input.Number? ==> d == FromParsed(input.n)
  {
    match input
    case Null => Dash
    case Undefined => Dash
    case Text(s) =>
      if s == "" then Dash
      else
        FromParsed(if parseInt(RemoveAll(s, '.')).Some? then Some(parseInt(RemoveAll(s, '.')).value as real) else None)
    case Number(n) => FromParsed(n)
  }

  /** A grouped integer such as `12.345` is shown at the value of its
      digits, given a parser that reads plain numerals at their value. */
  lemma FormatIntegerOfGrouped(n: nat, parseInt: string -> Option<int>)
    requires parseInt(Digits(n)) == Some(n)
    ensures FormatInteger(Text(Group(Digits(n))), parseInt) == Shown(n as real)
  {
    GroupStripsBack(Digits(n));
  }
}
