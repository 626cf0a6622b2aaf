/**
 * The request strings the widgets hand to the field's value accessor:
 *   an axis request   `tag`, `tag{unit}` or `tag->norm`;
 *   an extraction     `tag[idx]{unit}`, `dual[idx]` or `tag=op{unit}`.
 * Each is formatted from a structured value, and a reference reader recovers that value, which
 * shows the formatted text determines every part of the request.
 */
module Requests {
  import opened Common
  import opened Decimal

  /** Characters that end a tag in either grammar. */
  predicate IsDelimiter(c: char) { c == '{' || c == '[' || c == '=' || c == '-' }

  /** An axis tag the grammar can carry: none of its characters is a delimiter. */
  predicate IsTag(s: string) { forall c :: c in s ==> !IsDelimiter(c) }

  /** The length of the longest delimiter-free prefix. */
  function TagLength(s: string): (n: nat)
    ensures n <= |s| && IsTag(s[..n])
    ensures n < |s| ==> IsDelimiter(s[n])
  {
    if s == [] || IsDelimiter(s[0]) then 0
    else
      var n := TagLength(s[1..]);
      assert s[..n + 1] == [s[0]] + s[1..][..n];
      n + 1
  }

  lemma {:induction false} TagLengthOfTagged(tag: string, rest: string)
    requires IsTag(tag)
    requires rest == [] || IsDelimiter(rest[0])
    ensures TagLength(tag + rest) == |tag|
  {
    if tag == [] {
      assert tag + rest == rest;
    } else {
      assert tag[0] in tag;
      assert (tag + rest)[1..] == tag[1..] + rest;
      TagLengthOfTagged(tag[1..], rest);
    }
  }

  /** The first position of `c` in `s`, or `|s|` when there is none. */
  function Find(s: string, c: char): (n: nat)
    ensures n <= |s| && c !in s[..n]
    ensures n < |s| ==> s[n] == c
  {
    if s == [] || s[0] == c then 0
    else
      var n := Find(s[1..], c);
      assert s[..n + 1] == [s[0]] + s[1..][..n];
      n + 1
  }

  lemma {:induction false} FindAfter(a: string, c: char, b: string)
    requires c !in a
    ensures Find(a + [c] + b, c) == |a|
  {
    if a == [] {
      assert a + [c] + b == [c] + b;
    } else {
      assert a[0] in a;
      assert (a + [c] + b)[1..] == a[1..] + [c] + b;
      FindAfter(a[1..], c, b);
    }
  }

  // ---------------------------------------------------------------- axis requests

  datatype AxisSuffix = Plain | WithUnit(unit: string) | WithNorm(norm: string)

  datatype AxisRequest = AxisRequest(axis: string, suffix: AxisSuffix)

  function FormatAxisRequest(r: AxisRequest): string {
    r.axis + match r.suffix {
      case Plain => ""
      case WithUnit(u) => "{" + u + "}"
      case WithNorm(n) => "->" + n
    }
  }

  function ParseAxisRequest(s: string): Option<AxisRequest> {
    var n := TagLength(s);
    var tag, rest := s[..n], s[n..];
    if rest == [] then Some(AxisRequest(tag, Plain))
    else if rest[0] == '{' && |rest| >= 2 && rest[|rest| - 1] == '}' then
      Some(AxisRequest(tag, WithUnit(rest[1..|rest| - 1])))
    else if |rest| >= 2 && rest[0] == '-' && rest[1] == '>' then
      Some(AxisRequest(tag, WithNorm(rest[2..])))
    else None
  }

  lemma AxisRequestRoundTrip(r: AxisRequest)
    requires IsTag(r.axis)
    ensures ParseAxisRequest(FormatAxisRequest(r)) == Some(r)
  {
    var s := FormatAxisRequest(r);
    var rest := s[|r.axis|..];
    assert s == r.axis + rest;
    TagLengthOfTagged(r.axis, rest);
    assert s[..|r.axis|] == r.axis;
    match r.suffix
    case Plain =>
    case WithUnit(u) =>
      assert rest == "{" + u + "}";
      assert rest[1..|rest| - 1] == u;
    case WithNorm(m) =>
      assert rest == "->" + m;
      assert rest[2..] == m;
  }

  /** Whatever the reader accepts it accepts from exactly one formatted request. */
  lemma ParsedAxisRequestFormats(s: string)
    requires ParseAxisRequest(s).Some?
    ensures IsTag(ParseAxisRequest(s).value.axis)
    ensures FormatAxisRequest(ParseAxisRequest(s).value) == s
  {
    var n := TagLength(s);
    var rest := s[n..];
    PrefixThenRest(s, n);
    if rest != [] && rest[0] == '{' && |rest| >= 2 && rest[|rest| - 1] == '}' {
      BracedText(rest);
    } else if rest != [] {
      ArrowText(rest);
    }
  }

  lemma PrefixThenRest(s: string, n: nat)
    requires n <= |s|
    ensures s == s[..n] + s[n..]
  {
  }

  lemma BracedText(s: string)
    requires |s| >= 2 && s[0] == '{' && s[|s| - 1] == '}'
    ensures s == "{" + s[1..|s| - 1] + "}"
  {
  }

  lemma ArrowText(s: string)
    requires |s| >= 2 && s[0] == '-' && s[1] == '>'
    ensures s == "->" + s[2..]
  {
  }

  // ---------------------------------------------------------------- extractions

  datatype Extraction =
    | Slice(axis: string, index: nat, unit: string)
    | FftSlice(dual: string, index: nat)
    | Reduction(axis: string, op: string, unit: string)

  function FormatExtraction(e: Extraction): string {
    match e
    case Slice(a, i, u) => a + "[" + NatToString(i) + "]" + "{" + u + "}"
    case FftSlice(d, i) => d + "[" + NatToString(i) + "]"
    case Reduction(a, op, u) => a + "=" + op + "{" + u + "}"
  }

  /** The tag, index text and unit text a well-formed extraction carries. */
  predicate Readable(e: Extraction) {
    match e
    case Slice(a, _, _) => IsTag(a)
    case FftSlice(d, _) => IsTag(d)
    case Reduction(a, op, _) => IsTag(a) && '{' !in op
  }

  /** The bracketed part `idx]...` of a slice, read after its `[`. */
  function ParseIndexed(tag: string, body: string): Option<Extraction> {
    var j := Find(body, ']');
    if j == |body| then None
    else
      var digits, after := body[..j], body[j + 1..];
      if digits == [] || !AllDigits(digits) then None
      else if after == [] then Some(FftSlice(tag, DigitsValue(digits)))
      else if |after| >= 2 && after[0] == '{' && after[|after| - 1] == '}' then
        Some(Slice(tag, DigitsValue(digits), after[1..|after| - 1]))
      else None
  }

  /** The part `op{unit}` of a reduction, read after its `=`. */
  function ParseReduction(tag: string, body: string): Option<Extraction> {
    var j := Find(body, '{');
    var after := body[j..];
    if |after| >= 2 && after[|after| - 1] == '}' then
      Some(Reduction(tag, body[..j], after[1..|after| - 1]))
    else None
  }

  function ParseExtraction(s: string): Option<Extraction> {
    var n := TagLength(s);
    var tag, rest := s[..n], s[n..];
    if rest == [] then None
    else if rest[0] == '[' then ParseIndexed(tag, rest[1..])
    else if rest[0] == '=' then ParseReduction(tag, rest[1..])
    else None
  }

  lemma ParseIndexedOf(tag: string, i: nat, after: string)
    ensures ParseIndexed(tag, NatToString(i) + "]" + after) ==
      if after == [] then Some(FftSlice(tag, i))
      else if |after| >= 2 && after[0] == '{' && after[|after| - 1] == '}' then
        Some(Slice(tag, i, after[1..|after| - 1]))
      else None
  {
    var digits := NatToString(i);
    var body := digits + "]" + after;
    assert ']' !in digits;
    FindAfter(digits, ']', after);
    assert body[..|digits|] == digits && body[|digits| + 1..] == after;
    DigitsValueOfNatToString(i);
  }

  lemma SliceRoundTrip(a: string, i: nat, u: string)
    requires IsTag(a)
    ensures ParseExtraction(FormatExtraction(Slice(a, i, u))) == Some(Slice(a, i, u))
  {
    var s := FormatExtraction(Slice(a, i, u));
    var rest := "[" + NatToString(i) + "]" + "{" + u + "}";
    assert s == a + rest;
    TagLengthOfTagged(a, rest);
    assert s[..|a|] == a && s[|a|..] == rest;
    assert rest[1..] == NatToString(i) + "]" + ("{" + u + "}");
    ParseIndexedOf(a, i, "{" + u + "}");
    assert ("{" + u + "}")[1..|u| + 1] == u;
  }

  lemma FftSliceRoundTrip(d: string, i: nat)
    requires IsTag(d)
    ensures ParseExtraction(FormatExtraction(FftSlice(d, i))) == Some(FftSlice(d, i))
  {
    var s := FormatExtraction(FftSlice(d, i));
    var rest := "[" + NatToString(i) + "]";
    assert s == d + rest;
    TagLengthOfTagged(d, rest);
    assert s[..|d|] == d && s[|d|..] == rest;
    assert rest[1..] == NatToString(i) + "]" + "";
    ParseIndexedOf(d, i, "");
  }

  lemma ParseReductionOf(tag: string, op: string, u: string)
    requires '{' !in op
    ensures ParseReduction(tag, op + "{" + u + "}") == Some(Reduction(tag, op, u))
  {
    var body := op + "{" + u + "}";
    assert body == op + ['{'] + (u + "}");
    FindAfter(op, '{', u + "}");
    var after := body[|op|..];
    assert after == "{" + u + "}";
    assert body[..|op|] == op;
    assert after[1..|after| - 1] == u;
  }

  lemma ReductionRoundTrip(a: string, op: string, u: string)
    requires IsTag(a) && '{' !in op
    ensures ParseExtraction(FormatExtraction(Reduction(a, op, u))) == Some(Reduction(a, op, u))
  {
    var s := FormatExtraction(Reduction(a, op, u));
    var rest := "=" + op + "{" + u + "}";
    assert s == a + rest;
    TagLengthOfTagged(a, rest);
    assert s[..|a|] == a && s[|a|..] == rest;
    assert rest[1..] == op + "{" + u + "}";
    ParseReductionOf(a, op, u);
  }

  /** Reading a formatted extraction gives back the extraction it was formatted from. */
  lemma ExtractionRoundTrip(e: Extraction)
    requires Readable(e)
    ensures ParseExtraction(FormatExtraction(e)) == Some(e)
  {
    match e
    case Slice(a, i, u) => SliceRoundTrip(a, i, u);
    case FftSlice(d, i) => FftSliceRoundTrip(d, i);
    case Reduction(a, op, u) => ReductionRoundTrip(a, op, u);
  }
}
