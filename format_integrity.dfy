/**
 * Format integrity and resolution: what the file's metadata says about its
 * format, bit depth and DPI, with the defaults used when the metadata is missing.
 * The metadata is the dict the analyzer extracts (`Null` for `None`).
 */
module FormatIntegrity {
  import opened Values
  import BaseMetrics
  import Scoring
  import MaskUtils

  datatype FormatResult = FormatResult(
    formatName: string,
    formatAllowed: bool,
    bitDepth: int,
    jpegQuality: Value,
    compression: Value)

  const DefaultAllowedFormats: seq<string> := ["tiff", "png", "jpeg"]
  const UnknownFormat: string := "unknown"

  /** Python's `int(x)` on a number: truncation toward zero. */
  function TruncToInt(x: real): (r: int)
    ensures x >= 0.0 ==> r as real <= x < r as real + 1.0
    ensures x < 0.0 ==> r as real - 1.0 < x <= r as real
  {
    if x >= 0.0 then x.Floor else -((-x).Floor)
  }

  /** `needle in hay` for two strings: `needle` occurs as a contiguous part of `hay`. */
  predicate IsSubstring(needle: string, hay: string)
  {
    exists i :: 0 <= i <= |hay| - |needle| && Window(hay, i, |needle|) == needle
  }

  function Window(s: string, i: int, n: nat): string
    requires 0 <= i && i + n <= |s|
  {
    s[i..i + n]
  }

  const GetAttributeError: string := "AttributeError: object has no attribute 'get'"
  const LowerAttributeError: string := "AttributeError: object has no attribute 'lower'"
  const NotIterableError: string := "TypeError: argument of type is not iterable"
  const IntTypeError: string := "TypeError: int() argument must be a string, a bytes-like object or a real number"
  const IntValueError: string := "ValueError: invalid literal for int() with base 10"
  const FloatTypeError: string := "TypeError: float() argument must be a string or a real number"
  const FloatValueError: string := "ValueError: could not convert string to float"

  // ---------------------------------------------------------------------------
  // Python's int() and float() on a string

  predicate IsDecimalDigit(c: char)
  {
    '0' <= c <= '9'
  }

  function StripLeadingSpaces(s: string): (r: string)
    ensures |r| <= |s|
  {
    if s != [] && IsSpace(s[0]) then StripLeadingSpaces(s[1..]) else s
  }

  function StripTrailingSpaces(s: string): (r: string)
    ensures |r| <= |s|
  {
    if s != [] && IsSpace(s[|s| - 1]) then StripTrailingSpaces(s[..|s| - 1]) else s
  }

  /** The whitespace `int()` and `float()` ignore at both ends. */
  function StripSpaces(s: string): string
  {
    StripTrailingSpaces(StripLeadingSpaces(s))
  }

  /** An optional `+` or `-`: whether it was a minus, and the rest. */
  function SplitSign(t: string): (bool, string)
  {
    if t != [] && (t[0] == '+' || t[0] == '-') then (t[0] == '-', t[1..]) else (false, t)
  }

  /** Decimal digits with single underscores between them, as both conversions accept. */
  predicate DigitRun(s: string)
  {
    && |s| > 0 && IsDecimalDigit(s[0]) && IsDecimalDigit(s[|s| - 1])
    && forall i :: 0 <= i < |s| - 1 ==> IsDecimalDigit(s[i]) || (s[i] == '_' && IsDecimalDigit(s[i + 1]))
  }

  /** Every character of a digit run is a digit or an underscore. */
  lemma RunChar(s: string, i: int)
    requires DigitRun(s) && 0 <= i < |s|
    ensures IsDecimalDigit(s[i]) || s[i] == '_'
  {
    if i < |s| - 1 {
      assert IsDecimalDigit(s[i]) || (s[i] == '_' && IsDecimalDigit(s[i + 1]));
    }
  }

  /** The number the digits spell, underscores ignored. */
  function DigitsValue(s: string): nat
  {
    if s == [] then 0
    else if IsDecimalDigit(s[|s| - 1]) then 10 * DigitsValue(s[..|s| - 1]) + (s[|s| - 1] as int - '0' as int)
    else DigitsValue(s[..|s| - 1])
  }

  /** How many digits there are, underscores ignored. */
  function DigitCount(s: string): nat
  {
    if s == [] then 0 else DigitCount(s[..|s| - 1]) + (if IsDecimalDigit(s[|s| - 1]) then 1 else 0)
  }

  /** The first position holding one of `cs`, or the length when none does. */
  function FirstIn(s: string, cs: string): (i: nat)
    ensures i <= |s|
    ensures i < |s| ==> s[i] in cs
    ensures forall j :: 0 <= j < i ==> s[j] !in cs
  {
    if s == [] then 0 else if s[0] in cs then 0 else 1 + FirstIn(s[1..], cs)
  }

  function Pow10(n: nat): (r: real)
    ensures r >= 1.0
  {
    if n == 0 then 1.0 else 10.0 * Pow10(n - 1)
  }

  /** `int(s)` for a string: an optional sign and a digit run between whitespace. */
  function ParseInt(s: string): Option<int>
  {
    var (neg, body) := SplitSign(StripSpaces(s));
    if DigitRun(body) then Some(if neg then -(DigitsValue(body) as int) else DigitsValue(body)) else None
  }

  /** The digits before and after an optional point, at least one side present. */
  function ParseMantissa(m: string): Option<real>
  {
    var p := FirstIn(m, ".");
    if p == |m| then
      if DigitRun(m) then Some(DigitsValue(m) as real) else None
    else
      var ip, fp := m[..p], m[p + 1..];
      if (ip == [] || DigitRun(ip)) && (fp == [] || DigitRun(fp)) && (ip != [] || fp != []) then
        Some(DigitsValue(ip) as real + DigitsValue(fp) as real / Pow10(DigitCount(fp)))
      else None
  }

  function ParseExponent(x: string): Option<int>
  {
    var (neg, d) := SplitSign(x);
    if DigitRun(d) then Some(if neg then -(DigitsValue(d) as int) else DigitsValue(d)) else None
  }

  function Scale(v: real, e: int): real
  {
    if e >= 0 then v * Pow10(e) else v / Pow10(-e)
  }

  /** `float(s)` for a string: an optional sign, a mantissa and an optional exponent between whitespace. */
  function ParseFloat(s: string): Option<real>
  {
    var (neg, body) := SplitSign(StripSpaces(s));
    var k := FirstIn(body, "eE");
    var mant := ParseMantissa(body[..k]);
    var ex := if k == |body| then Some(0) else ParseExponent(body[k + 1..]);
    if mant.Some? && ex.Some? then
      var v := Scale(mant.value, ex.value);
      Some(if neg then -v else v)
    else None
  }

  /** `str(n)` for an integer. */
  function IntText(n: int): string
  {
    if n < 0 then "-" + MaskUtils.NatString(-n) else MaskUtils.NatString(n)
  }

  lemma DigitChar(d: nat)
    requires d < 10
    ensures IsDecimalDigit(MaskUtils.Digit(d)) && MaskUtils.Digit(d) as int - '0' as int == d
  {
    assert "0123456789"[d] as int == '0' as int + d by {
      if d == 0 {} else if d == 1 {} else if d == 2 {} else if d == 3 {} else if d == 4 {}
      else if d == 5 {} else if d == 6 {} else if d == 7 {} else if d == 8 {} else {}
    }
  }

  /** The decimal text of a number is a digit run spelling that number. */
  lemma {:induction false} NatStringRun(n: nat)
    ensures DigitRun(MaskUtils.NatString(n)) && DigitsValue(MaskUtils.NatString(n)) == n
    decreases n
  {
    var s := MaskUtils.NatString(n);
    DigitChar(n % 10);
    if n >= 10 {
      var p := MaskUtils.NatString(n / 10);
      NatStringRun(n / 10);
      assert s == p + [MaskUtils.Digit(n % 10)];
      assert s[..|s| - 1] == p;
      forall i | 0 <= i < |s| - 1
        ensures IsDecimalDigit(s[i]) || (s[i] == '_' && IsDecimalDigit(s[i + 1]))
      {
        if i < |p| - 1 { assert s[i] == p[i] && s[i + 1] == p[i + 1]; } else { assert s[i] == p[|p| - 1]; }
      }
    }
  }

  lemma StripNothing(s: string)
    requires s != [] && !IsSpace(s[0]) && !IsSpace(s[|s| - 1])
    ensures StripSpaces(s) == s
  {
  }

  /** `int(str(n)) == n`: the conversion reads back the decimal text of every integer. */
  lemma IntTextRoundTrip(n: int)
    ensures ParseInt(IntText(n)) == Some(n)
  {
    var m := if n < 0 then -n else n;
    var d := MaskUtils.NatString(m);
    NatStringRun(m);
    var t := IntText(n);
    assert !IsSpace(t[|t| - 1]) by { assert t[|t| - 1] == d[|d| - 1]; }
    StripNothing(t);
    if n < 0 { assert t[1..] == d; }
  }

  /** No digit run holds a point or an exponent marker. */
  lemma RunHasNo(s: string, cs: string)
    requires DigitRun(s) && forall c :: c in cs ==> !IsDecimalDigit(c) && c != '_'
    ensures FirstIn(s, cs) == |s|
  {
    var k := FirstIn(s, cs);
    if k < |s| {
      RunChar(s, k);
    }
  }

  /** Every string `int()` accepts `float()` accepts too, with the same value. */
  lemma IntIsFloat(s: string)
    requires ParseInt(s).Some?
    ensures ParseFloat(s) == Some(ParseInt(s).value as real)
  {
    var (neg, body) := SplitSign(StripSpaces(s));
    RunHasNo(body, "eE");
    assert body[..|body|] == body;
    RunHasNo(body, ".");
  }

  /** `int("16") == 16`. */
  lemma SixteenParses()
    ensures ParseInt("16") == Some(16)
  {
    assert IntText(16) == "16" by { assert MaskUtils.NatString(1) == "1"; }
    IntTextRoundTrip(16);
  }

  /** `float("300") == 300.0`. */
  lemma ThreeHundredParses()
    ensures ParseFloat("300") == Some(300.0)
  {
    assert IntText(300) == "300" by { assert MaskUtils.NatString(3) == "3"; assert MaskUtils.NatString(30) == "30"; }
    IntTextRoundTrip(300);
    IntIsFloat("300");
  }

  /** `int()` refuses a decimal point. */
  lemma PointRefusedByInt()
    ensures ParseInt("1.5") == None
  {
    StripNothing("1.5");
    assert !DigitRun("1.5") by { assert !(IsDecimalDigit("1.5"[1]) || "1.5"[1] == '_'); }
  }

  // ---------------------------------------------------------------------------
  // FormatIntegrityMetrics

  /** `int(v)`: truncation of a number, 0 or 1 for a bool, the parse of a string. */
  function PyInt(v: Value): Result<int>
  {
    match v
    case Num(n) => Ok(TruncToInt(n))
    case Bool(b) => Ok(if b then 1 else 0)
    case Str(s) => if ParseInt(s).Some? then Ok(ParseInt(s).value) else Err(IntValueError)
    case _ => Err(IntTypeError)
  }

  /** `float(v)`: a number as it is, 0.0 or 1.0 for a bool, the parse of a string. */
  function PyFloat(v: Value): Result<real>
  {
    match v
    case Num(n) => Ok(n)
    case Bool(b) => Ok(if b then 1.0 else 0.0)
    case Str(s) => if ParseFloat(s).Some? then Ok(ParseFloat(s).value) else Err(FloatValueError)
    case _ => Err(FloatTypeError)
  }

  /** `metadata.get('format', 'unknown').lower()`: only a string has `lower`. */
  function FormatName(metadata: Value): Result<string>
  {
    match Lookup(metadata, "format")
    case None => Ok(UnknownFormat)
    case Some(Str(s)) => Ok(BaseMetrics.Lower(s))
    case Some(_) => Err(LowerAttributeError)
  }

  /**
   * `format_name in config.get('allowed_formats', [...])`: a config that is not a
   * dict has no `get`; then membership in a list, a substring test on a string, a
   * key test on a dict; `in` on any other value raises.
   */
  function FormatAllowed(config: Value, name: string): Result<bool>
  {
    if !config.Obj? then Err(GetAttributeError)
    else
    match Lookup(config, "allowed_formats")
    case None => Ok(name in DefaultAllowedFormats)
    case Some(Arr(items)) => Ok(Str(name) in items)
    case Some(Str(s)) => Ok(IsSubstring(name, s))
    case Some(Obj(f)) => Ok(name in Keys(f))
    case Some(_) => Err(NotIterableError)
  }

  /** `metadata.get(k, None)`. */
  function GetOrNull(metadata: Value, k: string): Value
  {
    match Lookup(metadata, k)
    case Some(v) => v
    case None => Null
  }

  /** `_analyze_metadata`: the format name, its membership, then `int(bit_depth)`, raising in that order. */
  function AnalyzeMetadata(metadata: Value, config: Value): Result<FormatResult>
  {
    if !metadata.Obj? then Err(GetAttributeError)
    else
      match FormatName(metadata)
      case Err(e) => Err(e)
      case Ok(name) =>
        match FormatAllowed(config, name)
        case Err(e) => Err(e)
        case Ok(allowed) =>
          match PyInt(GetOr(metadata, "bit_depth", Num(8.0)))
          case Err(e) => Err(e)
          case Ok(depth) => Ok(FormatResult(name, allowed, depth, GetOrNull(metadata, "jpeg_quality"),
                                            GetOrNull(metadata, "compression")))
  }

  /** `_basic_format_analysis`. */
  const BasicFormat: FormatResult := FormatResult(UnknownFormat, false, 8, Null, Null)

  /** `FormatIntegrityMetrics.compute`: the metadata when it is truthy, else the basic result. */
  function Compute(metadata: Value, config: Value): Result<FormatResult>
  {
    if Truthy(metadata) then AnalyzeMetadata(metadata, config) else Ok(BasicFormat)
  }

  const FormatNameKey: string := "format_name"
  const FormatAllowedKey: string := "format_allowed"
  const BitDepthKey: string := "bit_depth"

  function ToValue(r: FormatResult): Value
  {
    Obj([
      (FormatNameKey, Str(r.formatName)),
      (FormatAllowedKey, Bool(r.formatAllowed)),
      (BitDepthKey, Num(r.bitDepth as real)),
      ("jpeg_quality", r.jpegQuality),
      ("compression", r.compression)
    ])
  }

  /** The scorer reads the flag and the bit depth this result reports. */
  lemma ResultReads(r: FormatResult)
    ensures TruthyOr(ToValue(r), FormatAllowedKey, true) == r.formatAllowed
    ensures NumOr(ToValue(r), BitDepthKey, 8.0) == r.bitDepth as real
  {
    var v := ToValue(r);
    assert v.fields[0].0 != FormatAllowedKey by { assert FormatNameKey[7] != FormatAllowedKey[7]; }
    assert v.fields[1..][0] == (FormatAllowedKey, Bool(r.formatAllowed));
    assert Get(v.fields[1..], FormatAllowedKey) == Some(Bool(r.formatAllowed));
    assert v.fields[0].0 != BitDepthKey by { assert FormatNameKey[0] != BitDepthKey[0]; }
    assert v.fields[1..][0].0 != BitDepthKey by { assert FormatAllowedKey[0] != BitDepthKey[0]; }
    assert v.fields[2..][0] == (BitDepthKey, Num(r.bitDepth as real));
    assert Get(v.fields[2..], BitDepthKey) == Some(Num(r.bitDepth as real));
    assert Get(v.fields[1..], BitDepthKey) == Get(v.fields[1..][1..], BitDepthKey);
    assert v.fields[1..][1..] == v.fields[2..];
  }

  /** The format name holds no upper-case ASCII letter. */
  lemma FormatNameLowerCase(metadata: Value, config: Value)
    ensures var r := Compute(metadata, config);
      r.Ok? ==> forall i :: 0 <= i < |r.value.formatName| ==> !('A' <= r.value.formatName[i] <= 'Z')
  {
    if Truthy(metadata) && metadata.Obj? && FormatName(metadata).Ok? && Lookup(metadata, "format").Some? {
      var s := Lookup(metadata, "format").value.s;
      assert forall i :: 0 <= i < |s| ==> BaseMetrics.Lower(s)[i] == BaseMetrics.LowerChar(s[i]);
    }
  }

  /**
   * What raises, and in which order: metadata that is not a dict has no `get`, a
   * format that is not a string has no `lower`, a config that is not a dict has
   * no `get`, an allow-list that is not a collection has no `in`, and a bit depth
   * `int()` refuses raises last.
   */
  lemma MetadataRaises(metadata: Value, config: Value)
    requires Truthy(metadata)
    ensures !metadata.Obj? ==> Compute(metadata, config) == Err(GetAttributeError)
    ensures metadata.Obj? && Lookup(metadata, "format").Some? && !Lookup(metadata, "format").value.Str? ==>
      Compute(metadata, config) == Err(LowerAttributeError)
    ensures metadata.Obj? && FormatName(metadata).Ok? ==>
      (Compute(metadata, config).Err? <==>
        FormatAllowed(config, FormatName(metadata).value).Err? || PyInt(GetOr(metadata, "bit_depth", Num(8.0))).Err?)
    ensures metadata.Obj? && FormatName(metadata).Ok? && !config.Obj? ==> Compute(metadata, config) == Err(GetAttributeError)
    ensures var a := Lookup(config, "allowed_formats");
      metadata.Obj? && FormatName(metadata).Ok? && a.Some? && (a.value.Null? || a.value.Num? || a.value.Bool?) ==>
        Compute(metadata, config) == Err(NotIterableError)
  {
  }

  /**
   * With no allow-list in the config a format is allowed exactly when it is tiff,
   * png or jpeg; the format defaults to "unknown" and the bit depth to 8.
   */
  lemma MetadataDefaults(metadata: Value, config: Value)
    requires Truthy(metadata) && metadata.Obj?
    ensures Lookup(metadata, "format").None? && Lookup(metadata, "bit_depth").None? ==>
      (Compute(metadata, config).Ok? <==> FormatAllowed(config, UnknownFormat).Ok?)
    ensures var r := Compute(metadata, config);
      r.Ok? ==>
      && (Lookup(config, "allowed_formats").None? ==> (r.value.formatAllowed <==> r.value.formatName in DefaultAllowedFormats))
      && (Lookup(metadata, "bit_depth").None? ==> r.value.bitDepth == 8)
      && (Lookup(metadata, "format").None? ==> r.value.formatName == UnknownFormat)
  {
    if Lookup(metadata, "bit_depth").None? {
      assert TruncToInt(8.0) == 8;
    }
  }

  /** An upper-case name from the metadata passes the default allow-list once lower-cased. */
  lemma UpperCaseTiffAllowed(metadata: Value, config: Value)
    requires metadata.Obj? && Lookup(metadata, "format") == Some(Str("TIFF"))
    requires config.Obj? && Lookup(config, "allowed_formats").None?
    ensures Compute(metadata, config).Ok? <==> PyInt(GetOr(metadata, "bit_depth", Num(8.0))).Ok?
    ensures Compute(metadata, config).Ok? ==> Compute(metadata, config).value.formatAllowed
  {
    assert metadata.fields != [];
    assert BaseMetrics.Lower("TIFF") == "tiff";
  }

  /** A bit depth written as a string is converted the way `int()` converts it. */
  lemma BitDepthFromString(metadata: Value, config: Value)
    requires metadata.Obj? && Lookup(metadata, "format").None?
    requires config.Obj? && Lookup(config, "allowed_formats").None?
    requires Lookup(metadata, "bit_depth") == Some(Str("16"))
    ensures Compute(metadata, config).Ok? && Compute(metadata, config).value.bitDepth == 16
  {
    assert metadata.fields != [];
    SixteenParses();
  }

  /**
   * Without metadata (or with an empty dict) the format is unknown and not allowed,
   * the bit depth is 8, and the scorer fails format integrity.
   */
  lemma NoMetadataFails(metadata: Value, config: Value, cfg: Value)
    requires !Truthy(metadata)
    ensures Compute(metadata, config) == Ok(FormatResult(UnknownFormat, false, 8, Null, Null))
    ensures Scoring.ScoreFormatIntegrity(ToValue(Compute(metadata, config).value), cfg) == Scoring.Fail
  {
    ResultReads(BasicFormat);
  }

  // ---------------------------------------------------------------------------
  // ResolutionMetrics

  datatype ResolutionResult = ResolutionResult(
    effectiveDpiX: real,
    effectiveDpiY: real,
    pixelWidth: int,
    pixelHeight: int,
    megapixels: real)

  /**
   * `ResolutionMetrics.compute` for an image of `h` rows and `w` columns: both DPIs
   * default to 72, and `float()` converts what the metadata holds.
   */
  function ResolutionCompute(h: nat, w: nat, metadata: Value): Result<ResolutionResult>
  {
    var shape := (dx: real, dy: real) => ResolutionResult(dx, dy, w, h, (w * h) as real / 1000000.0);
    if !Truthy(metadata) then Ok(shape(72.0, 72.0))
    else if !metadata.Obj? then Err(GetAttributeError)
    else
      match PyFloat(GetOr(metadata, "dpi_x", Num(72.0)))
      case Err(e) => Err(e)
      case Ok(dx) =>
        match PyFloat(GetOr(metadata, "dpi_y", Num(72.0)))
        case Err(e) => Err(e)
        case Ok(dy) => Ok(shape(dx, dy))
  }

  const DpiXKey: string := "effective_dpi_x"
  const DpiYKey: string := "effective_dpi_y"

  function ResolutionToValue(r: ResolutionResult): Value
  {
    Obj([
      (DpiXKey, Num(r.effectiveDpiX)),
      (DpiYKey, Num(r.effectiveDpiY)),
      ("pixel_width", Num(r.pixelWidth as real)),
      ("pixel_height", Num(r.pixelHeight as real)),
      ("megapixels", Num(r.megapixels))
    ])
  }

  lemma ResolutionReads(r: ResolutionResult)
    ensures NumOr(ResolutionToValue(r), DpiXKey, 72.0) == r.effectiveDpiX
    ensures NumOr(ResolutionToValue(r), DpiYKey, 72.0) == r.effectiveDpiY
  {
    var v := ResolutionToValue(r);
    assert v.fields[0].0 != DpiYKey by { assert DpiXKey[14] != DpiYKey[14]; }
    assert v.fields[1..][0] == (DpiYKey, Num(r.effectiveDpiY));
    assert Get(v.fields[1..], DpiYKey) == Some(Num(r.effectiveDpiY));
  }

  /** The pixel size is the image's shape, and megapixels times a million is the pixel count. */
  lemma ResolutionShape(h: nat, w: nat, metadata: Value)
    ensures var r := ResolutionCompute(h, w, metadata);
      r.Ok? ==> r.value.pixelWidth == w && r.value.pixelHeight == h && r.value.megapixels * 1000000.0 == (w * h) as real
  {
  }

  /**
   * Resolution raises exactly when the metadata is truthy and either is not a
   * dict or holds a DPI that `float()` refuses; `dpi_x` is converted first.
   */
  lemma ResolutionRaises(h: nat, w: nat, metadata: Value)
    ensures var x, y := PyFloat(GetOr(metadata, "dpi_x", Num(72.0))), PyFloat(GetOr(metadata, "dpi_y", Num(72.0)));
      ResolutionCompute(h, w, metadata).Err? <==> Truthy(metadata) && (!metadata.Obj? || x.Err? || y.Err?)
    ensures Truthy(metadata) && metadata.Obj? && Lookup(metadata, "dpi_x") == Some(Null) ==>
      ResolutionCompute(h, w, metadata) == Err(FloatTypeError)
  {
  }

  /** A DPI written as a string is converted the way `float()` converts it. */
  lemma DpiFromString(h: nat, w: nat, metadata: Value)
    requires metadata.Obj? && Lookup(metadata, "dpi_x") == Some(Str("300")) && Lookup(metadata, "dpi_y").None?
    ensures ResolutionCompute(h, w, metadata).Ok?
    ensures ResolutionCompute(h, w, metadata).value.effectiveDpiX == 300.0
    ensures ResolutionCompute(h, w, metadata).value.effectiveDpiY == 72.0
  {
    assert metadata.fields != [];
    ThreeHundredParses();
    assert PyFloat(GetOr(metadata, "dpi_x", Num(72.0))) == Ok(300.0);
    assert PyFloat(GetOr(metadata, "dpi_y", Num(72.0))) == Ok(72.0);
  }

  /**
   * A DPI missing from the metadata (or the metadata itself) reads 72; below the
   * scorer's `min_dpi_text` (300 by default) resolution then fails.
   */
  lemma MissingDpiFails(h: nat, w: nat, metadata: Value, cfg: Value)
    requires !Truthy(metadata) || Lookup(metadata, "dpi_x").None?
    requires NumOr(cfg, "min_dpi_text", 300.0) > 72.0
    ensures !Truthy(metadata) ==> ResolutionCompute(h, w, metadata).Ok?
    ensures var r := ResolutionCompute(h, w, metadata);
      r.Ok? ==> r.value.effectiveDpiX == 72.0 && Scoring.ScoreResolution(ResolutionToValue(r.value), cfg) == Scoring.Fail
  {
    var r := ResolutionCompute(h, w, metadata);
    if r.Ok? {
      ResolutionReads(r.value);
    }
  }
}
