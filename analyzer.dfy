/**
 * The analyzer: it loads an image, extracts its metadata, runs the eleven metric
 * computers, scores their results and assembles the report; it analyzes batches of
 * paths and turns reports into CSV rows.
 *
 * What the model cannot see (decoding the image, PIL's metadata, the metric
 * computers themselves, the progress callback) enters through a `World` value or a
 * parameter.
 */
module Analyzer {
  import opened Values
  import Config
  import Scoring
  import BaseMetrics

  // ---------------------------------------------------------------------------
  // Paths (POSIX `os.path`)

  /** The index just past the last `/` of `p`, or 0 when `p` holds none. */
  function AfterLastSlash(p: string): (i: nat)
    ensures i <= |p|
    ensures forall j :: i <= j < |p| ==> p[j] != '/'
    ensures i > 0 ==> p[i - 1] == '/'
  {
    if p == [] then 0
    else if p[|p| - 1] == '/' then |p|
    else
      var q := p[..|p| - 1];
      assert forall j :: 0 <= j < |q| ==> q[j] == p[j];
      AfterLastSlash(q)
  }

  /** `os.path.basename`: what follows the last `/`. */
  function Basename(p: string): (b: string)
    ensures '/' !in b
    ensures |b| <= |p| && p == p[..|p| - |b|] + b
  {
    var i := AfterLastSlash(p);
    assert p == p[..i] + p[i..];
    p[i..]
  }

  predicate AllSlashes(s: string)
  {
    forall j :: 0 <= j < |s| ==> s[j] == '/'
  }

  /** `s.rstrip('/')`. */
  function RStripSlashes(s: string): (r: string)
    ensures |r| <= |s| && r == s[..|r|]
    ensures r == [] <==> AllSlashes(s)
    ensures r != [] ==> r[|r| - 1] != '/'
  {
    if s == [] || s[|s| - 1] != '/' then s
    else
      var q := s[..|s| - 1];
      assert forall j :: 0 <= j < |q| ==> q[j] == s[j];
      RStripSlashes(q)
  }

  /** `os.path.dirname`: the part before the last `/`, trailing slashes removed unless it is all slashes. */
  function Dirname(p: string): string
  {
    var head := p[..AfterLastSlash(p)];
    if head != [] && !AllSlashes(head) then RStripSlashes(head) else head
  }

  /** A path has no directory part exactly when it holds no `/`. */
  lemma DirnameEmpty(p: string)
    ensures Dirname(p) == [] <==> '/' !in p
  {
    var i := AfterLastSlash(p);
    if '/' in p {
      var j :| 0 <= j < |p| && p[j] == '/';
      assert i > j;
    }
  }

  /** The index of the last `.` of `s`, if any. */
  function LastDot(s: string): (r: Option<nat>)
    ensures r.Some? ==> r.value < |s| && s[r.value] == '.' && forall j :: r.value < j < |s| ==> s[j] != '.'
    ensures r.None? <==> '.' !in s
  {
    if s == [] then None
    else if s[|s| - 1] == '.' then Some(|s| - 1)
    else
      var q := s[..|s| - 1];
      assert forall j :: 0 <= j < |q| ==> q[j] == s[j];
      LastDot(q)
  }

  /**
   * The root `os.path.splitext` returns for a name without `/`: the name up to its
   * last dot, unless every character before that dot is a dot (so `.bashrc` keeps
   * its name).
   */
  function StripExtension(b: string): string
  {
    match LastDot(b)
    case None => b
    case Some(d) => if exists k :: 0 <= k < d && b[k] != '.' then b[..d] else b
  }

  /** `os.path.splitext(os.path.basename(path))[0]`. */
  function DefaultImageId(path: string): string
  {
    StripExtension(Basename(path))
  }

  /**
   * The default image id is the basename itself, or the basename cut at its last
   * dot; a name without a dot is kept whole.
   */
  lemma DefaultImageIdFacts(path: string)
    ensures var b, id := Basename(path), DefaultImageId(path);
      && |id| <= |b| && id == b[..|id|]
      && (id != b ==> b[|id|] == '.' && forall j :: |id| < j < |b| ==> b[j] != '.')
      && ('.' !in b ==> id == b)
  {
  }

  lemma BasenameAfter(p: string, i: nat)
    requires 0 < i <= |p| && p[i - 1] == '/' && '/' !in p[i..]
    ensures Basename(p) == p[i..]
  {
  }

  lemma StripAt(b: string, d: nat)
    requires d < |b| && b[d] == '.' && '.' !in b[d + 1..] && b[0] != '.' && 0 < d
    ensures StripExtension(b) == b[..d]
  {
  }

  /** `scans/page.tif` is reported as `page`. */
  lemma ImageIdDropsExtension()
    ensures DefaultImageId("s/p.tif") == "p"
  {
    BasenameAfter("s/p.tif", 2);
    assert "s/p.tif"[2..] == "p.tif";
    StripAt("p.tif", 1);
  }

  /** Only the last extension goes. */
  lemma ImageIdKeepsInnerDots()
    ensures DefaultImageId("b.c.d") == "b.c"
  {
    assert AfterLastSlash("b.c.d") == 0;
    StripAt("b.c.d", 3);
  }

  /** A name whose only dot leads it keeps that dot. */
  lemma ImageIdHiddenFile()
    ensures DefaultImageId("d/.rc") == ".rc"
  {
    BasenameAfter("d/.rc", 2);
    assert "d/.rc"[2..] == ".rc";
    assert LastDot(".rc") == Some(0);
  }

  // ---------------------------------------------------------------------------
  // _extract_metadata

  /** What PIL reports about an opened image; the EXIF entries are already named by `TAGS`. */
  datatype PilImage = PilImage(
    format: Option<string>,
    mode: string,
    width: nat,
    height: nat,
    dpi: Option<(Value, Value)>,
    exif: seq<(string, Value)>)

  const FormatKey: string := "format"
  const DpiXKey: string := "dpi_x"
  const DpiYKey: string := "dpi_y"
  const BitDepthKey: string := "bit_depth"

  /** The metadata when the file cannot be opened or read. */
  const FallbackMetadata: Value :=
    Obj([(FormatKey, Str("unknown")), (DpiXKey, Num(72.0)), (DpiYKey, Num(72.0)), (BitDepthKey, Num(8.0))])

  /** The format, mode, size and DPI entries, before the EXIF tags. */
  function BaseFields(img: PilImage): Fields
  {
    var format := if img.format.Some? && img.format.value != [] then BaseMetrics.Lower(img.format.value) else "unknown";
    var dpi := if img.dpi.Some? then img.dpi.value else (Num(72.0), Num(72.0));
    [(FormatKey, Str(format)), ("mode", Str(img.mode)),
     ("size", Arr([Num(img.width as real), Num(img.height as real)])),
     (DpiXKey, dpi.0), (DpiYKey, dpi.1)]
  }

  /**
   * `value if isinstance(value, int) else value[0]`; `None` where indexing raises
   * (a float, an empty tuple or string, `None`, a dict).
   */
  function BitsValue(v: Value): Option<Value>
  {
    match v
    case Bool(_) => Some(v)
    case Num(n) => if n == n.Floor as real then Some(v) else None
    case Arr(xs) => if xs != [] then Some(xs[0]) else None
    case Str(s) => if s != [] then Some(Str([s[0]])) else None
    case _ => None
  }

  /** One EXIF entry; `None` when it raises. */
  function ExifStep(m: Fields, tag: string, value: Value): Option<Fields>
  {
    if tag == "XResolution" then Some(Put(m, DpiXKey, value))
    else if tag == "YResolution" then Some(Put(m, DpiYKey, value))
    else if tag == "BitsPerSample" then
      match BitsValue(value)
      case Some(b) => Some(Put(m, BitDepthKey, b))
      case None => None
    else Some(m)
  }

  /** The EXIF entries applied in order; `None` once one of them raises. */
  function ExifApply(m: Fields, exif: seq<(string, Value)>): Option<Fields>
    decreases |exif|
  {
    if exif == [] then Some(m)
    else
      match ExifStep(m, exif[0].0, exif[0].1)
      case None => None
      case Some(m') => ExifApply(m', exif[1..])
  }

  /** The metadata of an image PIL opens (`None`: it cannot), with the fallback on any exception. */
  function MetadataOf(img: Option<PilImage>): Value
  {
    match img
    case None => FallbackMetadata
    case Some(p) =>
      match ExifApply(BaseFields(p), p.exif)
      case None => FallbackMetadata
      case Some(m) => if BitDepthKey in Keys(m) then Obj(m) else Obj(m + [(BitDepthKey, Num(8.0))])
  }

  /** `_extract_metadata`: the loop over the EXIF entries, then the bit depth from the mode (8 for every mode). */
  method ExtractMetadata(img: Option<PilImage>) returns (metadata: Value)
    ensures metadata == MetadataOf(img)
  {
    if img.None? {
      return FallbackMetadata;
    }
    var p := img.value;
    var m := BaseFields(p);
    var i := 0;
    while i < |p.exif|
      invariant 0 <= i <= |p.exif|
      invariant ExifApply(m, p.exif[i..]) == ExifApply(BaseFields(p), p.exif)
    {
      assert p.exif[i..][1..] == p.exif[i + 1..];
      var step := ExifStep(m, p.exif[i].0, p.exif[i].1);
      if step.None? {
        return FallbackMetadata;
      }
      m := step.value;
      i := i + 1;
    }
    if BitDepthKey in Keys(m) {
      metadata := Obj(m);
    } else {
      metadata := Obj(m + [(BitDepthKey, Num(8.0))]);
    }
  }

  lemma {:induction false} ExifKeepsKeys(m: Fields, exif: seq<(string, Value)>, k: string)
    requires ExifApply(m, exif).Some? && k in Keys(m)
    ensures k in Keys(ExifApply(m, exif).value)
    decreases |exif|
  {
    if exif != [] {
      var (tag, value) := exif[0];
      var m' := ExifStep(m, tag, value).value;
      if m' != m {
        var key := if tag == "XResolution" then DpiXKey else if tag == "YResolution" then DpiYKey else BitDepthKey;
        PutKeys(m, key, if tag == "BitsPerSample" then BitsValue(value).value else value);
      }
      ExifKeepsKeys(m', exif[1..], k);
    }
  }

  /** The fallback reports format `unknown`, 72 DPI both ways and a bit depth of 8. */
  lemma FallbackReads()
    ensures Lookup(FallbackMetadata, FormatKey) == Some(Str("unknown"))
    ensures Lookup(FallbackMetadata, DpiXKey) == Some(Num(72.0))
    ensures Lookup(FallbackMetadata, DpiYKey) == Some(Num(72.0))
    ensures Lookup(FallbackMetadata, BitDepthKey) == Some(Num(8.0))
  {
    var f := FallbackMetadata.fields;
    GetIndex(f, 0);
    GetIndex(f, 1);
    assert DpiXKey[4] != DpiYKey[4];
    GetIndex(f, 2);
    GetIndex(f, 3);
  }

  /** The metadata is always a dict holding a format, both DPIs and a bit depth. */
  lemma MetadataKeys(img: Option<PilImage>)
    ensures var m := MetadataOf(img);
      Has(m, FormatKey) && Has(m, DpiXKey) && Has(m, DpiYKey) && Has(m, BitDepthKey)
  {
    if img.Some? && ExifApply(BaseFields(img.value), img.value.exif).Some? {
      var b := BaseFields(img.value);
      var m := ExifApply(b, img.value.exif).value;
      KeysAt(b, 0);
      KeysAt(b, 3);
      KeysAt(b, 4);
      ExifKeepsKeys(b, img.value.exif, FormatKey);
      ExifKeepsKeys(b, img.value.exif, DpiXKey);
      ExifKeepsKeys(b, img.value.exif, DpiYKey);
      if BitDepthKey !in Keys(m) {
        KeysAppend(m, BitDepthKey, Num(8.0));
      }
    } else {
      FallbackReads();
    }
  }

  /** An image PIL cannot open, or an EXIF bit depth that cannot be indexed, gives the fallback metadata. */
  lemma FallbackCases(p: PilImage)
    requires p.exif != [] && p.exif[0].0 == "BitsPerSample" && p.exif[0].1 == Arr([])
    ensures MetadataOf(None) == FallbackMetadata
    ensures MetadataOf(Some(p)) == FallbackMetadata
  {
  }

  /**
   * Without DPI information and EXIF entries the DPIs are 72, and the bit depth is
   * 8 whatever the mode; so the report's DPI is 72 both ways.
   */
  lemma PlainImageDefaults(p: PilImage)
    requires p.dpi.None? && p.exif == []
    ensures Lookup(MetadataOf(Some(p)), DpiXKey) == Some(Num(72.0))
    ensures Lookup(MetadataOf(Some(p)), DpiYKey) == Some(Num(72.0))
    ensures Lookup(MetadataOf(Some(p)), BitDepthKey) == Some(Num(8.0))
  {
    var b := BaseFields(p);
    NotInKeys(b, BitDepthKey);
    var m := b + [(BitDepthKey, Num(8.0))];
    assert MetadataOf(Some(p)) == Obj(m);
    GetIndex(m, 3);
    assert DpiXKey[4] != DpiYKey[4];
    GetIndex(m, 4);
    GetIndex(m, 5);
  }

  // ---------------------------------------------------------------------------
  // The computers and one analysis

  /** The categories of the eleven computers, in registration order; document shadow is not among them. */
  const CategoryOrder: seq<string> := [
    "completeness", "foreign_objects", "sharpness", "exposure", "contrast", "color",
    "geometry", "border_background", "noise", "format_integrity", "resolution"]

  predicate Distinct(s: seq<string>)
  {
    forall i, j :: 0 <= i < j < |s| ==> s[i] != s[j]
  }

  lemma CategoryOrderFacts()
    ensures |CategoryOrder| == 11 && Distinct(CategoryOrder)
    ensures "document_shadow" !in CategoryOrder
  {
  }

  datatype Dims = Dims(height: nat, width: nat)

  /**
   * What the analyzer reads from outside: `cv2.imread` (`None` for an unreadable
   * file), `Image.open` (`None` when it raises), and a computer's result for a path,
   * a category, its config section and the metadata (`None` when it raises).
   */
  datatype World = World(
    load: string -> Option<Dims>,
    pil: string -> Option<PilImage>,
    compute: (string, string, Value, Value) -> Option<Value>)

  /** The analyzer's state: its config, the config its scorer was built from, and its computers. */
  datatype Settings = Settings(config: Value, scorerConfig: Value, computers: seq<string>)

  /** One category: the computer's result, or `{}` when it raised. */
  function CategoryMetrics(world: World, path: string, config: Value, metadata: Value, category: string): Value
  {
    match world.compute(path, category, GetOr(config, category, Obj([])), metadata)
    case Some(v) => v
    case None => Obj([])
  }

  /** The metrics dict of `_compute_all_metrics`, one entry per computer in order. */
  function AllMetrics(world: World, path: string, config: Value, metadata: Value, cats: seq<string>): (m: Fields)
    ensures |m| == |cats|
  {
    if cats == [] then []
    else
      var n := |cats| - 1;
      AllMetrics(world, path, config, metadata, cats[..n]) + [(cats[n], CategoryMetrics(world, path, config, metadata, cats[n]))]
  }

  /**
   * Every category gets an entry, in order, holding its own computer's result or
   * `{}`: a failing computer changes no other entry.
   */
  lemma {:induction false} AllMetricsFacts(world: World, path: string, config: Value, metadata: Value, cats: seq<string>)
    ensures var m := AllMetrics(world, path, config, metadata, cats);
      forall i :: 0 <= i < |cats| ==> m[i] == (cats[i], CategoryMetrics(world, path, config, metadata, cats[i]))
  {
    if cats != [] {
      AllMetricsFacts(world, path, config, metadata, cats[..|cats| - 1]);
    }
  }

  /** With distinct categories, a computer that raises leaves `{}` under its category. */
  lemma FailedComputerGivesEmpty(world: World, path: string, config: Value, metadata: Value, cats: seq<string>, i: nat)
    requires Distinct(cats) && i < |cats|
    requires world.compute(path, cats[i], GetOr(config, cats[i], Obj([])), metadata).None?
    ensures Get(AllMetrics(world, path, config, metadata, cats), cats[i]) == Some(Obj([]))
  {
    var m := AllMetrics(world, path, config, metadata, cats);
    AllMetricsFacts(world, path, config, metadata, cats);
    GetIndex(m, i);
  }

  datatype Entry =
    | Report(imageId: string, filePath: string, width: nat, height: nat, dpiX: Value, dpiY: Value,
             metrics: Fields, categoryStatus: seq<(string, Scoring.Status)>, global: Scoring.GlobalResult)
    | Failed(imageId: string, filePath: string, error: string)

  function LoadError(path: string): string
  {
    "Could not load image: " + path
  }

  /** `analyze_image`. */
  function Analysis(s: Settings, world: World, path: string, imageId: Option<string>): (r: Result<Entry>)
  {
    match world.load(path)
    case None => Err(LoadError(path))
    case Some(dims) => Ok(BuildReport(s, world, path, imageId, dims))
  }

  /** The report of an image that loaded. */
  function BuildReport(s: Settings, world: World, path: string, imageId: Option<string>, dims: Dims): Entry
  {
    var metadata := MetadataOf(world.pil(path));
    var metrics := AllMetrics(world, path, s.config, metadata, s.computers);
    var cs := Scoring.CategoryStatus(s.scorerConfig, metrics);
    Report(if imageId.Some? then imageId.value else DefaultImageId(path), path, dims.width, dims.height,
           GetOr(metadata, DpiXKey, Num(72.0)), GetOr(metadata, DpiYKey, Num(72.0)),
           metrics, cs, Scoring.GlobalScore(s.scorerConfig, Scoring.ScoresOf(cs), cs))
  }

  /**
   * An unreadable image is the load error and nothing else; a readable one gets a
   * report for the same path, with the given id or the default one, the image's
   * size, every computer's category, and the scorer's verdict on those metrics.
   */
  lemma AnalysisFacts(s: Settings, world: World, path: string, imageId: Option<string>)
    ensures var r := Analysis(s, world, path, imageId);
      && (r.Err? <==> world.load(path).None?)
      && (r.Err? ==> r.message == LoadError(path))
      && (r.Ok? ==>
            && r.value.Report? && r.value.filePath == path
            && r.value.imageId == (if imageId.Some? then imageId.value else DefaultImageId(path))
            && r.value.width == world.load(path).value.width && r.value.height == world.load(path).value.height
            && r.value.dpiX == GetOr(MetadataOf(world.pil(path)), DpiXKey, Num(72.0))
            && r.value.dpiY == GetOr(MetadataOf(world.pil(path)), DpiYKey, Num(72.0))
            && Keys(r.value.metrics) == s.computers
            && r.value.categoryStatus == Scoring.CategoryStatus(s.scorerConfig, r.value.metrics)
            && (r.value.global.criticalFail ==> r.value.global.stars == 1 && r.value.global.status == Scoring.Fail))
  {
    if world.load(path).Some? {
      var metadata := MetadataOf(world.pil(path));
      var m := AllMetrics(world, path, s.config, metadata, s.computers);
      AllMetricsFacts(world, path, s.config, metadata, s.computers);
      forall i | 0 <= i < |m| ensures Keys(m)[i] == s.computers[i] {
        KeysAt(m, i);
      }
    }
  }

  // ---------------------------------------------------------------------------
  // The analyzer object

  /** A configuration's stand-in: `config or load_default_config()`. */
  function InitialConfig(config: Value): Value
  {
    if Truthy(config) then config else Config.LoadDefaultConfig()
  }

  /** Without a configuration the analyzer starts from the default one, which passes the schema. */
  lemma DefaultInitialConfig()
    ensures InitialConfig(Null) == Config.DefaultConfig && Config.SchemaValid(InitialConfig(Null))
  {
    Config.DefaultSchemaValid();
  }

  class ImageQualityAnalyzer {
    var config: Value
    /** The configuration the scorer was built from. */
    var scorerConfig: Value
    const computers: seq<string>

    ghost predicate Valid()
      reads this
    {
      Config.SchemaValid(config) && scorerConfig == config && computers == CategoryOrder
    }

    function State(): Settings
      reads this
    {
      Settings(config, scorerConfig, computers)
    }

    /** The object `__init__` builds once the configuration has passed validation. */
    constructor (config: Value)
      requires Config.SchemaValid(config)
      ensures this.config == config && scorerConfig == config && computers == CategoryOrder
      ensures Valid()
    {
      this.config := config;
      scorerConfig := config;
      computers := CategoryOrder;
    }

    /** `_compute_all_metrics`. */
    method ComputeAllMetrics(world: World, path: string, metadata: Value) returns (metrics: Fields)
      ensures metrics == AllMetrics(world, path, config, metadata, computers)
    {
      metrics := [];
      var i := 0;
      while i < |computers|
        invariant 0 <= i <= |computers|
        invariant metrics == AllMetrics(world, path, config, metadata, computers[..i])
      {
        assert computers[..i + 1][..i] == computers[..i];
        var category := computers[i];
        var outcome := world.compute(path, category, GetOr(config, category, Obj([])), metadata);
        if outcome.Some? {
          metrics := metrics + [(category, outcome.value)];
        } else {
          metrics := metrics + [(category, Obj([]))];
        }
        i := i + 1;
      }
      assert computers[..i] == computers;
    }

    /** `analyze_image`. */
    method AnalyzeImage(world: World, path: string, imageId: Option<string>) returns (r: Result<Entry>)
      ensures r == Analysis(State(), world, path, imageId)
    {
      var dims := world.load(path);
      if dims.None? {
        return Err(LoadError(path));
      }
      var metadata := ExtractMetadata(world.pil(path));
      var id := if imageId.Some? then imageId.value else DefaultImageId(path);
      var metrics := ComputeAllMetrics(world, path, metadata);
      var scoring := Scoring.ScoreAllCategories(scorerConfig, metrics);
      r := Ok(Report(id, path, dims.value.width, dims.value.height,
                     GetOr(metadata, DpiXKey, Num(72.0)), GetOr(metadata, DpiYKey, Num(72.0)),
                     metrics, scoring.categoryStatus, scoring.global));
    }

    /**
     * One pass of `analyze_batch`'s loop: analyze the `i`-th path, then record what
     * happened, extending the results and calls of the first `i` paths to the first `i + 1`.
     */
    method AnalyzeNext(world: World, paths: seq<string>, callback: Option<Callback>, i: nat,
                       results: seq<Entry>, calls: seq<Call>)
      returns (results': seq<Entry>, calls': seq<Call>)
      requires i < |paths|
      requires results == Batch(MapPaths(AnalyzeWith(State(), world), paths), paths, callback, i)
      requires calls == Calls(MapPaths(AnalyzeWith(State(), world), paths), paths, callback, i)
      ensures results' == Batch(MapPaths(AnalyzeWith(State(), world), paths), paths, callback, i + 1)
      ensures calls' == Calls(MapPaths(AnalyzeWith(State(), world), paths), paths, callback, i + 1)
    {
      var r := AnalyzeImage(world, paths[i], None);
      MapPathsAt(AnalyzeWith(State(), world), paths, i);
      var entries, call := RecordOutcome(r, paths, callback, i);
      BatchStep(MapPaths(AnalyzeWith(State(), world), paths), paths, callback, i);
      results' := results + entries;
      calls' := calls + call;
    }

    /** `analyze_batch`: the entries, and the progress callback's calls in the order they are made. */
    method AnalyzeBatch(world: World, paths: seq<string>, callback: Option<Callback>)
      returns (results: seq<Entry>, calls: seq<Call>)
      ensures results == Batch(MapPaths(AnalyzeWith(State(), world), paths), paths, callback, |paths|)
      ensures calls == Calls(MapPaths(AnalyzeWith(State(), world), paths), paths, callback, |paths|)
    {
      results := [];
      calls := [];
      var i := 0;
      while i < |paths|
        invariant 0 <= i <= |paths|
        invariant results == Batch(MapPaths(AnalyzeWith(State(), world), paths), paths, callback, i)
        invariant calls == Calls(MapPaths(AnalyzeWith(State(), world), paths), paths, callback, i)
      {
        results, calls := AnalyzeNext(world, paths, callback, i, results, calls);
        i := i + 1;
      }
    }

    /** `update_config`: validate first, then replace the configuration and rebuild the scorer from it. */
    method UpdateConfig(newConfig: Value) returns (r: Result<Value>)
      modifies this
      ensures r == Config.ValidateConfig(newConfig)
      ensures r.Ok? ==> config == newConfig && scorerConfig == newConfig
      ensures r.Err? ==> config == old(config) && scorerConfig == old(scorerConfig)
      ensures old(Valid()) ==> Valid()
    {
      r := Config.ValidateConfig(newConfig);
      if r.Ok? {
        config := newConfig;
        scorerConfig := config;
      }
    }
  }

  /** `ImageQualityAnalyzer(config)`: the analyzer, or the validation error. */
  method NewAnalyzer(config: Value) returns (r: Result<ImageQualityAnalyzer>)
    ensures r.Ok? <==> Config.SchemaValid(InitialConfig(config))
    ensures r.Err? ==> r == Err(Config.ValidateConfig(InitialConfig(config)).message)
    ensures r.Ok? ==> fresh(r.value) && r.value.Valid() && r.value.config == InitialConfig(config)
  {
    var c := InitialConfig(config);
    var v := Config.ValidateConfig(c);
    if v.Err? {
      return Err(v.message);
    }
    var a := new ImageQualityAnalyzer(c);
    r := Ok(a);
  }

  // ---------------------------------------------------------------------------
  // analyze_batch

  /** A progress callback's arguments: position (from 1), batch size and path. */
  datatype Call = Call(index: nat, total: nat, path: string)

  /** A progress callback: `Some(message)` when it raises. */
  type Callback = (nat, nat, string) -> Option<string>

  /** The error record of a path whose analysis raised. */
  function ErrorEntry(path: string, message: string): Entry
  {
    Failed(Basename(path), path, message)
  }

  /** `analyze_image` with the default id, as a function of the path. */
  function AnalyzeWith(s: Settings, world: World): string -> Result<Entry>
  {
    p => Analysis(s, world, p, None)
  }

  /** A per-path function applied to each path of a batch, in order. */
  function MapPaths<T>(f: string -> T, paths: seq<string>): (r: seq<T>)
    ensures |r| == |paths|
  {
    if paths == [] then []
    else MapPaths(f, paths[..|paths| - 1]) + [f(paths[|paths| - 1])]
  }

  lemma {:induction false} MapPathsAt<T>(f: string -> T, paths: seq<string>, i: nat)
    requires i < |paths|
    ensures MapPaths(f, paths)[i] == f(paths[i])
  {
    var n := |paths| - 1;
    if i < n {
      MapPathsAt(f, paths[..n], i);
    }
  }

  /** The entries the `i`-th path adds, given its outcome. */
  function PathEntries(outcome: Result<Entry>, paths: seq<string>, callback: Option<Callback>, i: nat): seq<Entry>
    requires i < |paths|
  {
    match outcome
    case Err(msg) => [ErrorEntry(paths[i], msg)]
    case Ok(report) =>
      [report] + (if callback.None? then []
                  else match callback.value(i + 1, |paths|, paths[i])
                       case None => []
                       case Some(msg) => [ErrorEntry(paths[i], msg)])
  }

  /**
   * The rest of `analyze_batch`'s loop body for the `i`-th path, once `analyze_image`
   * has returned or raised: what it appends to the results, and the callback's call.
   */
  method RecordOutcome(outcome: Result<Entry>, paths: seq<string>, callback: Option<Callback>, i: nat)
    returns (entries: seq<Entry>, call: seq<Call>)
    requires i < |paths|
    ensures entries == PathEntries(outcome, paths, callback, i)
    ensures call == if callback.Some? && outcome.Ok? then [Call(i + 1, |paths|, paths[i])] else []
  {
    call := [];
    if outcome.Ok? {
      entries := [outcome.value];
      if callback.Some? {
        call := [Call(i + 1, |paths|, paths[i])];
        var raised := callback.value(i + 1, |paths|, paths[i]);
        if raised.Some? {
          entries := entries + [ErrorEntry(paths[i], raised.value)];
        }
      }
    } else {
      entries := [ErrorEntry(paths[i], outcome.message)];
    }
  }

  /** The results after the first `k` paths. */
  function Batch(outcomes: seq<Result<Entry>>, paths: seq<string>, callback: Option<Callback>, k: nat): seq<Entry>
    requires |outcomes| == |paths| && k <= |paths|
  {
    if k == 0 then []
    else Batch(outcomes, paths, callback, k - 1) + PathEntries(outcomes[k - 1], paths, callback, k - 1)
  }

  /** The callback's calls after the first `k` paths: one per success when there is a callback. */
  function Calls(outcomes: seq<Result<Entry>>, paths: seq<string>, callback: Option<Callback>, k: nat): seq<Call>
    requires |outcomes| == |paths| && k <= |paths|
  {
    if k == 0 then []
    else
      Calls(outcomes, paths, callback, k - 1)
      + (if callback.Some? && outcomes[k - 1].Ok? then [Call(k, |paths|, paths[k - 1])] else [])
  }

  function SuccessCount(outcomes: seq<Result<Entry>>): nat
  {
    if outcomes == [] then 0
    else SuccessCount(outcomes[..|outcomes| - 1]) + (if outcomes[|outcomes| - 1].Ok? then 1 else 0)
  }

  lemma BatchStep(outcomes: seq<Result<Entry>>, paths: seq<string>, callback: Option<Callback>, i: nat)
    requires |outcomes| == |paths| && i < |paths|
    ensures Batch(outcomes, paths, callback, i + 1)
            == Batch(outcomes, paths, callback, i) + PathEntries(outcomes[i], paths, callback, i)
    ensures Calls(outcomes, paths, callback, i + 1)
            == Calls(outcomes, paths, callback, i)
               + (if callback.Some? && outcomes[i].Ok? then [Call(i + 1, |paths|, paths[i])] else [])
  {
  }

  /** The entry a path yields: its report, or the error record. */
  function EntryFor(outcome: Result<Entry>, path: string): Entry
  {
    match outcome
    case Ok(report) => report
    case Err(msg) => ErrorEntry(path, msg)
  }

  /** The entry of an analyzed path: its report, or the load error's record, for that path. */
  lemma EntryForFacts(s: Settings, world: World, path: string)
    ensures var e := EntryFor(Analysis(s, world, path, None), path);
      && e.filePath == path
      && (e.Failed? <==> world.load(path).None?)
      && (e.Failed? ==> e.imageId == Basename(path) && e.error == LoadError(path))
      && (e.Report? ==> e.imageId == DefaultImageId(path))
  {
  }

  /** The callback raises at none of the successful paths. */
  predicate QuietCallback(outcomes: seq<Result<Entry>>, paths: seq<string>, callback: Option<Callback>)
    requires |outcomes| == |paths|
  {
    callback.Some? ==>
      forall i :: 0 <= i < |paths| && outcomes[i].Ok? ==> callback.value(i + 1, |paths|, paths[i]).None?
  }

  /**
   * Unless the progress callback raises, the batch has one entry per path, in order:
   * the path's report, or its error record.
   */
  lemma {:induction false} BatchOnePerPath(outcomes: seq<Result<Entry>>, paths: seq<string>, callback: Option<Callback>, k: nat)
    requires |outcomes| == |paths| && k <= |paths| && QuietCallback(outcomes, paths, callback)
    ensures var b := Batch(outcomes, paths, callback, k);
      |b| == k && forall i :: 0 <= i < k ==> b[i] == EntryFor(outcomes[i], paths[i])
  {
    QuietBatch(outcomes, paths, callback, k);
    EntriesAt(outcomes, paths, k);
  }

  /** One entry per path for the first `k` paths, in order. */
  function Entries(outcomes: seq<Result<Entry>>, paths: seq<string>, k: nat): (r: seq<Entry>)
    requires |outcomes| == |paths| && k <= |paths|
    ensures |r| == k
  {
    if k == 0 then [] else Entries(outcomes, paths, k - 1) + [EntryFor(outcomes[k - 1], paths[k - 1])]
  }

  lemma {:induction false} EntriesAt(outcomes: seq<Result<Entry>>, paths: seq<string>, k: nat)
    requires |outcomes| == |paths| && k <= |paths|
    ensures forall i :: 0 <= i < k ==> Entries(outcomes, paths, k)[i] == EntryFor(outcomes[i], paths[i])
  {
    if k > 0 {
      EntriesAt(outcomes, paths, k - 1);
      var prev := Entries(outcomes, paths, k - 1);
      assert forall i :: 0 <= i < k - 1 ==> Entries(outcomes, paths, k)[i] == prev[i];
    }
  }

  lemma {:induction false} QuietBatch(outcomes: seq<Result<Entry>>, paths: seq<string>, callback: Option<Callback>, k: nat)
    requires |outcomes| == |paths| && k <= |paths| && QuietCallback(outcomes, paths, callback)
    ensures Batch(outcomes, paths, callback, k) == Entries(outcomes, paths, k)
  {
    if k > 0 {
      QuietBatch(outcomes, paths, callback, k - 1);
      QuietPathEntry(outcomes, paths, callback, k - 1);
    }
  }

  /** Under a quiet callback each path adds exactly its own entry. */
  lemma QuietPathEntry(outcomes: seq<Result<Entry>>, paths: seq<string>, callback: Option<Callback>, i: nat)
    requires |outcomes| == |paths| && i < |paths| && QuietCallback(outcomes, paths, callback)
    ensures PathEntries(outcomes[i], paths, callback, i) == [EntryFor(outcomes[i], paths[i])]
  {
  }

  /**
   * A callback that raises after a successful analysis adds an error record for a
   * path that already has its report.
   */
  lemma RaisingCallbackAddsEntry(report: Entry, path: string, f: Callback)
    requires f(1, 1, path).Some?
    ensures var b := Batch([Ok(report)], [path], Some(f), 1);
      b == [report, Failed(Basename(path), path, f(1, 1, path).value)]
  {
  }

  /**
   * The callback fires after successes only, once each, in path order, with the
   * path's position (from 1), the batch size and the path; without a callback it
   * never fires.
   */
  lemma {:induction false} CallsFacts(outcomes: seq<Result<Entry>>, paths: seq<string>, callback: Option<Callback>, k: nat)
    requires |outcomes| == |paths| && k <= |paths|
    ensures var c := Calls(outcomes, paths, callback, k);
      && (callback.None? ==> c == [])
      && (forall j :: 0 <= j < |c| ==>
            1 <= c[j].index <= k && c[j].total == |paths| && c[j].path == paths[c[j].index - 1]
            && outcomes[c[j].index - 1].Ok?)
      && (forall j, l :: 0 <= j < l < |c| ==> c[j].index < c[l].index)
      && (callback.Some? ==> |c| == SuccessCount(outcomes[..k]))
  {
    if callback.None? {
      CallsWithoutCallback(outcomes, paths, callback, k);
    } else {
      CallsCount(outcomes, paths, callback, k);
    }
    CallsInOrder(outcomes, paths, callback, k);
  }

  lemma {:induction false} CallsWithoutCallback(outcomes: seq<Result<Entry>>, paths: seq<string>, callback: Option<Callback>, k: nat)
    requires |outcomes| == |paths| && k <= |paths| && callback.None?
    ensures Calls(outcomes, paths, callback, k) == []
  {
    if k > 0 {
      CallsWithoutCallback(outcomes, paths, callback, k - 1);
    }
  }

  /** Each call is for a successful path among the first `k`, with the batch size and that path. */
  predicate CallsPlaced(c: seq<Call>, outcomes: seq<Result<Entry>>, paths: seq<string>, k: nat)
    requires |outcomes| == |paths| && k <= |paths|
  {
    forall j :: 0 <= j < |c| ==>
      1 <= c[j].index <= k && c[j].total == |paths| && c[j].path == paths[c[j].index - 1]
      && outcomes[c[j].index - 1].Ok?
  }

  predicate IndicesIncrease(c: seq<Call>)
  {
    forall j, l :: 0 <= j < l < |c| ==> c[j].index < c[l].index
  }

  lemma {:induction false} CallsInOrder(outcomes: seq<Result<Entry>>, paths: seq<string>, callback: Option<Callback>, k: nat)
    requires |outcomes| == |paths| && k <= |paths|
    ensures CallsPlaced(Calls(outcomes, paths, callback, k), outcomes, paths, k)
    ensures IndicesIncrease(Calls(outcomes, paths, callback, k))
  {
    if k > 0 {
      CallsInOrder(outcomes, paths, callback, k - 1);
      var prev := Calls(outcomes, paths, callback, k - 1);
      if callback.Some? && outcomes[k - 1].Ok? {
        var c := prev + [Call(k, |paths|, paths[k - 1])];
        assert Calls(outcomes, paths, callback, k) == c;
        forall j | 0 <= j < |c|
          ensures 1 <= c[j].index <= k && c[j].total == |paths| && c[j].path == paths[c[j].index - 1]
                  && outcomes[c[j].index - 1].Ok?
        {
          if j < |prev| {
            assert c[j] == prev[j];
          }
        }
        forall j, l | 0 <= j < l < |c|
          ensures c[j].index < c[l].index
        {
          assert c[j] == prev[j];
          if l < |prev| {
            assert c[l] == prev[l];
          }
        }
      } else {
        assert Calls(outcomes, paths, callback, k) == prev;
      }
    }
  }

  lemma {:induction false} CallsCount(outcomes: seq<Result<Entry>>, paths: seq<string>, callback: Option<Callback>, k: nat)
    requires |outcomes| == |paths| && k <= |paths| && callback.Some?
    ensures |Calls(outcomes, paths, callback, k)| == SuccessCount(outcomes[..k])
  {
    if k > 0 {
      CallsCount(outcomes, paths, callback, k - 1);
      assert outcomes[..k][..k - 1] == outcomes[..k - 1];
    }
  }

  // ---------------------------------------------------------------------------
  // Reports as dicts

  const ImageIdKey: string := "image_id"
  const FilePathKey: string := "file_path"
  const ErrorKey: string := "error"
  const GlobalKey: string := "global"

  function StatusFields(cs: seq<(string, Scoring.Status)>): (f: Fields)
    ensures |f| == |cs|
  {
    if cs == [] then [] else StatusFields(cs[..|cs| - 1]) + [(cs[|cs| - 1].0, Str(Scoring.StatusValue(cs[|cs| - 1].1)))]
  }

  function GlobalToValue(g: Scoring.GlobalResult): Value
  {
    Obj([("score", Num(g.score)), ("stars", Num(g.stars as real)), ("status", Str(Scoring.StatusValue(g.status))),
         ("critical_fail", Bool(g.criticalFail)), ("actions", Arr(seq(|g.actions|, i requires 0 <= i < |g.actions| => Str(g.actions[i]))))])
  }

  const ErrorGlobal: Value := Obj([("status", Str("error")), ("score", Num(0.0)), ("stars", Num(0.0))])

  /** The dict `analyze_image` or `analyze_batch` returns. */
  function EntryToValue(e: Entry): Value
  {
    match e
    case Report(id, path, w, h, dpiX, dpiY, metrics, cs, g) =>
      Obj([(ImageIdKey, Str(id)), (FilePathKey, Str(path)),
           ("pixels", Obj([("w", Num(w as real)), ("h", Num(h as real))])),
           ("dpi", Obj([("x", dpiX), ("y", dpiY)])),
           ("metrics", Obj(metrics)), ("category_status", Obj(StatusFields(cs))), (GlobalKey, GlobalToValue(g))])
    case Failed(id, path, msg) =>
      Obj([(ImageIdKey, Str(id)), (FilePathKey, Str(path)), (ErrorKey, Str(msg)), (GlobalKey, ErrorGlobal)])
  }

  /** Only an error record holds an `error` key. */
  lemma ErrorKeyMarksFailure(e: Entry)
    ensures Has(EntryToValue(e), ErrorKey) <==> e.Failed?
  {
    var f := EntryToValue(e).fields;
    if e.Report? {
      NotInKeys(f, ErrorKey);
    } else {
      GetIndex(f, 2);
    }
  }

  /** An error record reports status `error`, score 0.0 and no stars, and its id keeps the extension. */
  lemma ErrorRecordFacts(path: string, message: string)
    ensures var v := EntryToValue(ErrorEntry(path, message));
      && Lookup(v, GlobalKey) == Some(ErrorGlobal)
      && StrOr(ErrorGlobal, "status", "") == "error"
      && NumOr(ErrorGlobal, "score", 1.0) == 0.0 && NumOr(ErrorGlobal, "stars", 1.0) == 0.0
      && Lookup(v, ImageIdKey) == Some(Str(Basename(path)))
  {
    var v := EntryToValue(ErrorEntry(path, message));
    assert v.fields[0] == (ImageIdKey, Str(Basename(path)));
    ErrorGlobalReads();
    ErrorRecordGlobal(v.fields);
  }

  lemma ErrorGlobalReads()
    ensures StrOr(ErrorGlobal, "status", "") == "error"
    ensures NumOr(ErrorGlobal, "score", 1.0) == 0.0 && NumOr(ErrorGlobal, "stars", 1.0) == 0.0
  {
    GetIndex(ErrorGlobal.fields, 1);
    GetIndex(ErrorGlobal.fields, 2);
  }

  lemma ErrorRecordGlobal(f: Fields)
    requires |f| == 4 && f[3] == (GlobalKey, ErrorGlobal)
    requires f[0].0 == ImageIdKey && f[1].0 == FilePathKey && f[2].0 == ErrorKey
    ensures Get(f, GlobalKey) == Some(ErrorGlobal)
  {
    GetIndex(f, 3);
  }

  // ---------------------------------------------------------------------------
  // export_csv_comparison

  /** `d.get(k1, {}).get(k2, {})...get(kn, dflt)`. */
  function Dig(v: Value, path: seq<string>, dflt: Value): Value
    requires path != []
    decreases |path|
  {
    if |path| == 1 then GetOr(v, path[0], dflt) else Dig(GetOr(v, path[0], Obj([])), path[1..], dflt)
  }

  /** Each CSV column, the keys leading to its value, and its default. */
  const CsvColumns: seq<(string, seq<string>, Value)> := [
    ("image_id", [ImageIdKey], Str("")),
    ("file_path", [FilePathKey], Str("")),
    ("px_w", ["pixels", "w"], Num(0.0)),
    ("px_h", ["pixels", "h"], Num(0.0)),
    ("dpi_x", ["dpi", "x"], Num(0.0)),
    ("dpi_y", ["dpi", "y"], Num(0.0)),
    ("lap_var", ["metrics", "sharpness", "laplacian_var"], Num(0.0)),
    ("global_contrast", ["metrics", "contrast", "global_contrast"], Num(0.0)),
    ("skew_deg", ["metrics", "geometry", "skew_angle_abs"], Num(0.0)),
    ("bg_median_lum", ["metrics", "border_background", "bg_median_lum"], Num(0.0)),
    ("left_ratio", ["metrics", "border_background", "left_margin_ratio"], Num(0.0)),
    ("right_ratio", ["metrics", "border_background", "right_margin_ratio"], Num(0.0)),
    ("top_ratio", ["metrics", "border_background", "top_margin_ratio"], Num(0.0)),
    ("bottom_ratio", ["metrics", "border_background", "bottom_margin_ratio"], Num(0.0)),
    ("noise_std", ["metrics", "noise", "bg_noise_std"], Num(0.0)),
    ("illum_uniformity", ["metrics", "exposure", "illumination_uniformity", "uniformity_ratio"], Num(0.0)),
    ("gray_deltaE", ["metrics", "color", "gray_deltaE"], Str("")),
    ("hue_cast_deg", ["metrics", "color", "hue_cast_degrees"], Num(0.0)),
    ("format", ["metrics", "format_integrity", "format_name"], Str("")),
    ("bit_depth", ["metrics", "format_integrity", "bit_depth"], Num(0.0)),
    ("score", [GlobalKey, "score"], Num(0.0)),
    ("stars", [GlobalKey, "stars"], Num(0.0)),
    ("status", [GlobalKey, "status"], Str(""))]

  function CsvRow(v: Value): (row: Fields)
    ensures |row| == |CsvColumns|
  {
    seq(|CsvColumns|, i requires 0 <= i < |CsvColumns| => (CsvColumns[i].0, Dig(v, CsvColumns[i].1, CsvColumns[i].2)))
  }

  /** The rows of the results that hold no `error` key, in order. */
  function CsvRows(results: seq<Value>): seq<Fields>
  {
    if results == [] then []
    else
      var n := |results| - 1;
      CsvRows(results[..n]) + (if Has(results[n], ErrorKey) then [] else [CsvRow(results[n])])
  }

  function EntryValues(entries: seq<Entry>): (vs: seq<Value>)
    ensures |vs| == |entries|
  {
    seq(|entries|, i requires 0 <= i < |entries| => EntryToValue(entries[i]))
  }

  function Reports(entries: seq<Entry>): (rs: seq<Entry>)
    ensures forall i :: 0 <= i < |rs| ==> rs[i].Report?
  {
    if entries == [] then []
    else
      var n := |entries| - 1;
      Reports(entries[..n]) + (if entries[n].Report? then [entries[n]] else [])
  }

  /** The CSV has one row per report, in order, and none for an error record. */
  lemma {:induction false} CsvSkipsErrors(entries: seq<Entry>)
    ensures var rows, rs := CsvRows(EntryValues(entries)), Reports(entries);
      |rows| == |rs| && forall k :: 0 <= k < |rs| ==> rows[k] == CsvRow(EntryToValue(rs[k]))
  {
    if entries != [] {
      var n := |entries| - 1;
      assert EntryValues(entries)[..n] == EntryValues(entries[..n]);
      CsvSkipsErrors(entries[..n]);
      ErrorKeyMarksFailure(entries[n]);
    }
  }

  /** A report's row starts with its id and its path. */
  lemma CsvRowIdentity(e: Entry)
    requires e.Report?
    ensures var row := CsvRow(EntryToValue(e));
      row[0] == ("image_id", Str(e.imageId)) && row[1] == ("file_path", Str(e.filePath))
  {
    var v := EntryToValue(e);
    GetIndex(v.fields, 1);
  }

  /**
   * The export as written: the rows are built, then `os.makedirs(os.path.dirname(path))`
   * runs, and it raises `FileNotFoundError` for a path without a directory.
   */
  function ExportCsvAsWritten(results: seq<Value>, outputPath: string): (r: Result<seq<Fields>>)
  {
    if Dirname(outputPath) == [] then Err("[Errno 2] No such file or directory: ''")
    else Ok(CsvRows(results))
  }

  /**
   * The export as evidently intended, guarding `os.makedirs` as the JSON export does:
   * the directory it creates (none for a bare file name) and the rows it writes.
   */
  function ExportCsv(results: seq<Value>, outputPath: string): (r: (Option<string>, seq<Fields>))
    ensures r.0.Some? <==> '/' in outputPath
    ensures r.0.Some? ==> r.0.value == Dirname(outputPath)
    ensures r.1 == CsvRows(results)
  {
    DirnameEmpty(outputPath);
    var dir := Dirname(outputPath);
    (if dir != [] then Some(dir) else None, CsvRows(results))
  }

  /**
   * As written, the export fails exactly for a path without a directory; otherwise
   * it writes the same rows as the guarded export, into the directory that one creates.
   */
  lemma ExportBareFileName(results: seq<Value>, outputPath: string)
    ensures ExportCsvAsWritten(results, outputPath).Err? <==> '/' !in outputPath
    ensures '/' in outputPath ==> ExportCsvAsWritten(results, outputPath) == Ok(ExportCsv(results, outputPath).1)
  {
    DirnameEmpty(outputPath);
  }

  /** `export_csv_comparison(results, "comparison.csv")` raises; the guarded export writes its rows. */
  lemma ComparisonCsvFails(results: seq<Value>)
    ensures ExportCsvAsWritten(results, "comparison.csv").Err?
    ensures ExportCsv(results, "comparison.csv") == (None, CsvRows(results))
  {
    ExportBareFileName(results, "comparison.csv");
  }
}
