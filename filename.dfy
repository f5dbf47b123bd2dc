/**
 * Naming the Excel report of an analysis: the image and folder names are cleaned
 * for the file system, a base name is chosen from them by a fixed list of rules,
 * and a timestamp and the ".xlsx" extension are appended.
 *
 * The clock reading is a parameter. Regular-expression character classes are
 * modelled on ASCII word characters and Python's whitespace characters.
 */
module FilenameGeneration {
  import opened Values
  import BaseMetrics
  import FormatIntegrity

  // ---------------------------------------------------------------------------
  // Character classes

  /** `[<>:"/\\|?*]`: characters Windows forbids in a file name. */
  predicate IsInvalid(c: char)
  {
    c in "<>:\"/\\|?*"
  }

  /** `\w` on ASCII: letters, digits and the underscore. */
  predicate IsWordChar(c: char)
  {
    'a' <= c <= 'z' || 'A' <= c <= 'Z' || '0' <= c <= '9' || c == '_'
  }

  predicate IsUnderscore(c: char)
  {
    c == '_'
  }

  /** `[\w\s\-_.]`: what the second substitution keeps. */
  predicate Kept(c: char)
  {
    IsWordChar(c) || IsSpace(c) || c == '-' || c == '.'
  }

  /** A character a cleaned name consists of. */
  predicate Safe(c: char)
  {
    IsWordChar(c) || c == '-' || c == '.'
  }

  lemma SafeIsNeitherInvalidNorSpace(c: char)
    requires Safe(c)
    ensures !IsInvalid(c) && !IsSpace(c) && Kept(c)
  {
  }

  // ---------------------------------------------------------------------------
  // The five steps of `clean_filename`

  /** `re.sub(r'[<>:"/\\|?*]', '_', s)`. */
  function ReplaceInvalid(s: string): (r: string)
    ensures |r| == |s|
  {
    if s == [] then [] else [if IsInvalid(s[0]) then '_' else s[0]] + ReplaceInvalid(s[1..])
  }

  /** `re.sub(r'[^\w\s\-_.]', '', s)`. */
  function KeepAllowed(s: string): (r: string)
    ensures forall i :: 0 <= i < |r| ==> Kept(r[i])
  {
    if s == [] then [] else (if Kept(s[0]) then [s[0]] else []) + KeepAllowed(s[1..])
  }

  /**
   * `re.sub(r'X+', '_', s)` for the class `p`: each maximal run of characters in
   * `p` becomes one underscore. `inRun` says the character before `s` was in a run.
   */
  function Squeeze(s: string, inRun: bool, p: char -> bool): (r: string)
    ensures forall i :: 0 <= i < |r| ==> r[i] == '_' || (r[i] in s && !p(r[i]))
  {
    if s == [] then []
    else if p(s[0]) then (if inRun then [] else ['_']) + Squeeze(s[1..], true, p)
    else [s[0]] + Squeeze(s[1..], false, p)
  }

  /** `s.lstrip('_')`. */
  function StripLeading(s: string): (r: string)
    ensures |r| <= |s| && r == s[|s| - |r|..]
    ensures r != [] ==> r[0] != '_'
    ensures forall i :: 0 <= i < |s| - |r| ==> s[i] == '_'
  {
    if s != [] && s[0] == '_' then StripLeading(s[1..]) else s
  }

  /** `s.rstrip('_')`. */
  function StripTrailing(s: string): (r: string)
    ensures |r| <= |s| && r == s[..|r|]
    ensures r != [] ==> r[|r| - 1] != '_'
    ensures forall i :: |r| <= i < |s| ==> s[i] == '_'
  {
    if s != [] && s[|s| - 1] == '_' then StripTrailing(s[..|s| - 1]) else s
  }

  /** `clean_filename(name)`. */
  function CleanFilename(name: string): string
  {
    var noInvalid := ReplaceInvalid(name);
    var allowed := KeepAllowed(noInvalid);
    var spaced := Squeeze(allowed, false, IsSpace);
    var single := Squeeze(spaced, false, IsUnderscore);
    StripTrailing(StripLeading(single))
  }

  // ---------------------------------------------------------------------------
  // What a cleaned name looks like

  predicate AllSafe(t: string)
  {
    forall i :: 0 <= i < |t| ==> Safe(t[i])
  }

  predicate NoDoubleUnderscore(t: string)
  {
    forall i :: 0 <= i < |t| - 1 ==> !(t[i] == '_' && t[i + 1] == '_')
  }

  /** Only safe characters, no "__", and no underscore at either end. */
  predicate IsClean(t: string)
  {
    && AllSafe(t)
    && NoDoubleUnderscore(t)
    && (t != [] ==> t[0] != '_' && t[|t| - 1] != '_')
  }

  /** Squeezing underscores leaves no two in a row and, after a run, none in front. */
  lemma {:induction false} SqueezeSingles(s: string, inRun: bool)
    ensures var r := Squeeze(s, inRun, IsUnderscore);
      NoDoubleUnderscore(r) && (inRun && r != [] ==> r[0] != '_')
  {
    if s != [] {
      SqueezeSingles(s[1..], s[0] == '_');
      var r := Squeeze(s, inRun, IsUnderscore);
      var t := Squeeze(s[1..], s[0] == '_', IsUnderscore);
      if s[0] == '_' {
        assert r == (if inRun then [] else ['_']) + t;
        if !inRun {
          forall i | 0 <= i < |r| - 1 ensures !(r[i] == '_' && r[i + 1] == '_') {
            if i > 0 { assert r[i] == t[i - 1] && r[i + 1] == t[i]; }
          }
        }
      } else {
        assert r == [s[0]] + t;
        forall i | 0 <= i < |r| - 1 ensures !(r[i] == '_' && r[i + 1] == '_') {
          if i > 0 { assert r[i] == t[i - 1] && r[i + 1] == t[i]; }
        }
      }
    }
  }

  /** A contiguous part of a name without unsafe characters or "__" has neither. */
  lemma SliceKeepsClean(t: string, a: nat, b: nat)
    requires a <= b <= |t| && AllSafe(t) && NoDoubleUnderscore(t)
    ensures AllSafe(t[a..b]) && NoDoubleUnderscore(t[a..b])
  {
    forall i | 0 <= i < b - a ensures Safe(t[a..b][i]) {
      assert t[a..b][i] == t[a + i];
    }
    forall i | 0 <= i < b - a - 1 ensures !(t[a..b][i] == '_' && t[a..b][i + 1] == '_') {
      assert t[a..b][i] == t[a + i] && t[a..b][i + 1] == t[a + i + 1];
    }
  }

  /** After the two squeezes, only safe characters remain. */
  lemma SqueezedSafe(allowed: string)
    requires forall i :: 0 <= i < |allowed| ==> Kept(allowed[i])
    ensures AllSafe(Squeeze(Squeeze(allowed, false, IsSpace), false, IsUnderscore))
  {
    var spaced := Squeeze(allowed, false, IsSpace);
    assert forall i :: 0 <= i < |spaced| ==> Safe(spaced[i]);
  }

  /** The output of `clean_filename` is clean. */
  lemma CleanFilenameIsClean(name: string)
    ensures IsClean(CleanFilename(name))
  {
    var allowed := KeepAllowed(ReplaceInvalid(name));
    var spaced := Squeeze(allowed, false, IsSpace);
    var single := Squeeze(spaced, false, IsUnderscore);
    SqueezedSafe(allowed);
    SqueezeSingles(spaced, false);
    StripKeepsClean(single);
  }

  /** Stripping the underscores at both ends of a name without unsafe characters or "__" leaves it clean. */
  lemma StripKeepsClean(single: string)
    requires AllSafe(single) && NoDoubleUnderscore(single)
    ensures IsClean(StripTrailing(StripLeading(single)))
  {
    var lead := StripLeading(single);
    var r := StripTrailing(lead);
    SliceKeepsClean(single, |single| - |lead|, |single|);
    SliceKeepsClean(lead, 0, |r|);
    if r != [] {
      assert r[0] == lead[0];
    }
  }

  /** A cleaned name has none of the forbidden characters and no whitespace. */
  lemma CleanFilenameBans(name: string)
    ensures var t := CleanFilename(name);
      forall i :: 0 <= i < |t| ==> !IsInvalid(t[i]) && !IsSpace(t[i])
  {
    CleanFilenameIsClean(name);
    var t := CleanFilename(name);
    forall i | 0 <= i < |t| ensures !IsInvalid(t[i]) && !IsSpace(t[i]) {
      SafeIsNeitherInvalidNorSpace(t[i]);
    }
  }

  // ---------------------------------------------------------------------------
  // Idempotence: every step leaves a clean name as it is

  lemma {:induction false} ReplaceInvalidKeeps(s: string)
    requires forall i :: 0 <= i < |s| ==> !IsInvalid(s[i])
    ensures ReplaceInvalid(s) == s
  {
    if s != [] { ReplaceInvalidKeeps(s[1..]); }
  }

  lemma {:induction false} KeepAllowedKeeps(s: string)
    requires forall i :: 0 <= i < |s| ==> Kept(s[i])
    ensures KeepAllowed(s) == s
  {
    if s != [] { KeepAllowedKeeps(s[1..]); }
  }

  lemma {:induction false} SqueezeAbsent(s: string, inRun: bool, p: char -> bool)
    requires forall i :: 0 <= i < |s| ==> !p(s[i])
    ensures Squeeze(s, inRun, p) == s
  {
    if s != [] { SqueezeAbsent(s[1..], false, p); }
  }

  lemma {:induction false} SqueezeSinglesKeeps(s: string, inRun: bool)
    requires NoDoubleUnderscore(s)
    requires inRun && s != [] ==> s[0] != '_'
    ensures Squeeze(s, inRun, IsUnderscore) == s
  {
    if s != [] {
      SqueezeSinglesKeeps(s[1..], s[0] == '_');
    }
  }

  /** A clean name is its own cleaning. */
  lemma CleanKeepsClean(t: string)
    requires IsClean(t)
    ensures CleanFilename(t) == t
  {
    forall i | 0 <= i < |t| ensures !IsInvalid(t[i]) && !IsSpace(t[i]) && Kept(t[i]) {
      SafeIsNeitherInvalidNorSpace(t[i]);
    }
    ReplaceInvalidKeeps(t);
    KeepAllowedKeeps(t);
    SqueezeAbsent(t, false, IsSpace);
    SqueezeSinglesKeeps(t, false);
  }

  /** Cleaning a cleaned name changes nothing. */
  lemma CleanFilenameIdempotent(name: string)
    ensures CleanFilename(CleanFilename(name)) == CleanFilename(name)
  {
    CleanFilenameIsClean(name);
    CleanKeepsClean(CleanFilename(name));
  }

  // ---------------------------------------------------------------------------
  // What survives: every letter, digit, hyphen and dot, in order

  /** The characters no step of the cleaning touches. */
  predicate Essential(c: char)
  {
    (IsWordChar(c) && c != '_') || c == '-' || c == '.'
  }

  /** The essential characters of `s`, in order. */
  function Essence(s: string): string
  {
    if s == [] then [] else (if Essential(s[0]) then [s[0]] else []) + Essence(s[1..])
  }

  lemma {:induction false} EssenceAppend(a: string, b: string)
    ensures Essence(a + b) == Essence(a) + Essence(b)
  {
    if a == [] {
      assert a + b == b;
    } else {
      assert (a + b)[0] == a[0] && (a + b)[1..] == a[1..] + b;
      EssenceAppend(a[1..], b);
    }
  }

  lemma {:induction false} EssenceOfUnderscores(s: string)
    requires forall i :: 0 <= i < |s| ==> s[i] == '_'
    ensures Essence(s) == []
  {
    if s != [] { EssenceOfUnderscores(s[1..]); }
  }

  lemma {:induction false} ReplaceInvalidEssence(s: string)
    ensures Essence(ReplaceInvalid(s)) == Essence(s)
  {
    if s != [] { ReplaceInvalidEssence(s[1..]); }
  }

  lemma {:induction false} KeepAllowedEssence(s: string)
    ensures Essence(KeepAllowed(s)) == Essence(s)
  {
    if s != [] {
      KeepAllowedEssence(s[1..]);
      EssenceAppend(if Kept(s[0]) then [s[0]] else [], KeepAllowed(s[1..]));
    }
  }

  lemma {:induction false} SqueezeEssence(s: string, inRun: bool, p: char -> bool)
    requires forall c :: p(c) ==> !Essential(c)
    ensures Essence(Squeeze(s, inRun, p)) == Essence(s)
  {
    if s != [] {
      if p(s[0]) {
        SqueezeEssence(s[1..], true, p);
        EssenceAppend(if inRun then [] else ['_'], Squeeze(s[1..], true, p));
      } else {
        SqueezeEssence(s[1..], false, p);
      }
    }
  }

  lemma StripLeadingEssence(s: string)
    ensures Essence(StripLeading(s)) == Essence(s)
  {
    var lead := StripLeading(s);
    var k := |s| - |lead|;
    assert s == s[..k] + lead;
    EssenceAppend(s[..k], lead);
    EssenceOfUnderscores(s[..k]);
  }

  lemma StripTrailingEssence(s: string)
    ensures Essence(StripTrailing(s)) == Essence(s)
  {
    var r := StripTrailing(s);
    assert s == r + s[|r|..];
    EssenceAppend(r, s[|r|..]);
    EssenceOfUnderscores(s[|r|..]);
  }

  lemma StripEssence(s: string)
    ensures Essence(StripTrailing(StripLeading(s))) == Essence(s)
  {
    StripLeadingEssence(s);
    StripTrailingEssence(StripLeading(s));
  }

  /**
   * Cleaning only replaces, merges or drops underscores, whitespace and the other
   * characters outside `[A-Za-z0-9.-]`: those letters, digits, hyphens and dots
   * all survive, in their order.
   */
  lemma CleanFilenameKeepsEssence(name: string)
    ensures Essence(CleanFilename(name)) == Essence(name)
  {
    var noInvalid := ReplaceInvalid(name);
    var allowed := KeepAllowed(noInvalid);
    var spaced := Squeeze(allowed, false, IsSpace);
    var single := Squeeze(spaced, false, IsUnderscore);
    ReplaceInvalidEssence(name);
    KeepAllowedEssence(noInvalid);
    SqueezeEssence(allowed, false, IsSpace);
    SqueezeEssence(spaced, false, IsUnderscore);
    StripEssence(single);
  }

  // ---------------------------------------------------------------------------
  // The base name

  /** Words that make an image name generic when they occur in it. */
  const GenericNames: seq<string> := [
    "image", "img", "photo", "picture", "document", "doc", "scan",
    "untitled", "new", "temp", "screenshot", "capture"]

  /** Folders too common to name a report after, as the list is written. */
  const SystemFolders: seq<string> := [
    "desktop", "downloads", "documents", "pictures", "photos",
    "onedrive", "dropbox", "google drive", "icloud"]

  /** The same folders as cleaned names: "google drive" becomes "google_drive". */
  const CleanSystemFolders: seq<string> := [
    "desktop", "downloads", "documents", "pictures", "photos",
    "onedrive", "dropbox", "google_drive", "icloud"]

  const AnalysisSuffix := "_Analysis"
  const DefaultBase := "Quality_Analysis"

  /** `any(generic in clean_image.lower() for generic in generic_names)`. */
  predicate IsGenericImage(cleanImage: string)
  {
    exists k :: 0 <= k < |GenericNames| && FormatIntegrity.IsSubstring(GenericNames[k], BaseMetrics.Lower(cleanImage))
  }

  /** `clean_folder.lower() in system_folders`, as written. */
  predicate IsSystemFolderAsWritten(cleanFolder: string)
  {
    BaseMetrics.Lower(cleanFolder) in SystemFolders
  }

  /** The system-folder test against the cleaned folder names. */
  predicate IsSystemFolder(cleanFolder: string)
  {
    BaseMetrics.Lower(cleanFolder) in CleanSystemFolders
  }

  /** The strategy the rule chain picked. */
  datatype Strategy =
    | FolderForGenericImage
    | DescriptiveImage
    | FolderAndShortImage
    | TruncatedImage
    | FolderFallback
    | DefaultFallback

  datatype Choice = Choice(base: string, strategy: Strategy)

  /** Does the strategy name the report after the folder? */
  predicate FolderBased(s: Strategy)
  {
    s == FolderForGenericImage || s == FolderAndShortImage || s == FolderFallback
  }

  /** The rule chain on a cleaned image and folder name, given the system-folder test. */
  function ChooseBase(cleanImage: string, cleanFolder: string, system: bool): Choice
  {
    var generic := IsGenericImage(cleanImage);
    if generic && !system && cleanFolder != [] then
      Choice(cleanFolder + AnalysisSuffix, FolderForGenericImage)
    else if !generic && 5 <= |cleanImage| <= 40 then
      Choice(cleanImage, DescriptiveImage)
    else if |cleanImage| > 40 && !system && cleanFolder != [] then
      Choice(cleanFolder + "_" + cleanImage[..20], FolderAndShortImage)
    else if |cleanImage| > 40 then
      Choice(cleanImage[..40], TruncatedImage)
    else if !system && cleanFolder != [] then
      Choice(cleanFolder + AnalysisSuffix, FolderFallback)
    else
      Choice(DefaultBase, DefaultFallback)
  }

  /** The base name of the test script as written. */
  function BaseNameAsWritten(imageName: string, folder: string): Choice
  {
    var cleanFolder := CleanFilename(folder);
    ChooseBase(CleanFilename(imageName), cleanFolder, IsSystemFolderAsWritten(cleanFolder))
  }

  /** The base name, with system folders recognised after cleaning. */
  function BaseName(imageName: string, folder: string): Choice
  {
    var cleanFolder := CleanFilename(folder);
    ChooseBase(CleanFilename(imageName), cleanFolder, IsSystemFolder(cleanFolder))
  }

  /**
   * What the rules promise: a folder names the report only when it is not a system
   * folder and not empty, and then heads the base; a generic image with such a
   * folder always takes the folder; a descriptive image of 5 to 40 characters is
   * used as it is; a long image is cut to 20 characters behind the folder, or to
   * 40 without one; the base is never shorter than 5 characters and never longer
   * than 40 or the folder plus 21.
   */
  lemma ChooseBaseFacts(cleanImage: string, cleanFolder: string, system: bool)
    ensures var c := ChooseBase(cleanImage, cleanFolder, system);
      && (FolderBased(c.strategy) ==>
            !system && cleanFolder != [] && c.base[..|cleanFolder| + 1] == cleanFolder + "_")
      && (IsGenericImage(cleanImage) && !system && cleanFolder != [] <==> c.strategy == FolderForGenericImage)
      && (c.strategy == DescriptiveImage ==> !IsGenericImage(cleanImage) && c.base == cleanImage)
      && (c.strategy == FolderAndShortImage ==> c.base == cleanFolder + "_" + cleanImage[..20])
      && (c.strategy == TruncatedImage ==> system || cleanFolder == [])
      && (c.strategy == TruncatedImage ==> c.base == cleanImage[..40])
      && (c.strategy == FolderAndShortImage || c.strategy == TruncatedImage <==> |cleanImage| > 40 && c.strategy != FolderForGenericImage)
      && 5 <= |c.base| <= IMax(40, |cleanFolder| + 21)
  {
  }

  /** Built from clean names, the base holds only safe characters. */
  lemma ChooseBaseSafe(cleanImage: string, cleanFolder: string, system: bool)
    requires AllSafe(cleanImage) && AllSafe(cleanFolder)
    ensures AllSafe(ChooseBase(cleanImage, cleanFolder, system).base)
  {
  }

  // ---------------------------------------------------------------------------
  // The clock and the final name

  type Year = n: int | 1 <= n <= 9999 witness 1
  type Month = n: int | 1 <= n <= 12 witness 1
  type Day = n: int | 1 <= n <= 31 witness 1
  type Hour = n: int | 0 <= n <= 23
  type Minute = n: int | 0 <= n <= 59

  /** A reading of `datetime.now()`. */
  datatype DateTime = DateTime(year: Year, month: Month, day: Day, hour: Hour, minute: Minute, second: Minute)

  function DigitChar(d: int): char
    requires 0 <= d <= 9
  {
    ('0' as int + d) as char
  }

  /** A number below 100 in two digits, zero-padded. */
  function Pad2(n: int): (r: string)
    requires 0 <= n <= 99
    ensures |r| == 2 && forall i :: 0 <= i < 2 ==> '0' <= r[i] <= '9'
  {
    [DigitChar(n / 10), DigitChar(n % 10)]
  }

  /** A year in four digits, zero-padded. */
  function Pad4(n: int): (r: string)
    requires 0 <= n <= 9999
    ensures |r| == 4 && forall i :: 0 <= i < 4 ==> '0' <= r[i] <= '9'
  {
    Pad2(n / 100) + Pad2(n % 100)
  }

  /** `strftime("%Y-%m-%d_%H-%M-%S")`. */
  function Timestamp(t: DateTime): (r: string)
    ensures |r| == 19
  {
    Pad4(t.year) + "-" + Pad2(t.month) + "-" + Pad2(t.day) + "_"
      + Pad2(t.hour) + "-" + Pad2(t.minute) + "-" + Pad2(t.second)
  }

  /** `strftime("%m%d_%H%M")`. */
  function ShortTimestamp(t: DateTime): (r: string)
    ensures |r| == 9
  {
    Pad2(t.month) + Pad2(t.day) + "_" + Pad2(t.hour) + Pad2(t.minute)
  }

  function DigitValue(c: char): int
  {
    c as int - '0' as int
  }

  /** Two digits starting at `i`, read back. */
  function Read2(s: string, i: nat): int
    requires i + 2 <= |s|
  {
    DigitValue(s[i]) * 10 + DigitValue(s[i + 1])
  }

  lemma Pad2Read(n: int)
    requires 0 <= n <= 99
    ensures Read2(Pad2(n), 0) == n
  {
  }

  /** Reads a long timestamp back into its clock reading, if it is one. */
  function ReadTimestamp(s: string): Option<DateTime>
  {
    if |s| != 19 then None
    else
      var year := Read2(s, 0) * 100 + Read2(s, 2);
      var month, day := Read2(s, 5), Read2(s, 8);
      var hour, minute, second := Read2(s, 11), Read2(s, 14), Read2(s, 17);
      if 1 <= year <= 9999 && 1 <= month <= 12 && 1 <= day <= 31
         && 0 <= hour <= 23 && 0 <= minute <= 59 && 0 <= second <= 59
      then Some(DateTime(year, month, day, hour, minute, second))
      else None
  }

  /** The long timestamp loses nothing: it reads back as the clock reading. */
  lemma TimestampRoundTrip(t: DateTime)
    ensures ReadTimestamp(Timestamp(t)) == Some(t)
  {
    var s := Timestamp(t);
    Pad2Read(t.year / 100);
    Pad2Read(t.year % 100);
    Pad2Read(t.month);
    Pad2Read(t.day);
    Pad2Read(t.hour);
    Pad2Read(t.minute);
    Pad2Read(t.second);
    assert Read2(s, 0) == t.year / 100 && Read2(s, 2) == t.year % 100;
    assert Read2(s, 5) == t.month && Read2(s, 8) == t.day;
    assert Read2(s, 11) == t.hour && Read2(s, 14) == t.minute && Read2(s, 17) == t.second;
  }

  /** The short timestamp is the long one without the year and the seconds. */
  lemma ShortTimestampOfLong(t: DateTime)
    ensures var s := Timestamp(t);
      ShortTimestamp(t) == s[5..7] + s[8..10] + "_" + s[11..13] + s[14..16]
  {
    var s := Timestamp(t);
    assert s[5..7] == Pad2(t.month) && s[8..10] == Pad2(t.day);
    assert s[11..13] == Pad2(t.hour) && s[14..16] == Pad2(t.minute);
  }

  const Extension := ".xlsx"

  /**
   * The report's file name: the base, an underscore, the short timestamp when
   * the base is longer than 30 characters and the long one otherwise, and ".xlsx".
   */
  function FinalName(base: string, now: DateTime): (r: string)
    ensures |r| == |base| + 1 + (if |base| > 30 then 9 else 19) + 5
    ensures r[..|base| + 1] == base + "_"
    ensures r[|r| - 5..] == Extension
    ensures (r[|base| + 1..|r| - 5] == ShortTimestamp(now)) <==> |base| > 30
    ensures (r[|base| + 1..|r| - 5] == Timestamp(now)) <==> |base| <= 30
  {
    var stamp := if |base| > 30 then ShortTimestamp(now) else Timestamp(now);
    var r := base + "_" + stamp + Extension;
    assert r[|base| + 1..|r| - 5] == stamp;
    r
  }

  /** Built from safe base characters, the final name has no forbidden character and no whitespace. */
  lemma FinalNameSafe(base: string, now: DateTime)
    requires AllSafe(base)
    ensures AllSafe(FinalName(base, now))
  {
    var stamp := if |base| > 30 then ShortTimestamp(now) else Timestamp(now);
    var r := FinalName(base, now);
    assert r == base + "_" + stamp + Extension;
    assert AllSafe(stamp);
    SafeAppend(base, "_");
    SafeAppend(base + "_", stamp);
    assert AllSafe(Extension) by { assert Safe('.') && Safe('x') && Safe('l') && Safe('s'); }
    SafeAppend(base + "_" + stamp, Extension);
  }

  lemma SafeAppend(a: string, b: string)
    requires AllSafe(a) && AllSafe(b)
    ensures AllSafe(a + b)
  {
    forall i | 0 <= i < |a + b| ensures Safe((a + b)[i]) {
      if i < |a| { assert (a + b)[i] == a[i]; } else { assert (a + b)[i] == b[i - |a|]; }
    }
  }

  /** The whole name of the report for an image in a folder at a given time, as written. */
  function ReportFileName(imageName: string, folder: string, now: DateTime): (r: string)
    ensures AllSafe(r)
    ensures |r| > 5 && r[|r| - 5..] == Extension
  {
    var choice := BaseNameAsWritten(imageName, folder);
    CleanFilenameIsClean(imageName);
    CleanFilenameIsClean(folder);
    ChooseBaseSafe(CleanFilename(imageName), CleanFilename(folder), IsSystemFolderAsWritten(CleanFilename(folder)));
    FinalNameSafe(choice.base, now);
    FinalName(choice.base, now)
  }

  /** The report name with system folders recognised after cleaning. */
  function ReportFileNameCorrected(imageName: string, folder: string, now: DateTime): (r: string)
    ensures AllSafe(r)
    ensures |r| > 5 && r[|r| - 5..] == Extension
  {
    var choice := BaseName(imageName, folder);
    CleanFilenameIsClean(imageName);
    CleanFilenameIsClean(folder);
    ChooseBaseSafe(CleanFilename(imageName), CleanFilename(folder), IsSystemFolder(CleanFilename(folder)));
    FinalNameSafe(choice.base, now);
    FinalName(choice.base, now)
  }

  // ---------------------------------------------------------------------------
  // The "google drive" entry

  /** Lower-casing keeps spaces and adds none. */
  lemma LowerKeepsNoSpace(t: string)
    requires forall i :: 0 <= i < |t| ==> t[i] != ' '
    ensures forall i :: 0 <= i < |t| ==> BaseMetrics.Lower(t)[i] != ' '
  {
  }

  /** As written, no cleaned folder is ever the "google drive" system folder. */
  lemma GoogleDriveNeverMatches(folder: string)
    ensures BaseMetrics.Lower(CleanFilename(folder)) != "google drive"
  {
    var t := CleanFilename(folder);
    CleanFilenameBans(folder);
    LowerKeepsNoSpace(t);
    assert "google drive"[6] == ' ';
  }

  /** As written, the only folders the test recognises are the other eight. */
  lemma AsWrittenSystemFolders(folder: string)
    ensures IsSystemFolderAsWritten(CleanFilename(folder)) ==>
              BaseMetrics.Lower(CleanFilename(folder)) in SystemFolders[..7] + SystemFolders[8..]
  {
    GoogleDriveNeverMatches(folder);
  }

  /** The corrected list holds what cleaning does to the written one. */
  lemma CleanSystemFoldersAreCleaned()
    ensures |CleanSystemFolders| == |SystemFolders|
    ensures CleanSystemFolders[..7] == SystemFolders[..7] && CleanSystemFolders[8] == SystemFolders[8]
    ensures CleanSystemFolders[7] == "google" + "_" + "drive" && SystemFolders[7] == "google" + " " + "drive"
  {
  }

  /** With the corrected list, a folder cleaned to "google_drive" is a system folder. */
  lemma GoogleDriveRecognised(cleanFolder: string)
    requires BaseMetrics.Lower(cleanFolder) == "google_drive"
    ensures IsSystemFolder(cleanFolder) && !IsSystemFolderAsWritten(cleanFolder)
  {
    assert CleanSystemFolders[7] == "google_drive";
    assert forall k :: 0 <= k < |SystemFolders| ==> SystemFolders[k] != "google_drive" by {
      assert SystemFolders[7][6] != "google_drive"[6];
    }
  }

  /** Leading characters outside `p` pass a squeeze unchanged. */
  lemma {:induction false} SqueezeAppend(x: string, y: string, inRun: bool, p: char -> bool)
    requires x != [] && forall i :: 0 <= i < |x| ==> !p(x[i])
    ensures Squeeze(x + y, inRun, p) == x + Squeeze(y, false, p)
  {
    assert (x + y)[0] == x[0] && (x + y)[1..] == x[1..] + y;
    if |x| > 1 {
      SqueezeAppend(x[1..], y, false, p);
    } else {
      assert x[1..] + y == y;
    }
  }

  lemma JoinedSqueeze(a: string, b: string)
    requires AllSafe(a) && AllSafe(b) && a != []
    ensures Squeeze(a + " " + b, false, IsSpace) == a + "_" + b
  {
    forall i | 0 <= i < |a| ensures !IsSpace(a[i]) { SafeIsNeitherInvalidNorSpace(a[i]); }
    forall i | 0 <= i < |b| ensures !IsSpace(b[i]) { SafeIsNeitherInvalidNorSpace(b[i]); }
    assert a + " " + b == a + (" " + b);
    SqueezeAppend(a, " " + b, false, IsSpace);
    assert (" " + b)[1..] == b;
    SqueezeAbsent(b, true, IsSpace);
  }

  lemma JoinedSingles(a: string, b: string)
    requires IsClean(a) && IsClean(b) && a != [] && b != []
    ensures IsClean(a + "_" + b)
  {
    var j := a + "_" + b;
    forall i | 0 <= i < |j| - 1 ensures !(j[i] == '_' && j[i + 1] == '_') {
      if i < |a| - 1 { assert j[i] == a[i] && j[i + 1] == a[i + 1]; }
      else if i == |a| - 1 { assert j[i] == a[|a| - 1]; }
      else if i == |a| { assert j[i + 1] == b[0]; }
      else { assert j[i] == b[i - |a| - 1] && j[i + 1] == b[i - |a|]; }
    }
    assert forall i :: 0 <= i < |j| ==> (i < |a| && j[i] == a[i]) || i == |a| || (i > |a| && j[i] == b[i - |a| - 1]);
  }

  /** Two clean words with one space between them are cleaned into one name joined by "_". */
  lemma CleanJoinsWords(a: string, b: string)
    requires IsClean(a) && IsClean(b) && a != [] && b != []
    ensures CleanFilename(a + " " + b) == a + "_" + b
  {
    var s := a + " " + b;
    forall i | 0 <= i < |s| ensures !IsInvalid(s[i]) && Kept(s[i]) {
      if i < |a| { assert s[i] == a[i]; SafeIsNeitherInvalidNorSpace(a[i]); }
      else if i > |a| { assert s[i] == b[i - |a| - 1]; SafeIsNeitherInvalidNorSpace(b[i - |a| - 1]); }
    }
    ReplaceInvalidKeeps(s);
    KeepAllowedKeeps(s);
    JoinedSqueeze(a, b);
    JoinedSingles(a, b);
    SqueezeSinglesKeeps(a + "_" + b, false);
  }

  lemma GoogleDriveWords()
    ensures IsClean("Google") && IsClean("Drive")
    ensures "Google" + " " + "Drive" == "Google Drive" && "Google" + "_" + "Drive" == "Google_Drive"
  {
  }

  lemma GoogleDriveCleans()
    ensures CleanFilename("Google Drive") == "Google_Drive"
  {
    GoogleDriveWords();
    CleanJoinsWords("Google", "Drive");
  }

  /** Lower-casing a name without capitals changes nothing. */
  lemma LowerKeeps(t: string)
    requires forall i :: 0 <= i < |t| ==> !('A' <= t[i] <= 'Z')
    ensures BaseMetrics.Lower(t) == t
  {
  }

  lemma ScanIsClean()
    ensures CleanFilename("scan001") == "scan001"
  {
    assert IsClean("scan001");
    CleanKeepsClean("scan001");
  }

  lemma ScanIsGeneric()
    ensures IsGenericImage("scan001")
  {
    LowerKeeps("scan001");
    assert "scan" + "001" == "scan001";
    assert FormatIntegrity.Window("scan001", 0, 4) == GenericNames[6];
  }

  lemma GoogleDriveLower()
    ensures BaseMetrics.Lower("Google_Drive") == "google_drive"
  {
    var g := "Google_Drive";
    assert forall i :: 1 <= i < |g| ==> !('A' <= g[i] <= 'Z') || i == 7;
  }

  /** The rule chain on the example as written: the folder names the report. */
  lemma ExampleChoiceAsWritten()
    ensures ChooseBase("scan001", "Google_Drive", false) == Choice("Google_Drive" + AnalysisSuffix, FolderForGenericImage)
  {
    ScanIsGeneric();
  }

  /** The rule chain on the example for a system folder: the default base. */
  lemma ExampleChoiceCorrected()
    ensures ChooseBase("scan001", "Google_Drive", true) == Choice(DefaultBase, DefaultFallback)
  {
    ScanIsGeneric();
  }

  /**
   * A generic image "scan001" in a folder cleaned to "Google_Drive": as written
   * the folder is not recognised and names the report; with the cleaned list it
   * is a system folder and the default name is used.
   */
  lemma GoogleDriveChoice(imageName: string, folder: string)
    requires CleanFilename(imageName) == "scan001" && CleanFilename(folder) == "Google_Drive"
    ensures BaseNameAsWritten(imageName, folder) == Choice("Google_Drive" + AnalysisSuffix, FolderForGenericImage)
    ensures BaseName(imageName, folder) == Choice(DefaultBase, DefaultFallback)
  {
    GoogleDriveNeverMatches(folder);
    GoogleDriveLower();
    GoogleDriveRecognised("Google_Drive");
    ExampleChoiceAsWritten();
    ExampleChoiceCorrected();
  }

  /** The input that shows it: the image "scan001" in the folder "Google Drive". */
  lemma GoogleDriveExample()
    ensures BaseNameAsWritten("scan001", "Google Drive") == Choice("Google_Drive" + AnalysisSuffix, FolderForGenericImage)
    ensures BaseName("scan001", "Google Drive") == Choice(DefaultBase, DefaultFallback)
  {
    GoogleDriveCleans();
    ScanIsClean();
    GoogleDriveChoice("scan001", "Google Drive");
  }

  /**
   * The whole report name for "scan001" in "Google Drive": headed by the folder
   * as written, by the default base once the folder is recognised.
   */
  lemma GoogleDriveReportNames(now: DateTime)
    ensures ReportFileName("scan001", "Google Drive", now) == FinalName("Google_Drive" + AnalysisSuffix, now)
    ensures ReportFileNameCorrected("scan001", "Google Drive", now) == FinalName(DefaultBase, now)
  {
    GoogleDriveExample();
  }
}
