/** The names `download_single_video` works with: the extension, the
    optional zero-padded index prefix, the output file name and the temporary
    name the stream is saved under before an mp3 transcode, and pathlib's
    suffix rules for the `.mp4` fallback a failed transcode renames to. */
module Naming {
  import opened Wrappers
  import opened Sanitize
  import opened Decimal

  /** The downloader settings the naming and batch logic read. Stream
      quality only steers stream selection, which is an input here. */
  datatype Config = Config(
    audioOnly: bool,
    audioFormat: string,
    prefixIndex: bool,
    retry: bool,
    retryAttempts: int,
    maxConcurrent: int)

  /** The output file and the file the stream is first written to. */
  datatype Names = Names(output: string, temp: string)

  predicate EndsWith(s: string, suffix: string)
  {
    |s| >= |suffix| && s[|s| - |suffix|..] == suffix
  }

  /** An mp3 transcode follows the download. */
  predicate NeedsConversion(cfg: Config)
  {
    cfg.audioOnly && cfg.audioFormat == "mp3"
  }

  function Extension(cfg: Config): (e: string)
    ensures e == "mp3" <==> NeedsConversion(cfg)
    ensures e == "mp3" || e == "mp4"
  {
    if NeedsConversion(cfg) then "mp3" else "mp4"
  }

  /** `f"{index:02d}_"` when an index is given and prefixing is on, else nothing. */
  function IndexPrefix(cfg: Config, index: Option<nat>): (p: string)
    ensures p != "" <==> index.Some? && cfg.prefixIndex
  {
    if index.Some? && cfg.prefixIndex then FormatIndex(index.value) + "_" else ""
  }

  /** The number of decimal digits `s` starts with. */
  function LeadingDigits(s: string): (k: nat)
    ensures k <= |s| && AllDigits(s[..k])
    ensures k < |s| ==> !IsDigit(s[k])
  {
    if |s| == 0 || !IsDigit(s[0]) then 0
    else
      var k := 1 + LeadingDigits(s[1..]);
      assert s[..k] == [s[0]] + s[1..][..k - 1];
      k
  }

  /** Reads an index prefix back off a file name: the leading digits, when
      an underscore follows them. */
  function LeadingIndex(name: string): Option<nat>
  {
    var k := LeadingDigits(name);
    if 0 < k < |name| && name[k] == '_' then Some(ParseDecimal(name[..k])) else None
  }

  /** The names computed by `download_single_video`: the sanitised title with the extension,
      behind the index prefix; the temporary name carries `temp_` in front
      exactly when a transcode will follow. */
  function TargetNames(cfg: Config, title: string, index: Option<nat>): (n: Names)
    ensures NoForbidden(n.output) && NoForbidden(n.temp)
    ensures EndsWith(n.output, "." + Extension(cfg))
    ensures |n.output| == |IndexPrefix(cfg, index)| + |SanitizeFilename(title)| + 4
    ensures n.output[..|IndexPrefix(cfg, index)|] == IndexPrefix(cfg, index)
    ensures n.output[|IndexPrefix(cfg, index)|..|n.output| - 4] == SanitizeFilename(title)
    ensures n.temp != n.output <==> NeedsConversion(cfg)
    ensures NeedsConversion(cfg) ==> n.temp == "temp_" + n.output
  {
    var prefix := IndexPrefix(cfg, index);
    var output := prefix + SanitizeFilename(title) + ("." + Extension(cfg));
    IndexPrefixSafe(cfg, index);
    ComposedNameSafe(cfg, prefix, SanitizeFilename(title));
    Names(output, if NeedsConversion(cfg) then "temp_" + output else output)
  }

  lemma IndexPrefixSafe(cfg: Config, index: Option<nat>)
    ensures NoForbidden(IndexPrefix(cfg, index))
  {
    if index.Some? && cfg.prefixIndex {
      var d := FormatIndex(index.value);
      DigitsSafe(d);
      assert NoForbidden("_") by {
        assert "_"[0] == '_';
      }
      NoForbiddenConcat(d, "_");
    }
  }

  /** Decimal digits are never forbidden in a file name. */
  lemma DigitsSafe(d: string)
    requires AllDigits(d)
    ensures NoForbidden(d)
  {
    forall i | 0 <= i < |d|
      ensures !IsForbidden(d[i])
    {
      assert IsDigit(d[i]);
    }
  }

  /** Gluing safe pieces in front of the extension, with or without `temp_`
      in front, gives a safe name that ends with the extension. */
  lemma ComposedNameSafe(cfg: Config, prefix: string, body: string)
    requires NoForbidden(prefix) && NoForbidden(body)
    ensures var output := prefix + body + ("." + Extension(cfg));
            NoForbidden(output) && NoForbidden("temp_" + output) &&
            EndsWith(output, "." + Extension(cfg)) && |output| == |prefix| + |body| + 4
  {
    var stem := prefix + body;
    var tail := "." + Extension(cfg);
    var output := stem + tail;
    NoForbiddenConcat(prefix, body);
    ExtensionTailSafe(cfg);
    NoForbiddenConcat(stem, tail);
    TempPrefixSafe();
    NoForbiddenConcat("temp_", output);
    assert output[|stem|..] == tail;
  }

  /** A prefixed name gives its playlist position back. */
  lemma TargetNameIndexReadBack(cfg: Config, title: string, i: nat)
    requires cfg.prefixIndex
    ensures LeadingIndex(TargetNames(cfg, title, Some(i)).output) == Some(i)
  {
    var head := FormatIndex(i) + "_";
    var body := SanitizeFilename(title);
    var tail := "." + Extension(cfg);
    PrefixedName(cfg, title, i);
    IndexPrefixReadBack(i, body + tail);
    ConcatAssoc(head, body, tail);
  }

  lemma ConcatAssoc(a: string, b: string, c: string)
    ensures a + b + c == a + (b + c)
  {
  }

  lemma TempPrefixSafe()
    ensures NoForbidden("temp_")
  {
    var t := "temp_";
    assert t[0] == 't' && t[1] == 'e' && t[2] == 'm' && t[3] == 'p' && t[4] == '_';
  }

  lemma Mp4TailSafe()
    ensures NoForbidden(".mp4")
  {
    var t := ".mp4";
    assert t[0] == '.' && t[1] == 'm' && t[2] == 'p' && t[3] == '4';
  }

  /** `.mp3` and `.mp4` hold no forbidden character. */
  lemma ExtensionTailSafe(cfg: Config)
    ensures NoForbidden("." + Extension(cfg))
  {
    var t := "." + Extension(cfg);
    assert t[0] == '.' && t[1] == 'm' && t[2] == 'p' && (t[3] == '3' || t[3] == '4');
  }

  lemma NoForbiddenConcat(a: string, b: string)
    requires NoForbidden(a) && NoForbidden(b)
    ensures NoForbidden(a + b)
  {
    forall i | 0 <= i < |a + b|
      ensures !IsForbidden((a + b)[i])
    {
      if i >= |a| {
        assert (a + b)[i] == b[i - |a|];
      }
    }
  }

  /** The zero-padded index and its underscore can be read back off the front of a name. */
  lemma IndexPrefixReadBack(i: nat, rest: string)
    ensures LeadingIndex(FormatIndex(i) + "_" + rest) == Some(i)
  {
    var d := FormatIndex(i);
    var name := d + "_" + rest;
    LeadingDigitsOfDigits(d, "_" + rest);
    assert name == d + ("_" + rest);
    assert name[..|d|] == d;
  }

  lemma {:induction false} LeadingDigitsOfDigits(d: string, rest: string)
    requires AllDigits(d)
    requires rest == [] || !IsDigit(rest[0])
    ensures LeadingDigits(d + rest) == |d|
    decreases |d|
  {
    if |d| > 0 {
      assert (d + rest)[1..] == d[1..] + rest;
      LeadingDigitsOfDigits(d[1..], rest);
    } else {
      assert d + rest == rest;
    }
  }

  /** Prefixed names of different playlist positions never collide, whatever
      the titles; names at one position differ exactly when the sanitised titles do. */
  lemma PrefixedNamesDistinct(cfg: Config, title1: string, title2: string, i: nat, j: nat)
    requires cfg.prefixIndex
    ensures TargetNames(cfg, title1, Some(i)).output == TargetNames(cfg, title2, Some(j)).output <==>
            i == j && SanitizeFilename(title1) == SanitizeFilename(title2)
  {
    var out1 := TargetNames(cfg, title1, Some(i)).output;
    var out2 := TargetNames(cfg, title2, Some(j)).output;
    PrefixedName(cfg, title1, i);
    PrefixedName(cfg, title2, j);
    if out1 == out2 {
      TargetNameIndexReadBack(cfg, title1, i);
      TargetNameIndexReadBack(cfg, title2, j);
      ConcatCancel(FormatIndex(i) + "_", SanitizeFilename(title1), SanitizeFilename(title2), "." + Extension(cfg));
    }
  }

  lemma ConcatCancel(p: string, a: string, b: string, t: string)
    requires p + a + t == p + b + t
    ensures a == b
  {
    assert |a| == |b|;
    assert a == (p + a + t)[|p|..|p| + |a|];
    assert b == (p + b + t)[|p|..|p| + |b|];
  }

  /** Index 3, title "Clip", a video download: `03_Clip.mp4`. */
  lemma TargetNameExample()
    ensures TargetNames(Config(false, "mp3", true, false, 3, 4), "Clip", Some(3)).output == "03_Clip.mp4"
  {
    var cfg := Config(false, "mp3", true, false, 3, 4);
    PrefixedName(cfg, "Clip", 3);
    FormatIndexPadsOneDigit();
    ClipIsSafe();
    ExampleNameSpelled();
  }

  lemma ExampleNameSpelled()
    ensures "03" + "_" + "Clip" + ("." + "mp4") == "03_Clip.mp4"
  {
  }

  lemma PrefixedName(cfg: Config, title: string, i: nat)
    requires cfg.prefixIndex
    ensures TargetNames(cfg, title, Some(i)).output == FormatIndex(i) + "_" + SanitizeFilename(title) + ("." + Extension(cfg))
  {
  }

  /** A title that is already safe names the file as it stands. */
  lemma SanitizeUnchanged(s: string)
    requires forall i :: 0 <= i < |s| ==> !IsForbidden(s[i]) && !IsSpace(s[i])
    ensures SanitizeFilename(s) == s
  {
    SanitizeFixedPoint(s);
  }

  /** ASCII letters are neither forbidden nor whitespace. */
  lemma LetterIsSafe(c: char)
    requires 'A' <= c <= 'Z' || 'a' <= c <= 'z'
    ensures !IsForbidden(c) && !IsSpace(c)
  {
  }

  lemma ClipIsSafe()
    ensures SanitizeFilename("Clip") == "Clip"
  {
    var s := "Clip";
    forall i | 0 <= i < |s|
      ensures !IsForbidden(s[i]) && !IsSpace(s[i])
    {
      assert 'A' <= s[i] <= 'z' && (s[i] <= 'Z' || 'a' <= s[i]);
      LetterIsSafe(s[i]);
    }
    SanitizeUnchanged(s);
  }

  /** The position of the last `.` in `name`, if any. */
  function LastDot(name: string): (r: Option<nat>)
    ensures r.Some? ==> r.value < |name| && name[r.value] == '.' &&
                        forall j :: r.value < j < |name| ==> name[j] != '.'
    ensures r.None? ==> forall j :: 0 <= j < |name| ==> name[j] != '.'
  {
    if |name| == 0 then None
    else if name[|name| - 1] == '.' then Some(|name| - 1)
    else LastDot(name[..|name| - 1])
  }

  /** `i` is the position of the last `.` in `name`. */
  ghost predicate IsLastDot(name: string, i: nat)
  {
    i < |name| && name[i] == '.' && forall j :: i < j < |name| ==> name[j] != '.'
  }

  /** `PurePath.suffix`: from the last dot on, unless that dot leads the name or ends it. */
  function Suffix(name: string): (r: string)
    ensures r != "" ==> 2 <= |r| < |name| && EndsWith(name, r) && r[0] == '.' &&
                        forall j :: 0 < j < |r| ==> r[j] != '.'
    ensures (forall j :: 0 <= j < |name| ==> name[j] != '.') ==> r == ""
  {
    match LastDot(name)
    case Some(i) =>
      if 0 < i < |name| - 1 then
        assert forall j :: 0 < j < |name| - i ==> name[i..][j] == name[i + j];
        name[i..]
      else ""
    case None => ""
  }

  /** The suffix is read off at the last dot: everything from it on when the
      dot is neither the first nor the last character, nothing otherwise. */
  lemma SuffixAtLastDot(name: string, i: nat)
    requires IsLastDot(name, i)
    ensures Suffix(name) == if 0 < i < |name| - 1 then name[i..] else ""
  {
    LastDotIsLast(name, i);
  }

  /** A suffix `PurePath.with_suffix` accepts and `PurePath.suffix` would report back. */
  predicate ProperSuffix(s: string)
  {
    |s| >= 2 && s[0] == '.' && forall j :: 0 < j < |s| ==> s[j] != '.' && s[j] != '/'
  }

  /** `PurePath.with_suffix`: the old suffix, if there is one, replaced by the
      new one. An empty name is refused. The new suffix is what `suffix` then
      reports, and the part in front of it, followed by the old suffix, gives
      the original name back. */
  function WithSuffix(name: string, suffix: string): (r: string)
    requires name != [] && ProperSuffix(suffix)
    ensures EndsWith(r, suffix) && Suffix(r) == suffix
    ensures r[..|r| - |suffix|] + Suffix(name) == name
  {
    var stem := name[..|name| - |Suffix(name)|];
    assert stem != [] by {
      if Suffix(name) == "" {
        assert stem == name;
      }
    }
    assert stem + Suffix(name) == name;
    SuffixAfterStem(stem, suffix);
    assert (stem + suffix)[..|stem|] == stem;
    stem + suffix
  }

  /** A proper suffix put after any non-empty stem is read back as the suffix. */
  lemma SuffixAfterStem(stem: string, suffix: string)
    requires stem != [] && ProperSuffix(suffix)
    ensures Suffix(stem + suffix) == suffix
  {
    var r := stem + suffix;
    var i := |stem|;
    assert r[i] == '.';
    forall j | i < j < |r|
      ensures r[j] != '.'
    {
      assert r[j] == suffix[j - i];
    }
    SuffixAtLastDot(r, i);
    assert r[i..] == suffix;
  }

  lemma {:induction false} LastDotIsLast(name: string, i: nat)
    requires i < |name| && name[i] == '.'
    requires forall j :: i < j < |name| ==> name[j] != '.'
    ensures LastDot(name) == Some(i)
    decreases |name|
  {
    if i < |name| - 1 {
      LastDotIsLast(name[..|name| - 1], i);
    }
  }

  lemma WithSuffixIdempotent(name: string, suffix: string)
    requires name != [] && ProperSuffix(suffix)
    ensures WithSuffix(WithSuffix(name, suffix), suffix) == WithSuffix(name, suffix)
  {
    var r := WithSuffix(name, suffix);
    assert r[..|r| - |suffix|] + suffix == r;
  }

  /** The name a failed transcode keeps: the output name with the `.mp4` suffix. */
  function FallbackName(output: string): (r: string)
    requires output != []
    ensures EndsWith(r, ".mp4") && Suffix(r) == ".mp4"
  {
    WithSuffix(output, ".mp4")
  }

  /** With a non-empty stem in front of `.mp3`, the fallback swaps `.mp3` for `.mp4`. */
  lemma FallbackSwapsExtension(stem: string)
    requires stem != []
    ensures FallbackName(stem + ".mp3") == stem + ".mp4"
  {
    var name := stem + ".mp3";
    SuffixAfterStem(stem, ".mp3");
    assert name[..|name| - 4] == stem;
  }

  /** An untitled, unprefixed audio download is named `.mp3`; pathlib sees no
      suffix on that name, so the fallback appends rather than replaces. */
  lemma FallbackOfBareExtension()
    ensures FallbackName(".mp3") == ".mp3.mp4"
  {
    SuffixAtLastDot(".mp3", 0);
  }
}
