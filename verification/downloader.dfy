/** `download_single_video` and `download` of `YouTubeDownloader`, with the
    network, the filesystem and ffmpeg replaced by what they report back:
    per attempt, whether a stream was found, whether the transfer, the mp3
    transcode and the rename of the kept file went through. */
module Downloader {
  import opened Wrappers
  import opened Seqs
  import opened Sanitize
  import opened Naming
  import opened Batch

  /** What the outside world does to one download attempt. */
  datatype AttemptEnv = AttemptEnv(streamFound: bool, transferOk: bool, convertOk: bool, renameOk: bool)

  /** Why an attempt returned `False`: no stream, or an exception inside the
      `try` (the transfer, or renaming the kept file after a failed transcode). */
  datatype SingleFailure = NoSuitableStream | TransferFailed | KeepFailed

  /** `True` with the file left on disk, or `False` with the reason. */
  datatype SingleResult = Saved(file: string) | NotSaved(reason: SingleFailure)

  datatype Video = Video(title: string, watchUrl: string)

  datatype Playlist = Playlist(title: string, videos: seq<Video>)

  /** A download that did not succeed: its playlist position, if it had one, and the video. */
  datatype FailedEntry = FailedEntry(index: Option<nat>, video: Video)

  /** What the summary block logs: the folder under the output directory
      (no component when the files go straight into it), the counts, the
      failed entries in order, and how many retry rounds ran. */
  datatype Summary = Summary(folder: seq<string>, total: nat, succeeded: nat, failed: seq<FailedEntry>, retryRounds: nat)

  /** The exceptions `download` logs and re-raises. */
  datatype DownloadError = PlaylistUnavailable | VideoUnavailable | InvalidPoolSize

  /** `download_single_video` (downloader.py, lines 84-121): pick a stream, name the file, save it (under the temporary
      name when a transcode follows), then transcode; a failed transcode keeps
      the downloaded audio, renamed to the `.mp4` form of the output name. */
  function DownloadSingleVideo(cfg: Config, title: string, index: Option<nat>, env: AttemptEnv): (r: SingleResult)
    ensures r.Saved? <==> env.streamFound && env.transferOk && (!NeedsConversion(cfg) || env.convertOk || env.renameOk)
    ensures r == NotSaved(NoSuitableStream) <==> !env.streamFound
    ensures r.Saved? ==> NoForbidden(r.file)
    ensures r.Saved? ==> (EndsWith(r.file, ".mp3") <==> NeedsConversion(cfg) && env.convertOk)
    ensures r.Saved? ==> (r.file == TargetNames(cfg, title, index).output <==> !NeedsConversion(cfg) || env.convertOk)
  {
    var names := TargetNames(cfg, title, index);
    if !env.streamFound then NotSaved(NoSuitableStream)
    else if !env.transferOk then NotSaved(TransferFailed)
    else if !NeedsConversion(cfg) || env.convertOk then
      OutputIsMp3(cfg, title, index);
      Saved(names.output)
    else if env.renameOk then
      OutputIsMp3(cfg, title, index);
      FallbackKeeps(names.output);
      Saved(FallbackName(names.output))
    else NotSaved(KeepFailed)
  }

  /** The output name ends in `.mp3` exactly when a transcode follows. */
  lemma OutputIsMp3(cfg: Config, title: string, index: Option<nat>)
    ensures EndsWith(TargetNames(cfg, title, index).output, ".mp3") <==> NeedsConversion(cfg)
  {
    ExtensionDecidesEnding(TargetNames(cfg, title, index).output, Extension(cfg));
  }

  /** A name ending in `.mp3` or `.mp4` ends in `.mp3` exactly when that is its extension. */
  lemma ExtensionDecidesEnding(name: string, ext: string)
    requires ext == "mp3" || ext == "mp4"
    requires EndsWith(name, "." + ext)
    ensures EndsWith(name, ".mp3") <==> ext == "mp3"
  {
    assert name[|name| - 4..] == "." + ext;
    assert ("." + ext)[3] == ext[2];
  }

  /** The kept file of a failed transcode is a safe name other than the `.mp3` output. */
  lemma FallbackKeeps(output: string)
    requires EndsWith(output, ".mp3") && NoForbidden(output)
    ensures NoForbidden(FallbackName(output))
    ensures !EndsWith(FallbackName(output), ".mp3") && FallbackName(output) != output
  {
    var kept := FallbackName(output);
    FallbackSafe(output);
    assert kept[|kept| - 1] == '4';
    assert output[|output| - 1] == '3';
  }

  /** The fallback name only swaps the suffix, so a safe name stays safe. */
  lemma FallbackSafe(output: string)
    requires output != [] && NoForbidden(output)
    ensures NoForbidden(FallbackName(output))
  {
    var r := FallbackName(output);
    var stem := r[..|r| - 4];
    assert stem == output[..|stem|];
    assert NoForbidden(stem) by {
      forall i | 0 <= i < |stem|
        ensures !IsForbidden(stem[i])
      {
        assert stem[i] == output[i];
      }
    }
    assert r == stem + r[|r| - 4..];
    Mp4TailSafe();
    NoForbiddenConcat(stem, ".mp4");
  }

  /** A failed transcode does not fail the download: the audio is kept under the `.mp4` name. */
  lemma TranscodeFailureKeepsAudio(cfg: Config, title: string, index: Option<nat>, env: AttemptEnv)
    requires NeedsConversion(cfg) && env.streamFound && env.transferOk && !env.convertOk && env.renameOk
    ensures DownloadSingleVideo(cfg, title, index, env) == Saved(FallbackName(TargetNames(cfg, title, index).output))
    ensures Suffix(DownloadSingleVideo(cfg, title, index, env).file) == ".mp4"
  {
  }

  /** `c.lower()` on ASCII letters; other characters are left as they are. */
  function LowerChar(c: char): (d: char)
    ensures 'A' <= c <= 'Z' ==> 'a' <= d <= 'z' && d as int == c as int + 32
    ensures !('A' <= c <= 'Z') ==> d == c
  {
    if 'A' <= c <= 'Z' then (c as int + 32) as char else c
  }

  /** `s.lower()` on ASCII text: no upper-case letter is left, each one becomes
      its lower-case partner, and every other character stays where it was. */
  function Lower(s: string): (r: string)
    ensures |r| == |s|
    ensures forall i :: 0 <= i < |s| ==> !('A' <= r[i] <= 'Z')
    ensures forall i :: 0 <= i < |s| ==> ('A' <= s[i] <= 'Z' <==> r[i] != s[i])
    ensures forall i :: 0 <= i < |s| && 'A' <= s[i] <= 'Z' ==> r[i] as int == s[i] as int + 32
  {
    seq(|s|, i requires 0 <= i < |s| => LowerChar(s[i]))
  }

  lemma LowerIdempotent(s: string)
    ensures Lower(Lower(s)) == Lower(s)
  {
  }

  /** `pattern in s` for strings. */
  function Contains(s: string, pattern: string): bool
    decreases |s|
  {
    |s| >= |pattern| && (s[..|pattern|] == pattern || Contains(s[1..], pattern))
  }

  /** `pattern` occurs in `s` at offset `i`. */
  predicate OccursAt(s: string, pattern: string, i: nat)
  {
    i <= |s| - |pattern| && s[i..i + |pattern|] == pattern
  }

  /** `Contains` holds exactly when `pattern` occurs at some offset of `s`. */
  lemma {:induction false} ContainsMeaning(s: string, pattern: string)
    ensures Contains(s, pattern) <==> exists i: nat :: OccursAt(s, pattern, i)
    decreases |s|
  {
    if |s| >= |pattern| {
      if s[..|pattern|] == pattern {
        assert OccursAt(s, pattern, 0);
      } else {
        ContainsMeaning(s[1..], pattern);
        if Contains(s[1..], pattern) {
          var i: nat :| OccursAt(s[1..], pattern, i);
          assert s[i + 1..i + 1 + |pattern|] == s[1..][i..i + |pattern|];
          assert OccursAt(s, pattern, i + 1);
        }
        if exists i: nat :: OccursAt(s, pattern, i) {
          var i: nat :| OccursAt(s, pattern, i);
          assert i > 0;
          assert s[1..][i - 1..i - 1 + |pattern|] == s[i..i + |pattern|];
          assert OccursAt(s[1..], pattern, i - 1);
        }
      }
    } else {
      assert forall i: nat :: !OccursAt(s, pattern, i);
    }
  }

  /** An occurrence anywhere, in any letter case, is found. */
  lemma ContainsOccurrence(a: string, pattern: string, b: string)
    ensures Contains(a + pattern + b, pattern)
  {
    var s := a + pattern + b;
    assert s[|a|..|a| + |pattern|] == pattern;
    assert OccursAt(s, pattern, |a|);
    ContainsMeaning(s, pattern);
  }

  /** The dispatch test of `download`: `"playlist" in url.lower()`. */
  predicate IsPlaylistUrl(url: string)
    ensures IsPlaylistUrl(url) <==> exists i: nat :: OccursAt(Lower(url), "playlist", i)
  {
    ContainsMeaning(Lower(url), "playlist");
    Contains(Lower(url), "playlist")
  }

  /** The test ignores letter case. */
  lemma PlaylistUrlIgnoresCase(url: string)
    ensures IsPlaylistUrl(Lower(url)) <==> IsPlaylistUrl(url)
  {
    LowerIdempotent(url);
  }

  /** A URL whose lower-case form has `playlist` in it takes the playlist path. */
  lemma PlaylistUrlRecognised(url: string, a: string, b: string)
    requires Lower(url) == a + "playlist" + b
    ensures IsPlaylistUrl(url)
  {
    ContainsOccurrence(a, "playlist", b);
  }

  /** Whether playlist item `i` downloads in round `k`, as the batch sees it. */
  function PlaylistOracle(cfg: Config, p: Playlist, attempt: (nat, nat) -> AttemptEnv): Oracle
  {
    (i: nat, k: nat) =>
      1 <= i <= |p.videos| &&
      DownloadSingleVideo(cfg, p.videos[i - 1].title, Some(i), attempt(i, k)).Saved?
  }

  /** The oracle is the attempt's own verdict for each item of the playlist. */
  lemma PlaylistOracleMeaning(cfg: Config, p: Playlist, attempt: (nat, nat) -> AttemptEnv, i: nat, k: nat)
    requires 1 <= i <= |p.videos|
    ensures PlaylistOracle(cfg, p, attempt)(i, k) <==>
            var env := attempt(i, k);
            env.streamFound && env.transferOk && (!NeedsConversion(cfg) || env.convertOk || env.renameOk)
  {
  }

  /** The playlist's folder under the output directory: the sanitised title as
      one path component. pathlib drops an empty component and a `.` one, so
      then the files go straight into the output directory. */
  function PlaylistFolder(title: string): (folder: seq<string>)
    ensures |folder| <= 1
    ensures folder != [] ==> folder == [SanitizeFilename(title)]
    ensures forall c :: c in folder ==> c != "" && NoForbidden(c) && Trimmed(c)
    ensures folder == [] <==> SanitizeFilename(title) in {"", "."}
  {
    var name := SanitizeFilename(title);
    if name == "" || name == "." then [] else [name]
  }

  /** The entries the summary lists as failed once rounds `0..rounds` are
      over: the videos, in playlist order, that failed every one of them,
      each with its 1-based position. */
  function FailedVideos(p: Playlist, ok: Oracle, rounds: nat): (es: seq<FailedEntry>)
    ensures var failing := StillFailing(Positions(|p.videos|), ok, 0, rounds);
            && (forall x :: x in failing <==> (1 <= x <= |p.videos| && FailsThrough(ok, x, 0, rounds)))
            && StrictlyIncreasing(failing)
            && |es| == |failing|
            && forall j {:trigger es[j]} :: 0 <= j < |es| ==>
                 1 <= failing[j] <= |p.videos| && es[j] == FailedEntry(Some(failing[j]), p.videos[failing[j] - 1])
  {
    FailedAfter(|p.videos|, ok, rounds);
    var failing := StillFailing(Positions(|p.videos|), ok, 0, rounds);
    assert forall j :: 0 <= j < |failing| ==> failing[j] in failing;
    seq(|failing|, j requires 0 <= j < |failing| => FailedEntry(Some(failing[j]), p.videos[failing[j] - 1]))
  }

  /** What `download_playlist` reports for playlist `p` when `ok` decides each
      item in each round: the sanitised folder, the total, and the counts of
      `RoundsReported`. */
  ghost predicate ReportsPlaylist(cfg: Config, p: Playlist, ok: Oracle, s: Summary)
  {
    && s.folder == PlaylistFolder(p.title)
    && s.total == |p.videos|
    && RoundsReported(cfg, p, ok, s.succeeded, s.failed, s.retryRounds)
  }

  /** The counts after the first pass and `rounds` retry rounds: successes
      and failures add up to the playlist; at most the retry budget of
      rounds, cut short only by full success and never run once nothing is
      failing; the failures are the entries of the videos that failed every
      round run. */
  ghost predicate RoundsReported(cfg: Config, p: Playlist, ok: Oracle,
                                 succeeded: nat, failed: seq<FailedEntry>, rounds: nat)
  {
    && succeeded + |failed| == |p.videos|
    && rounds <= RetryBudget(cfg.retry, cfg.retryAttempts)
    && (failed == [] || rounds == RetryBudget(cfg.retry, cfg.retryAttempts))
    && (rounds == 0 || StillFailing(Positions(|p.videos|), ok, 0, rounds) != [])
    && failed == FailedVideos(p, ok, rounds + 1)
  }

  /** `download_playlist` with the verdict of each item in each round left
      abstract as `ok`; the summary it logs. */
  method SummarizePlaylist(cfg: Config, p: Playlist, ok: Oracle) returns (s: Summary)
    ensures ReportsPlaylist(cfg, p, ok, s)
  {
    var succeeded, failed, rounds := PlaylistCounts(cfg, p, ok);
    s := Summary(PlaylistFolder(p.title), |p.videos|, succeeded, failed, rounds);
  }

  /** The counts of the playlist summary. */
  method PlaylistCounts(cfg: Config, p: Playlist, ok: Oracle)
    returns (succeeded: nat, failed: seq<FailedEntry>, rounds: nat)
    ensures RoundsReported(cfg, p, ok, succeeded, failed, rounds)
  {
    succeeded, rounds := RunRounds(|p.videos|, cfg, ok);
    failed := FailedVideos(p, ok, rounds + 1);
    FailedVideosCount(p, ok, rounds + 1);
  }

  lemma FailedVideosCount(p: Playlist, ok: Oracle, rounds: nat)
    ensures |FailedVideos(p, ok, rounds)| == |StillFailing(Positions(|p.videos|), ok, 0, rounds)|
  {
  }

  /** The first pass and the retry rounds over `n` items, reduced to the two
      counts the summary reports; the failures are the reference list. */
  method RunRounds(n: nat, cfg: Config, ok: Oracle) returns (succeeded: nat, rounds: nat)
    ensures var failing := StillFailing(Positions(n), ok, 0, rounds + 1);
            && succeeded + |failing| == n
            && rounds <= RetryBudget(cfg.retry, cfg.retryAttempts)
            && (failing == [] || rounds == RetryBudget(cfg.retry, cfg.retryAttempts))
    ensures rounds == 0 || StillFailing(Positions(n), ok, 0, rounds) != []
  {
    var b := DownloadPlaylist(n, cfg.retry, cfg.retryAttempts, ok);
    succeeded, rounds := b.succeeded, |b.retried|;
    if rounds > 0 {
      RoundNonEmpty(n, ok, b.retried, rounds - 1);
    }
  }

  /** `download_playlist` (downloader.py, lines 123-181), each item's verdict in
      each round being that of its own `download_single_video` attempt. */
  method DownloadPlaylistItems(cfg: Config, p: Playlist, attempt: (nat, nat) -> AttemptEnv) returns (s: Summary)
    ensures ReportsPlaylist(cfg, p, PlaylistOracle(cfg, p, attempt), s)
  {
    s := SummarizePlaylist(cfg, p, PlaylistOracle(cfg, p, attempt));
  }

  /** The single-video branch of `download` (downloader.py, lines 195-202): one video into the output directory itself. */
  function SingleSummary(cfg: Config, v: Video, env: AttemptEnv): (s: Summary)
    ensures s.folder == [] && s.total == 1 && s.retryRounds == 0
    ensures s.succeeded + |s.failed| == 1
    ensures s.succeeded == 1 <==> DownloadSingleVideo(cfg, v.title, None, env).Saved?
    ensures s.failed != [] ==> s.failed == [FailedEntry(None, v)]
  {
    if DownloadSingleVideo(cfg, v.title, None, env).Saved? then Summary([], 1, 1, [], 0)
    else Summary([], 1, 0, [FailedEntry(None, v)], 0)
  }

  /** What `download` needs from the outside world: the playlist or the video
      the URL resolves to (`None` when fetching it raises), the outcome of the
      single-video attempt, and the outcome of each playlist item per round. */
  datatype World = World(
    playlist: Option<Playlist>,
    video: Option<Video>,
    single: AttemptEnv,
    attempt: (nat, nat) -> AttemptEnv)

  /** `download` (downloader.py, lines 183-205): dispatch on the URL, run one of the two paths, and
      re-raise what went wrong. A non-positive `max_concurrent` makes the
      thread pool refuse to start. */
  method Download(url: string, cfg: Config, world: World) returns (r: Result<Summary, DownloadError>)
    ensures IsPlaylistUrl(url) ==>
              (world.playlist.None? ==> r == Err(PlaylistUnavailable)) &&
              (world.playlist.Some? && cfg.maxConcurrent <= 0 ==> r == Err(InvalidPoolSize)) &&
              (world.playlist.Some? && cfg.maxConcurrent > 0 ==>
                 r.Ok? &&
                 ReportsPlaylist(cfg, world.playlist.value, PlaylistOracle(cfg, world.playlist.value, world.attempt), r.value))
    ensures !IsPlaylistUrl(url) ==>
              (world.video.None? ==> r == Err(VideoUnavailable)) &&
              (world.video.Some? ==> r == Ok(SingleSummary(cfg, world.video.value, world.single)))
    ensures r.Ok? ==> r.value.succeeded + |r.value.failed| == r.value.total
  {
    if IsPlaylistUrl(url) {
      if world.playlist.None? {
        return Err(PlaylistUnavailable);
      }
      if cfg.maxConcurrent <= 0 {
        return Err(InvalidPoolSize);
      }
      var s := DownloadPlaylistItems(cfg, world.playlist.value, world.attempt);
      r := Ok(s);
    } else {
      if world.video.None? {
        return Err(VideoUnavailable);
      }
      r := Ok(SingleSummary(cfg, world.video.value, world.single));
    }
  }
}
