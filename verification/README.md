# YouTube downloader core, modelled in Dafny

This project models the decision logic of a small YouTube downloader. The
downloader takes a URL and saves either one video or a whole playlist. It can
save audio only, as mp3, and can number playlist items in their file names. It
downloads playlist items concurrently and can retry the ones that failed.

The model covers five parts of the program:

- **Filename sanitiser** (`sanitize.dfy`). `sanitize_filename` deletes the
  characters `< > : " / \ | ? *` and then trims outer whitespace, using
  Python's `str.isspace` set.
- **Target names** (`naming.dfy`, `decimal.dfy`). These files cover:
  - the extension choice (`mp3` only for audio-only mp3, otherwise `mp4`);
  - the optional `NN_` index prefix, formatted with `02d`;
  - the temporary name used while a file awaits transcoding;
  - the `.mp4` fallback name. This is built with pathlib's `with_suffix`,
    which is modelled on the `PurePath.suffix` rule.
- **Single-item outcome** (`downloader.dfy`). `DownloadSingleVideo` decides
  whether one attempt saves a file, and which file. The effects it depends on
  are modelled as booleans in `AttemptEnv`:
  - whether a stream was found;
  - whether the byte transfer completed;
  - whether transcoding succeeded;
  - whether the fallback rename succeeded.
- **Playlist batch** (`batch.dfy`, `downloader.dfy`).
  - The first pass over items `1..n` tallies successes and keeps the failed
    positions in playlist order.
  - The retry loop runs at most `retry_attempts` rounds. Each round retries
    only the items still failing. The loop stops early once nothing is left.
  - Whether item `i` succeeds in round `k` is given by an oracle
    `(i, k) -> bool`. Round 0 is the first pass.
  - `StillFailing` is an independent reference definition: the positions that
    failed in every round so far. The loop is proved to compute exactly this
    list.
- **URL dispatch** (`Downloader.Download`). A URL whose lower-cased text
  contains `playlist` goes to the playlist path. Any other URL goes to the
  single-video path, which reports a one-item summary. Exceptions that escape
  `download` become `Err` values.

The remaining modules are shared helpers. `wrappers.dfy` holds `Option` and
`Result`. `seqs.dfy` holds subsequence and ordering facts.

## Model

| member | source | states |
|---|---|---|
| Sanitize.SanitizeFilename | youtube_downloader/utils.py:18 | the result contains none of `< > : " / \ \| ? *` and has no leading or trailing whitespace |
| Sanitize.RemoveForbidden | youtube_downloader/utils.py:18 | the deletion step leaves no forbidden character and never lengthens the string |
| Sanitize.RemoveForbiddenCounts | youtube_downloader/utils.py:18 | the deletion step keeps every allowed character as often as it occurs in the input and drops every forbidden one |
| Sanitize.RemoveForbiddenConcat | youtube_downloader/utils.py:18 | deleting forbidden characters from a concatenation equals concatenating the two deletions |
| Sanitize.Strip | youtube_downloader/utils.py:18 | `strip()` yields a string with no whitespace at either end |
| Sanitize.StripIsSlice | youtube_downloader/utils.py:18 | `strip()` removes only whitespace, and only from the two ends: the result is a contiguous slice whose removed ends are all whitespace |
| Sanitize.SanitizeTrimsDeletion | youtube_downloader/utils.py:18 | the sanitised name is the outer-whitespace trim of the deletion result |
| Sanitize.SanitizeIsSubsequence | youtube_downloader/utils.py:18 | the sanitised name is a subsequence of the title: nothing is added or reordered |
| Sanitize.SanitizeShrinks | youtube_downloader/utils.py:18 | sanitising never makes a name longer |
| Sanitize.SanitizeFixedPoint | youtube_downloader/utils.py:18 | a name is returned unchanged if and only if it has no forbidden character and no outer whitespace |
| Sanitize.SanitizeIdempotent | youtube_downloader/utils.py:18 | sanitising twice gives the same result as sanitising once |
| Sanitize.SanitizeKeepsInterior | youtube_downloader/utils.py:18 | every character of the title that is neither forbidden nor whitespace survives sanitising |
| Sanitize.SanitizePadded | youtube_downloader/utils.py:18 | whitespace padding around a safe, trimmed name is removed and nothing else changes |
| Sanitize.SanitizeDeletesForbidden | youtube_downloader/utils.py:18 | `"a/b:c*d"` sanitises to `"abcd"` |
| Sanitize.SanitizeTrimsOuterSpace | youtube_downloader/utils.py:18 | `"  name  "` sanitises to `"name"` |
| Sanitize.SanitizeDeletesThenTrims | youtube_downloader/utils.py:18 | `" <a b?> "` sanitises to `"a b"`: spaces exposed by deletion are trimmed, interior ones are kept |
| Decimal.NatToDecimal | youtube_downloader/downloader.py:93 | `str(n)` is all digits, has no leading zero unless it is `"0"`, and parses back to `n` |
| Decimal.PadLeft | youtube_downloader/downloader.py:93 | zero padding reaches the requested width and keeps the original digits as a suffix |
| Decimal.FormatIndex | youtube_downloader/downloader.py:93 | `f"{index:02d}"` is all digits and parses back to the index; it is exactly two characters wide below 10 and as wide as `str(index)` from 10 on |
| Decimal.FormatIndexInjective | youtube_downloader/downloader.py:93 | two indices get the same `02d` rendering if and only if they are equal, so distinct items get distinct prefixes |
| Decimal.FormatIndexUnpadded | youtube_downloader/downloader.py:93 | an index of 10 or more is rendered as plain `str(index)` |
| Decimal.FormatIndexPadsOneDigit | youtube_downloader/downloader.py:93 | index 3 is rendered as `"03"` |
| Decimal.FormatIndexKeepsWideIndex | youtube_downloader/downloader.py:93 | index 100 is rendered as `"100"`, not truncated |
| Naming.Extension | youtube_downloader/downloader.py:90 | the extension is `mp3` exactly when audio-only mp3 is configured, and `mp4` otherwise |
| Naming.IndexPrefix | youtube_downloader/downloader.py:92-93 | a prefix is written if and only if an index is given and index prefixing is on |
| Naming.TargetNames | youtube_downloader/downloader.py:90-98 | output and temp names are free of forbidden characters; the output ends in `.` plus the extension; it is the index prefix, then the sanitised title, then `.` and the extension, so its length is prefix plus sanitised title plus 4; the temp name differs from the output exactly when conversion is needed, and is then `temp_` plus the output |
| Naming.TargetNameIndexReadBack | youtube_downloader/downloader.py:92-93 | the leading digits of a prefixed name read back as the item's index |
| Naming.IndexPrefixReadBack | youtube_downloader/downloader.py:93 | the digits of the `NN_` prefix read back as the index whatever follows the prefix |
| Naming.PrefixedNamesDistinct | youtube_downloader/downloader.py:90-93 | two prefixed output names are equal if and only if the indices are equal and the sanitised titles are equal |
| Naming.TargetNameExample | youtube_downloader/downloader.py:90-93 | item 3 titled `Clip`, video mode, prefixing on, is saved as `03_Clip.mp4` |
| Naming.Suffix | youtube_downloader/downloader.py:115 | a non-empty pathlib suffix is a tail of the name, shorter than the name and at least two characters long, whose only dot is its first character; a name without a dot has no suffix |
| Naming.SuffixAtLastDot | youtube_downloader/downloader.py:115 | with the last dot of the name at position `i`, the suffix is the tail from `i` when `0 < i < len - 1`, and empty otherwise (a dot-file, or a trailing dot) |
| Naming.SuffixAfterStem | youtube_downloader/downloader.py:115 | a proper suffix placed after any non-empty stem is read back as that name's suffix |
| Naming.WithSuffix | youtube_downloader/downloader.py:115 | after `with_suffix(x)` the name ends in `x` and its suffix reads back as `x`; the part in front of `x`, followed by the old suffix, gives back the original name |
| Naming.WithSuffixIdempotent | youtube_downloader/downloader.py:115 | applying the same `with_suffix` twice changes nothing further |
| Naming.FallbackName | youtube_downloader/downloader.py:115 | the fallback name ends in `.mp4`, and that is its pathlib suffix |
| Naming.FallbackSwapsExtension | youtube_downloader/downloader.py:115 | a name `stem.mp3` with any non-empty stem, including one that ends in a dot, falls back to `stem.mp4` |
| Naming.FallbackOfBareExtension | youtube_downloader/downloader.py:115 | the bare name `.mp3`, from a title that sanitises to nothing, falls back to `.mp3.mp4`, because pathlib sees no suffix in a dot-file |
| Batch.Positions | youtube_downloader/downloader.py:145 | `enumerate(videos, 1)` numbers the `n` items `1..n`, strictly increasing |
| Batch.Attempt | youtube_downloader/downloader.py:142-146 | one outcome per item, in item order, each carrying that item's verdict for the round |
| Batch.RangeLength | youtube_downloader/downloader.py:157 | `range(lo, hi)` has `hi - lo` elements when `lo < hi` and none otherwise |
| Batch.RetryBudget | youtube_downloader/downloader.py:155-157 | the number of retry rounds allowed is the length of `range(1, retry_attempts + 1)` when retry is on, and 0 when it is off |
| Batch.TallyOutcomes | youtube_downloader/downloader.py:148-152 | successes plus failures equal the number of items tallied |
| Batch.Pass | youtube_downloader/downloader.py:148-152 | a pass counts its successes and keeps exactly the items that failed in that round, in order |
| Batch.PassFailures | youtube_downloader/downloader.py:159-166 | a pass's failure list is the reference list of items still failing after one more round |
| Batch.StillFailingCompose | youtube_downloader/downloader.py:159-166 | filtering rounds `lo..mid`, then `mid..hi`, equals filtering rounds `lo..hi` |
| Batch.StillFailingKeepsOrder | youtube_downloader/downloader.py:160-165 | the still-failing list is a subsequence of the items, so playlist order is kept |
| Batch.FailsThroughMeaning | youtube_downloader/downloader.py:148-166 | an item fails through rounds `lo..hi` if and only if it fails in each of them |
| Batch.FailedAfter | youtube_downloader/downloader.py:148-166 | after `k` rounds, a position is still failing if and only if it is in `1..n` and failed every round so far; the list is strictly increasing |
| Batch.RetriedMembers | youtube_downloader/downloader.py:159-166 | retry round `j + 1` attempts exactly the positions in `1..n` that failed every earlier round, in increasing order |
| Batch.TimesAttempted | youtube_downloader/downloader.py:157-165 | each item is attempted at least once and at most once per round |
| Batch.RetryAttemptsCounted | youtube_downloader/downloader.py:142-165 | for rounds logged by the loop, the attempt count of an item is one for the first pass plus the number of times it is downloaded in the retry rounds |
| Batch.FinalFailedIffEveryAttemptFailed | youtube_downloader/downloader.py:148-169 | an item is reported failed if and only if every attempt made at it failed |
| Batch.EmptyRoundEndsRetries | youtube_downloader/downloader.py:166-169 | no logged retry round was run with an empty list: the loop stops as soon as nothing fails |
| Batch.RetryFailed | youtube_downloader/downloader.py:155-169 | the retry loop runs at most `retry_attempts` rounds and stops early only when nothing fails; successes plus remaining failures equal `n`; the remaining list equals the reference still-failing list |
| Batch.DownloadPlaylist | youtube_downloader/downloader.py:132-169 | the total is `n`; successes plus failures equal `n`; rounds are bounded by the retry budget and stop early only on full success; the final failures are the reference still-failing list, so exactly the positions in `1..n` that failed every round run, in increasing order; each logged retry round worked through the non-empty still-failing list before it |
| Batch.RecoveredOnRetry | youtube_downloader/downloader.py:155-169 | with items 2 and 4 failing only on the first pass, one retry round recovers both: 5 succeeded, none failed |
| Batch.FailuresKeptWithoutRetry | youtube_downloader/downloader.py:155 | with retry off, the same items stay failed: 3 succeeded, failed `[2, 4]`, no rounds |
| Downloader.DownloadSingleVideo | youtube_downloader/downloader.py:84-121 | the attempt succeeds if and only if a stream is found, the transfer completes and, when mp3 conversion is needed, the conversion or the fallback rename succeeds; a missing stream is reported as such; the saved file is free of forbidden characters, is an `.mp3` exactly when conversion succeeded, and is the planned output name exactly when no conversion was needed or it succeeded |
| Downloader.OutputIsMp3 | youtube_downloader/downloader.py:90-91 | the planned output name ends in `.mp3` exactly when an mp3 transcode follows |
| Downloader.FallbackKeeps | youtube_downloader/downloader.py:113-115 | the file kept after a failed transcode is free of forbidden characters, does not end in `.mp3`, and differs from the planned output name |
| Downloader.FallbackSafe | youtube_downloader/downloader.py:115 | the `.mp4` fallback name is free of forbidden characters |
| Downloader.TranscodeFailureKeepsAudio | youtube_downloader/downloader.py:113-118 | a failed transcode followed by a successful rename is still a success and saves a `.mp4` file |
| Downloader.ContainsMeaning | youtube_downloader/downloader.py:191 | `pattern in s` holds if and only if the pattern occurs at some offset of `s` |
| Downloader.ContainsOccurrence | youtube_downloader/downloader.py:191 | a pattern placed anywhere inside a string is found |
| Downloader.PlaylistUrlIgnoresCase | youtube_downloader/downloader.py:191 | the playlist test gives the same answer for a URL and for its lower-cased form |
| Downloader.PlaylistUrlRecognised | youtube_downloader/downloader.py:191 | any URL containing `playlist` goes to the playlist path |
| Downloader.Lower | youtube_downloader/downloader.py:191 | lower-casing keeps the length, changes exactly the upper-case ASCII letters, maps each to its lower-case letter, and leaves none behind |
| Downloader.IsPlaylistUrl | youtube_downloader/downloader.py:191 | a URL is a playlist URL if and only if `playlist` occurs at some offset of its lower-cased text |
| Downloader.ExtensionDecidesEnding | youtube_downloader/downloader.py:90-91 | a name ending in `.` plus the extension ends in `.mp3` exactly when the extension is `mp3` |
| Downloader.PlaylistOracleMeaning | youtube_downloader/downloader.py:136-139 | a playlist item succeeds in a round exactly when its single-video attempt in that round saves a file |
| Downloader.PlaylistFolder | youtube_downloader/downloader.py:130-131 | the playlist folder is the sanitised title as a single path component, and is absent exactly when the title sanitises to `""` or `"."`, which pathlib drops; a present component is non-empty, free of forbidden characters and trimmed |
| Downloader.FailedVideos | youtube_downloader/downloader.py:148-166 | the entries reported failed are the videos at exactly the positions that failed every round so far, in playlist order; entry `j` pairs the `j`-th such position with the playlist video at that position |
| Downloader.SummarizePlaylist | youtube_downloader/downloader.py:129-169 | for any per-item verdicts: the summary has the sanitised folder and total `len(videos)`; succeeded plus failed equals the total; retry rounds are bounded, stop early only on full success, and are run only while items are still failing, so none after a fully successful first pass; the failed entries are the videos that failed every round run |
| Downloader.RunRounds | youtube_downloader/downloader.py:132-169 | the successes plus the items still failing after the rounds run add up to `len(videos)`; the rounds stay within the retry budget and stop early only when nothing is left failing; a retry round is run only when items were still failing before it, so no round runs after a fully successful first pass |
| Downloader.PlaylistCounts | youtube_downloader/downloader.py:132-169 | the counts of the playlist summary: succeeded plus failed equal `len(videos)`, bounded rounds that stop early only on full success and run only while items are still failing, and the failed entries of the videos that failed every round run |
| Downloader.DownloadPlaylistItems | youtube_downloader/downloader.py:129-169 | the same summary, including the bounded rounds that run only while items are still failing, when each verdict is that of the item's own single-video attempt in that round |
| Downloader.SingleSummary | youtube_downloader/downloader.py:195-202 | a single URL reports total 1 with 1 success if and only if the attempt saved a file, and otherwise lists that video as failed |
| Downloader.Download | youtube_downloader/downloader.py:183-205 | a URL with `playlist` in any case takes the playlist path, which fails when the playlist cannot be fetched or the pool size is not positive and otherwise returns the playlist summary: the total and folder, retry rounds within the budget that stop early only on full success and run only while items are still failing, and the failed entries of the videos that failed every round run; any other URL takes the single-video path, which fails when the video cannot be fetched; every success has succeeded plus failed equal to the total |

## Left out

- Stream selection (`get_stream`, the `quality` setting): only whether a stream
  was found is modelled, as `AttemptEnv.streamFound`.
- The byte transfer, the `tqdm` progress bar and the progress callback. They
  are reduced to `AttemptEnv.transferOk`.
- `convert_to_mp3` and the ffmpeg availability check. Their verdict is the input
  `AttemptEnv.convertOk`. Whether the fallback rename raises is the input
  `AttemptEnv.renameOk`. A failed rename raises inside the `try`, so the item is
  reported failed.
- Filesystem effects are not modelled: directory creation, writing, renaming
  and deleting files. The model states which names are used, not what ends up
  on disk.
- Network access. `Playlist(url)` and `YouTube(url)` are given by the `World`
  parameter, and `None` stands for "constructing it raised". Per-attempt
  outcomes are an oracle indexed by item and round, so any dependence on
  network state or time is abstracted into that function.
- Concurrency of the first pass. `executor.map` returns results in input order
  whatever the scheduling, so the first pass is a sequential pass over
  positions `1..n`. The pool size matters only for the `max_workers <= 0`
  error, `Err(InvalidPoolSize)`.
- Logging and printing of the summaries. They are returned as `Summary` values
  instead.
- Exceptions in the playlist path other than fetching the playlist and a
  non-positive pool size are not modelled. An example is a failure to create
  the playlist folder.
- `cli.py`, `config.py` and the tests. Configuration is the `Config` value,
  with `retry_attempts` an integer that may be negative. A negative value
  makes `range(1, retry_attempts + 1)` empty, so there are no rounds.
- Lower: maps only `A`–`Z` to lower case, while Python's `str.lower` is
  Unicode-aware. The dispatch test depends only on `playlist`, and no
  character outside ASCII lower-cases to a single ASCII letter of that word.
  The dispatch is therefore the same for every URL made of characters whose
  Python lower-case form is a single character. Characters that lower-case
  to two characters (`U+0130`) are not modelled.
- DownloadSingleVideo: returns a `SingleResult` that names the saved file or
  the failure reason, where the source returns a bare `bool`. `Saved?` is that
  `bool`.
- Partial output left behind by a failed transcode is not modelled.
- The retry loop is a method with loop invariants, checked against the
  reference definition `StillFailing`. It is not written as a recursive
  function.
- Reading `title` (and `watch_url`) can raise, since pytube fetches the page
  for it. The model takes every `title` as a plain string that can always be
  read. The reads it leaves out are these:
  - Inside `download_single_video`, at downloader.py:65, 87 and 91, the read
    lies within the `try`. The attempt is reported failed, unless the
    handler's own read at line 120 raises too; then the exception escapes the
    attempt.
  - In the playlist path, at 129-130, at 161 and at 172-179, and for any
    exception escaping an attempt. The first pass aborts at
    `list(executor.map(...))` (line 143), or the retry loop or the summary
    stops. `download_playlist` then raises, and `download` logs the error and
    re-raises it instead of producing a summary.
  - In the single path, at 202, after the attempt has finished. `download`
    raises instead of finishing its summary.
- PlaylistFolder: a title that sanitises to `..` names the parent directory in
  pathlib. The model keeps it as one folder component and does not resolve it.
