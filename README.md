# Voice conversation app: client services, server helpers and player logic

This project models the core of a voice-conversation app. The user records a
question. The mobile client uploads it to a speech server and then polls until
the server's spoken reply exists.

What is modelled, file by file:

- **`ConversationService`** (`conversation_service.dfy`):
  - the client configuration and its conversation-path normalisation;
  - URL resolution, and the cache-busting parameters appended to URLs;
  - the multipart upload, its progress percentage and its error text;
  - the HEAD probes `headAudio` and `checkAudioReady`;
  - `downloadAudio`;
  - the six-signal test that decides whether the file behind the reply URL has changed.
- **`AudioPolling`** (`audio_polling.dfy`) models `pollForAudio`:
  - One run of the poll closure is the function `Step`, over an explicit state: the baseline snapshot, whether a change was seen, the stability counter and the confirmation flag.
  - `Run` folds `Step` over the ticks in order until one of them settles the promise.
  - The method `PollForAudio` keeps the same variables in a loop, makes the service calls itself, and is proved to compute what `Run` computes.
  - Lemmas prove properties of the whole run:
    - the state invariant;
    - monotone confirmation;
    - the range of the reported percentages;
    - that "ready" is reported only at resolution;
    - that rejection happens only on timeout.
- **`StorageService`** (`storage_service.dfy`): a class with one field, the stored value under the conversations key. Its methods read, save (prepend, then cap at 50), delete by id and clear.
- **`TtsServer`** (`tts_server.dfy`) covers the pure parts of the speech server:
  - the recursive search for an audio URL in the synthesis service's JSON-like output, using the regex `https?://\S+` written out by hand;
  - the transcription language parameter;
  - the reply audio URL and output file name.
- **`Recorder`** (`recorder.dfy`) is the recorder hook as a class:
  - its fields are the `RecorderState` record, the recording ref, the timer ref, and the set of running intervals;
  - its methods are the permission check, start, the one-second tick, stop, reset and unmount.
- **`AudioPlayer`** (`audio_player.dfy`) holds the player component's pure helpers:
  - the `m:ss` clock;
  - the stamped URI;
  - the progress-bar position and percentage;
  - the seek clamp.
- **`ReplyAudioFlow`** (`reply_audio_flow.dfy`) connects the server's reply URL to the client's URL resolution and to the poll's fallback.
- **`Text`** (`text.dfy`) holds the string behaviour the sources depend on:
  - `startsWith`;
  - `split('/').pop()`;
  - `a || b` on strings;
  - decimal rendering of numbers;
  - JavaScript `parseInt`;
  - the `?`/`&` query append.
- **`Wrappers`** (`wrappers.dfy`) holds `Option` and `Result`.

Nothing in the model performs I/O.

- **What the outside world produced is a parameter.** This covers:
  - HTTP responses (`HeadOutcome`, `PostOutcome`, `DownloadOutcome`);
  - the platform (`Device.isWeb`, the cache and document directories);
  - `Date.now()` readings (`stamp`);
  - `Math.random()` suffixes (`rnd`);
  - elapsed times;
  - permission answers;
  - recorder handles.
- **Each poll tick is a value `Tick`.** Its fields are the elapsed time, the stamp, the random suffix, the probe outcome and the download outcome. `Observe` turns a `Tick` into what the closure sees through the service's functions.
- **Integers are unbounded and real numbers are exact.** JavaScript's `Math.floor`, `%` and `Math.round` are written out for the cases the source can reach.

The repository's tests in `__tests__/ConversationService.test.ts` expect some requests the code does not make. The model follows the code:

- The upload goes to `baseURL + conversationPath`, after normalisation. With no conversation path configured, that is the base URL followed by "/", not the `/conversation` URL the upload test expects (test lines 51-53). The code also sends no `Content-Type` header, which that test expects too (line 56).
- `checkAudioReady` and the download append `cb=<stamp>` to the resolved URL, while the tests expect the bare URL (lines 96-97 and 125-126). The `headAudio` probe appends `&rnd=<suffix>` as well.

Two further behaviours of the code are easy to miss:

- After a failed download the poll falls back to `baseURL + audioUrl`, with no conversation path. `FallbackDropsConversationPath` exhibits the difference from ordinary resolution. `FallbackMatchesResolutionForRootedPaths` shows that the two agree for the rooted URLs the server actually returns.
- `axios.head` uses its default status check, so a response outside 2xx throws. `headAudio` therefore treats a 404 exactly like a network failure (`MissingFileIsBareFailure`).

## Model

| member | source | states |
|---|---|---|
| ConversationService.NormalisePath | services/ConversationService.ts:19-22 | the path always starts with '/'; a '/'-leading value is kept verbatim, an unset or empty one becomes "/", and the raw value is always the tail of the result |
| ConversationService.NormalisePathIdempotent | services/ConversationService.ts:19-22 | normalising an already normalised path changes nothing |
| ConversationService.NewConfig | services/ConversationService.ts:13-23 | base URL precedence env > app extra > the fixed default, never empty; the token is the environment's when set, else the extra block's (so empty only when neither sets one); the conversation path is the normalised environment value when set, else the normalised extra value, hence rooted, and "/" when neither is set |
| ConversationService.ResolveUrl | services/ConversationService.ts:88-90 | an http-prefixed reference is returned unchanged, a '/'-rooted one gets only the base URL in front, any other gets base URL + conversation path + '/'; the reference is always the tail of the result |
| ConversationService.ResolvedPathIsRooted | services/ConversationService.ts:111-113 | with a well-formed configuration every resolved non-http reference is the base URL followed by a '/' |
| ConversationService.StampedUrl | services/ConversationService.ts:135-139 | the download URL begins with the resolved URL and ends with the `cb=<stamp>` parameter |
| ConversationService.ProbeUrl | services/ConversationService.ts:111-114 | the HEAD URL begins with the resolved URL and ends with `&rnd=<suffix>` |
| ConversationService.ProbeUrlCarriesStamp | services/ConversationService.ts:111-114 | after the resolved URL the HEAD URL holds exactly '&' if that URL already has a '?' and '?' otherwise, then `cb=<stamp>&rnd=<suffix>` |
| ConversationService.StampParam | services/ConversationService.ts:92 | no contract of its own; the `cb=<stamp>` parameter, whose rendering is Text.Decimal |
| ConversationService.RequestHeaders | services/ConversationService.ts:94-100 | both no-cache headers are always sent; an Authorization header is sent exactly when a token is configured, and carries "Bearer " + token; no other header is sent |
| ConversationService.GuessedName | services/ConversationService.ts:37 | the guessed file name is non-empty and free of '/': the URI's last segment when that is non-empty (and then a suffix of the URI), otherwise `recording_<stamp>.wav` |
| ConversationService.NormaliseFilePart | services/ConversationService.ts:33-41 | only a file part with a URI and no name is rewritten; it gets the guessed name and the type from `type`, else `mimeType`, else `audio/wav`; every other part is sent as given |
| ConversationService.NormaliseFilePartIdempotent | services/ConversationService.ts:33-41 | a normalised file part is left alone by a second normalisation, whatever its clock stamp |
| ConversationService.BuildForm | services/ConversationService.ts:43-45 | the form carries the normalised file part, and `lang` and `target_lang` default to "en" when empty and are passed through otherwise |
| ConversationService.UploadRequest | services/ConversationService.ts:47-59 | the POST goes to the base URL followed by the rooted conversation path (and its length is exactly theirs together), with the bearer header exactly when a token is set, the built form and a 45 s timeout |
| ConversationService.UploadProgress | services/ConversationService.ts:52-56 | no report when the total is zero; otherwise the integer nearest to loaded/total·100 (halves rounded up), which lies in 0..100 while loaded ≤ total |
| ConversationService.UploadProgressMonotone | services/ConversationService.ts:52-56 | more bytes loaded never yields a smaller percentage |
| ConversationService.UploadProgressHalf | services/ConversationService.ts:52-56 | 50 of 100 bytes reports 50 |
| ConversationService.UploadErrorText | services/ConversationService.ts:62-82 | precedence: ECONNREFUSED gives the "Cannot reach backend" text, else "Network Error" gives the network text (both naming the base URL), else "Upload failed" followed by the status when there is a response, else by the message when there is one, else nothing |
| ConversationService.UploadErrorStatusReadable | services/ConversationService.ts:65-66 | the status in "Upload failed (status N)" reads back with parseInt as N |
| ConversationService.Upload | services/ConversationService.ts:25-84 | the upload succeeds exactly when the POST does and returns its data; a failure rejects with the composed, non-empty error text |
| ConversationService.HeaderValue | services/ConversationService.ts:123-125 | the lower-case header wins when it is non-empty; otherwise the value is the other spelling's whenever that is present; there is no value exactly when the lower-case header is missing or empty and the other spelling is absent |
| ConversationService.HeadAudio | services/ConversationService.ts:109-131 | a thrown request or a response outside 2xx (which axios rejects) gives `{ok: false, url: audioUrl}` with no signals; a 2xx response is ok exactly for status 200 and carries the probe URL; its size is present exactly when the content-length header is truthy, and is then parseInt of that header; last-modified and etag are the header values |
| ConversationService.HeadAudioReadsContentLength | services/ConversationService.ts:123-126 | on a 2xx response a decimal content-length header yields that number as the size |
| ConversationService.MissingFileIsBareFailure | services/ConversationService.ts:109-131 | a 404 response gives exactly the snapshot of a failed request |
| ConversationService.CheckAudioReady | services/ConversationService.ts:86-107 | no contract of its own; specified by CheckAudioReadyAgreesWithHead |
| ConversationService.CheckAudioReadyAgreesWithHead | services/ConversationService.ts:86-107 | checkAudioReady is true exactly when the same probe outcome would make headAudio's snapshot ok: status 200, false on any failure |
| ConversationService.ConsideredChanged | services/ConversationService.ts:214-222 | no contract of its own; specified by SameSignalsNotChanged, DifferentSizesChanged, AppearedSignalChanged, DisappearedSignalNotChanged and UnparsableSizeAlwaysChanged |
| ConversationService.SameSignalsNotChanged | services/ConversationService.ts:214-222 | snapshots that agree on size, last-modified and etag (absent on both sides included) are never a change |
| ConversationService.DifferentSizesChanged | services/ConversationService.ts:214 | two present, different sizes are a change |
| ConversationService.AppearedSignalChanged | services/ConversationService.ts:218-220 | a signal absent from the baseline but present now is a change |
| ConversationService.DisappearedSignalNotChanged | services/ConversationService.ts:214-222 | signals that only disappear (or stay equal) are not a change |
| ConversationService.UnparsableSizeAlwaysChanged | services/ConversationService.ts:214 | an unparsable (NaN) size compares unequal to itself, so it always counts as a change |
| ConversationService.DownloadTarget | services/ConversationService.ts:146-148 | the native target is the cache directory (else the document directory, else "") followed by the URL's last segment, or by `audio_<stamp>.mp3` when that segment is empty |
| ConversationService.DownloadAudio | services/ConversationService.ts:133-164 | on the web the result is the stamped download URL whatever the outcome; on a device it succeeds exactly when the file was saved, and the saved URI is the DownloadTarget path |
| ConversationService.WebDownloadIsStampedUrl | services/ConversationService.ts:139-144 | the web result begins with the resolved URL and ends with the cb stamp |
| Text.LastSegment | services/ConversationService.ts:37 | `split('/').pop()`: a suffix of the input with no '/', preceded by a '/' unless it is the whole input |
| Text.Or | services/ConversationService.ts:147 | `a \|\| b` on strings: a non-empty `a` wins, an empty `a` gives `b`, so the result is empty only when both are |
| Text.LeadingDigits | services/ConversationService.ts:126 | the digit prefix parseInt reads: a prefix of the input, all digits, and as long as possible |
| Text.TrimStart | services/ConversationService.ts:126 | no contract of its own; the white space parseInt skips, used by ParseInt |
| Text.ParseInt | services/ConversationService.ts:126 | no contract of its own; specified by ParseIntNumeral, ParseIntString, ParseIntNegativeNumeral and HeadAudioReadsContentLength |
| Text.Decimal | services/ConversationService.ts:92 | `${n}` for n ≥ 0: at least one character, all digits, and no leading zero unless it is "0" |
| Text.DecimalValue | services/ConversationService.ts:92 | the numeral reads back as its number: the digit value of Decimal(n) is n |
| Text.IntString | components/AudioPlayer.tsx:66 | `${i}` for any integer: Decimal of i when i ≥ 0, and "-" followed by Decimal of -i otherwise |
| Text.ParseIntNumeral | services/ConversationService.ts:126 | parseInt of a numeral followed by a non-digit gives that number |
| Text.ParseIntNegativeNumeral | services/ConversationService.ts:126 | parseInt of "-" and a numeral followed by a non-digit gives minus that number |
| Text.ParseIntString | services/ConversationService.ts:126 | parseInt reads back every integer `${i}` writes, whatever non-digit text follows |
| Text.AppendQuery | services/ConversationService.ts:92 | the URL is kept whole in front, the parameter ends the result, and the separator is '&' exactly when the URL already holds a '?' and '?' otherwise |
| Text.AppendQueryTwice | services/ConversationService.ts:114 | a second parameter is always joined with '&' |
| Text.AppendQueryAfterUrl | services/ConversationService.ts:92 | what follows the URL is exactly the separator and then the parameter |
| AudioPolling.ObservedReadinessIsSnapshot | services/ConversationService.ts:103-106 | on the same probe outcome the readiness check and the snapshot agree, and a failed probe gives a non-ok snapshot of the bare audio URL |
| AudioPolling.Observe | services/ConversationService.ts:186-250 | no contract of its own; what one tick of the closure sees: the elapsed time, the headAudio snapshot, the checkAudioReady answer and the downloadAudio result; specified by ObservedReadinessIsSnapshot |
| AudioPolling.Observations | services/ConversationService.ts:184-269 | no contract of its own; the observations of the ticks, in order, that PollForAudio is proved against |
| AudioPolling.PollingProgress | services/ConversationService.ts:205 | the percentage is elapsed/timeout·100 capped at 95: it is exactly that value whenever that value is below 95, and 95 otherwise; it never leaves 0..95 |
| AudioPolling.FallbackUrl | services/ConversationService.ts:256 | after a failed download the poll resolves with the reference itself when it starts with "http", else with the base URL directly followed by it |
| AudioPolling.FallbackMatchesResolutionForRootedPaths | services/ConversationService.ts:256 | for http and '/'-rooted references the fallback is the ordinarily resolved URL |
| AudioPolling.FallbackDropsConversationPath | services/ConversationService.ts:256 | for a relative reference the fallback differs from resolution: it omits the conversation path and the '/' |
| AudioPolling.Counted | services/ConversationService.ts:233-243 | after a change the counter grows on a matching truthy size and resets to 0 otherwise, the confirmation is set at two repeats and never cleared, and nothing changes before a change |
| AudioPolling.Classify | services/ConversationService.ts:188-263 | no contract of its own; which branch of the closure a tick takes and the next state; specified by StepBeforeTimeout, StepAtTimeout, KindEvents and ProbeTick |
| AudioPolling.Step | services/ConversationService.ts:185-267 | no contract of its own; one run of the closure; specified by PollTick, StepBeforeTimeout, StepAtTimeout, StepMonotone, StepPreservesConsistency and StepEvents |
| AudioPolling.InitialState | services/ConversationService.ts:177-182 | no contract of its own; the initial HEAD snapshot as baseline with no change, count or confirmation; specified by InitialStateConsistent |
| AudioPolling.Run | services/ConversationService.ts:184-270 | a pending run has used every tick, and a settled one at least one; RunStopsAtSettlingTick shows it stops at the first tick that settles |
| AudioPolling.RunStopsAtSettlingTick | services/ConversationService.ts:184-270 | a settled run was still pending one tick earlier and gives the same result when cut at its settling tick: it settles at the first tick that settles, and the later ticks do not matter |
| AudioPolling.PollForAudio | services/ConversationService.ts:166-271 | the mutable-variable loop settles with exactly the outcome and progress reports of Run over the observed ticks, starting from the initial HEAD snapshot as baseline |
| AudioPolling.PollTick | services/ConversationService.ts:185-267 | one run of the closure gives exactly Step's outcome, reports and next state |
| AudioPolling.ProbeTick | services/ConversationService.ts:205-263 | a tick within the budget takes the branch Classify names and reports its events |
| AudioPolling.CountAndFetch | services/ConversationService.ts:233-260 | the counter update is Counted, the download starts exactly when confirmed or past the 8 s grace period, and it resolves with the downloaded or fallback path, reporting 95 then 100 |
| AudioPolling.CountStable | services/ConversationService.ts:233-243 | the loop's counter and confirmation updates are those of Counted |
| AudioPolling.FetchOrFallback | services/ConversationService.ts:248-259 | the resolved path is the downloaded one, or the fallback URL when the download fails |
| AudioPolling.FinalCheck | services/ConversationService.ts:188-203 | once the budget is spent the tick always settles, exactly as Step says |
| AudioPolling.InitialStateConsistent | services/ConversationService.ts:177-182 | the poll starts unchanged, with no count and no confirmation |
| AudioPolling.StepPreservesConsistency | services/ConversationService.ts:224-243 | no count and no confirmation exist before a change has been seen, after any tick |
| AudioPolling.StepMonotone | services/ConversationService.ts:224-243 | a detected change and its baseline are kept, a confirmation is never revoked, and the baseline is replaced only by the first change, with that tick's snapshot |
| AudioPolling.StepBeforeTimeout | services/ConversationService.ts:205-262 | within the budget a tick never rejects; an unreachable snapshot or the first change leaves it pending, and otherwise it resolves exactly when confirmed or past the grace period, with the downloaded or fallback path |
| AudioPolling.StepAtTimeout | services/ConversationService.ts:188-203 | once the budget is spent the tick resolves exactly when the final check is ready and the download succeeds, with the downloaded path, and otherwise rejects with exactly "Audio polling timeout" |
| AudioPolling.KindEvents | services/ConversationService.ts:194-257 | every branch reports polling in 0..95, downloading at 95 and ready at 100, and ready only as its last report when it resolves |
| AudioPolling.StepEvents | services/ConversationService.ts:194-257 | every tick's reports are well formed, and ready is reported only as the last report of a resolving tick |
| AudioPolling.RunPreservesConsistency | services/ConversationService.ts:224-243 | no count or confirmation before a change holds over any number of ticks |
| AudioPolling.RunMonotone | services/ConversationService.ts:224-243 | a detected change, its baseline and a confirmation survive any number of ticks |
| AudioPolling.RunEventsWellReported | services/ConversationService.ts:194-257 | every report of a whole run has its status's percentage, and polling never exceeds 95 |
| AudioPolling.RunReadyOnlyAtResolution | services/ConversationService.ts:194-258 | ready is reported once, as the last report, and exactly when the run resolves |
| AudioPolling.RunRejectsOnlyOnTimeout | services/ConversationService.ts:188-203 | a run rejects only with "Audio polling timeout", and only on a tick at or past the budget |
| AudioPolling.UnreachableTimesOut | services/ConversationService.ts:188-213 | when no probe ever succeeds the poll never resolves: it is pending or rejected with the timeout message |
| AudioPolling.FirstChangeStep | services/ConversationService.ts:224-231 | the first detected change swaps the baseline for the new snapshot, keeps the count, and returns without downloading |
| AudioPolling.StableStep | services/ConversationService.ts:233-247 | after a change, a matching truthy size adds one to the count, and the tick resolves exactly when that confirms or the grace period has passed |
| AudioPolling.TwoStableTicksResolve | services/ConversationService.ts:233-253 | after a change, two ticks with the baseline's size resolve on the second, even inside the grace period |
| AudioPolling.ChangeThenStableResolves | services/ConversationService.ts:213-253 | a change followed by two matching sizes resolves on the third tick |
| AudioPolling.OneStableTickIsNotEnough | services/ConversationService.ts:224-247 | inside the grace period a change and a single further tick never resolve |
| StorageService.Without | services/StorageService.ts:31 | no remaining record has the deleted id and nothing is added |
| StorageService.Prepended | services/StorageService.ts:20 | no contract of its own; specified by PrependedShape, PrependedEviction and PrependedKeepsDuplicates |
| StorageService.PrependedShape | services/StorageService.ts:20 | after a save the new record is first, the length is min(old + 1, 50), and the rest is a prefix of the old list in order |
| StorageService.PrependedEviction | services/StorageService.ts:20 | below the cap nothing is dropped; at the cap exactly the oldest tail beyond 49 records is dropped |
| StorageService.PrependedKeepsDuplicates | services/StorageService.ts:20 | saving does not deduplicate: an older record with the same id stays, and the new one is added on top |
| StorageService.WithoutCounts | services/StorageService.ts:31 | deleting removes every copy of records with the id and keeps every other record as often as it occurred |
| StorageService.WithoutIsSubsequence | services/StorageService.ts:31 | the remaining records keep their original order |
| StorageService.WithoutKeepsOthers | services/StorageService.ts:31 | a record with another id survives deletion |
| StorageService.WithoutAbsent | services/StorageService.ts:31 | deleting an id that is not present leaves the list unchanged |
| StorageService.WithoutIdempotent | services/StorageService.ts:31 | deleting twice is the same as deleting once |
| StorageService.ReadBack | services/StorageService.ts:9-14 | a parsed list reads back as itself; a missing or unreadable value reads as [] |
| StorageService.ConversationStore.GetConversations | services/StorageService.ts:7-15 | the read returns the stored list, or [] when the key is missing or unreadable, and changes nothing |
| StorageService.ConversationStore.SaveConversation | services/StorageService.ts:17-26 | the store now holds the prepended and capped list; it starts with the new record and has min(old + 1, 50) entries |
| StorageService.ConversationStore.DeleteConversation | services/StorageService.ts:28-37 | the store now holds the filtered list; no record has the id, and the rest is the old list in order |
| StorageService.ConversationStore.ClearAllConversations | services/StorageService.ts:39-46 | the key is removed, and a read afterwards gives [] |
| TtsServer.NonSpaceRun | server/main6_5.py:118 | the greedy `\S*` run: it holds no white space and stops at white space or the end |
| TtsServer.MatchAt | server/main6_5.py:118 | a match starting at a position starts with the scheme, has at least one non-space after `//`, and runs to white space or the end |
| TtsServer.MatchAtIffScheme | server/main6_5.py:118 | a position starts a match exactly when "https://" or "http://" begins there and is followed by a non-space character |
| TtsServer.MatchAfter | server/main6_5.py:118 | once the scheme is in place, there is a match exactly when a non-space character follows it |
| TtsServer.SearchFrom | server/main6_5.py:123 | the search reports the leftmost position that starts a match; with no result, no position does |
| TtsServer.SearchUrl | server/main6_5.py:118-125 | no contract of its own; `url_re.search(obj)` and its group(0); specified by SearchUrlHit, SearchUrlMiss, SearchUrlFindsScheme and NoMatchNoSearch |
| TtsServer.SearchUrlHit | server/main6_5.py:122-125 | a hit begins with http:// or https://, holds no white space, occurs in the string and is the leftmost maximal match |
| TtsServer.SearchUrlMiss | server/main6_5.py:123-124 | without a hit no position starts a match, and no scheme anywhere is followed by a non-space character |
| TtsServer.SearchUrlFindsScheme | server/main6_5.py:118-125 | a scheme followed by a non-space character always gives a hit, starting there or earlier |
| TtsServer.HitIsLeftmost | server/main6_5.py:123-124 | the match at the first matching position is a valid match, occurs there, runs to white space or the end, and no earlier position matches |
| TtsServer.NoMatchNoSearch | server/main6_5.py:123 | conversely, when no position starts a match the search has no hit |
| TtsServer.NoSchemeNoUrl | server/main6_5.py:118 | a string without 'h' holds no URL |
| TtsServer.FindInString | server/main6_5.py:122-128 | the string branch: the regex match when there is one, else the whole string when it ends in an audio extension, else nothing |
| TtsServer.FindUrl | server/main6_5.py:119-166 | no contract of its own; find_url_in_obj; specified by FindInString, FirstHitNoneIff, FirstHitIsFirst, DictValuesFirst, KeyHitIsMatch, NumbersHoldNoUrl and FindUrlNonEmpty |
| TtsServer.FirstHit | server/main6_5.py:129-134 | no contract of its own; the loop over a list or tuple; specified by FirstHitNoneIff and FirstHitIsFirst |
| TtsServer.FirstValueHit | server/main6_5.py:135-139 | no contract of its own; the loop over a dict's values; specified by DictValuesFirst |
| TtsServer.FirstKeyHit | server/main6_5.py:140-144 | no contract of its own; the loop over a dict's keys; specified by KeyHitIsMatch |
| TtsServer.PyStrOf | server/main6_5.py:162-166 | no contract of its own; `str()` of a number or a bool; specified by NumbersHoldNoUrl |
| TtsServer.NumbersHoldNoUrl | server/main6_5.py:162-166 | numbers and booleans printed with str() never yield a URL |
| TtsServer.FindUrlNonEmpty | server/main6_5.py:119-166 | every result of the search is non-empty, so its truthiness test is just "found" |
| TtsServer.FirstHitNoneIff | server/main6_5.py:129-134 | a list or tuple has no result exactly when none of its items has one |
| TtsServer.FirstHitIsFirst | server/main6_5.py:129-134 | when a list or tuple has a result, it is that of the first item, in order, that has one |
| TtsServer.DictValuesFirst | server/main6_5.py:135-145 | a dict whose values yield a result returns that result before any key is looked at; otherwise the keys are searched |
| TtsServer.KeyHitIsMatch | server/main6_5.py:140-144 | a key yields only a regex match found in a string key, never the audio-extension fallback |
| TtsServer.ExtractAudioUrl | server/main6_5.py:168-172 | the extractor fails with "Unexpected TTS output format" exactly when the search finds nothing, and otherwise returns the found, non-empty URL |
| TtsServer.LanguageParam | server/main6_5.py:65 | no language is passed exactly when `lang` is missing or "auto"; otherwise `lang` itself |
| TtsServer.ReplyAudioFor | server/main6_5.py:280-283 | the reply URL is "/static/tts_outputs/<id>.mp3", that is '/' followed by the output path |
| TtsServer.ReplyAudioSameFile | server/main6_5.py:280-283 | for an id without '/' the reply URL and the output path end in the same file name |
| ReplyAudioFlow.ReplyUrlResolvesAgainstBase | server/main6_5.py:283 | the client resolves every reply URL to the base URL followed by the static path, whatever its conversation path |
| ReplyAudioFlow.ReplyFallbackIsResolvedUrl | services/ConversationService.ts:254-259 | for a reply URL the poll's fallback is the ordinarily resolved URL |
| Recorder.PermissionFrom | hooks/useRecorder.ts:28-38 | always granted on the web; on a device granted exactly when the status is "granted", and denied when the request throws |
| Recorder.AudioRecorder.constructor | hooks/useRecorder.ts:7-15 | not recording, duration 0, no URI, no permission, no recording, no timer and no running interval |
| Recorder.AudioRecorder.CheckPermissions | hooks/useRecorder.ts:26-40 | the permission flag becomes PermissionFrom of the answer and nothing else changes |
| Recorder.AudioRecorder.StartRecording | hooks/useRecorder.ts:42-96 | a created recording is held, and the hook is recording with duration 0 and a new interval named by the timer; permission and URI are unchanged; a failed creation changes nothing |
| Recorder.AudioRecorder.Tick | hooks/useRecorder.ts:88-90 | each firing adds exactly one second and changes nothing else |
| Recorder.AudioRecorder.StopRecording | hooks/useRecorder.ts:98-132 | with no recording: undefined and no change; otherwise the timer's interval is cleared, and a successful stop releases the recording, clears isRecording, and stores and returns the recorder's URI; a failed stop rethrows with the recording still held |
| Recorder.AudioRecorder.Reset | hooks/useRecorder.ts:134-136 | duration 0 and no URI; recording and permission untouched |
| Recorder.AudioRecorder.Unmount | hooks/useRecorder.ts:17-24 | the interval named by the timer ref is cleared; nothing else changes |
| Recorder.DoubleStartLeavesIntervalRunning | hooks/useRecorder.ts:84-105 | two starts and a stop leave the first interval running, because the second start overwrote the timer ref |
| Recorder.RecordFiveSeconds | hooks/useRecorder.ts:84-127 | a start, five ticks and a stop give duration 5, the recorder's URI, and no running interval |
| AudioPlayer.JsRem | components/AudioPlayer.tsx:65 | JavaScript `%`: the Euclidean remainder for a non-negative dividend; for a negative one, 0 when the divisor divides it and otherwise the Euclidean remainder minus the divisor, so it lies in (-divisor, 0] |
| AudioPlayer.PadStart2 | components/AudioPlayer.tsx:66 | `padStart(2, '0')`: strings of length two or more are unchanged, shorter ones are left-padded with '0' to length 2 and end with the original |
| AudioPlayer.FormatTime | components/AudioPlayer.tsx:62-67 | no contract of its own; specified by FormatTimeShape, FormatTimeUnderASecond, FormatTimeReadsBack and FormatTimeNegative |
| AudioPlayer.MinutesAndSeconds | components/AudioPlayer.tsx:63-65 | for ms ≥ 0 minutes·60 + seconds is the whole number of seconds, and the seconds lie in 0..59 |
| AudioPlayer.FormatTimeShape | components/AudioPlayer.tsx:62-67 | for ms ≥ 0 the clock is the minutes numeral, ':', then exactly two digits whose value is the seconds in 0..59 |
| AudioPlayer.FormatTimeUnderASecond | components/AudioPlayer.tsx:62-67 | anything under one second shows as "0:00" |
| AudioPlayer.FormatTimeReadsBack | components/AudioPlayer.tsx:62-67 | parseInt of the clock gives the minutes, and parseInt of its last two characters gives the seconds |
| AudioPlayer.ClockReadsBack | components/AudioPlayer.tsx:62-67 | any "m:ss" clock with seconds below 60 reads back with parseInt as its minutes, and its last two characters as its seconds |
| AudioPlayer.FormatTimeNegative | components/AudioPlayer.tsx:62-67 | a negative time shows the signed remainder: -1500 ms renders as "-1:-2" |
| AudioPlayer.EffectiveUri | components/AudioPlayer.tsx:23-31 | no URI without an audio URI; otherwise the URI + ('&' if it holds '?', else '?') + "v=" + stamp |
| AudioPlayer.EffectiveUriKeepsUri | components/AudioPlayer.tsx:28-30 | the stamped URI keeps the original whole in front and ends with the stamp parameter |
| AudioPlayer.ActivePosition | components/AudioPlayer.tsx:69 | the seek position only while seeking with one set, the player position otherwise |
| AudioPlayer.ProgressPct | components/AudioPlayer.tsx:70 | 0 when the duration is not positive; otherwise the percentage times the duration is 100 times the active position |
| AudioPlayer.ProgressPctInRange | components/AudioPlayer.tsx:70 | a position inside the track fills 0..100 percent of the bar |
| AudioPlayer.SeekPosition | components/AudioPlayer.tsx:93-101 | no seek without a measured bar or a positive duration, NaN on a zero-width bar, 0 on a negative width; otherwise exactly clamp(touch, 0, width)/width·duration, which lies in [0, duration] |
| AudioPlayer.Clamp | components/AudioPlayer.tsx:97 | no contract of its own; `Math.max(lo, Math.min(hi, x))`; specified by ClampBounds |
| AudioPlayer.ClampBounds | components/AudioPlayer.tsx:97 | the touch offset is clamped into [0, width], and an offset already inside is unchanged |
| AudioPlayer.SeekEnds | components/AudioPlayer.tsx:96-99 | touching at or left of the bar seeks to 0, at or right of its end to the full duration |

## Left out

- Network, file and storage I/O are not modelled. This covers `axios.post` and `axios.head`, `FileSystem.downloadAsync`, AsyncStorage, the FastAPI app and its clients, and the expo-av calls. Their results are parameters.
- Timers and randomness are not modelled either. For `setTimeout`, `setInterval`, `Date.now()` and `Math.random()`, elapsed times, clock stamps and random suffixes are parameters, and an interval firing is the method `Tick`.
- The poll interval is left out, and so is the effective timeout's `parseInt` from configuration. `PollSetup.timeoutMs` is the effective timeout already read, which in the source overrides the caller's argument.
- The dead variable `lastMeta` and the error-swallowing `catch` around the poll body are left out. The modelled service functions never throw, so that `catch` is unreachable.
- Numbers are exact rather than IEEE doubles:
  - progress ratios are exact reals;
  - times and sizes are integers;
  - fractional milliseconds and `Math.round` on binary fractions are not modelled.
- White space is approximated. `\s` and JavaScript's leading-white-space in `parseInt` are modelled on the common Unicode space characters, not the full Unicode tables.
- `TtsServer.FindUrl` leaves some of the extractor unmodelled:
  - the reflective branch for arbitrary objects (`hasattr`, `to_dict`, `dict`) is not modelled;
  - Python sets, whose iteration order is unspecified, are not modelled;
  - only `str()` of numbers and booleans reaches the last-resort search.
- `AudioPolling.Observe`: one tick carries a single probe outcome, shared by `headAudio` and by the timeout branch's `checkAudioReady`. In the source these are separate requests, but at most one of them is made per tick.
- `AudioPolling.ProbeTick` takes the HEAD snapshot before it computes the polling percentage, while the source does the reverse. The percentage is a pure function of the elapsed time, so the order is not observable.
- Storage write failures are not modelled. Neither is a stored JSON value that is not an array: an unparsable value reads as `[]`, but the value is modelled as either absent, unreadable, or a list.
- Recorder: the audio-mode calls before and after recording are not modelled, nor are React's batching and rendering of `setState`.
- ConversationService.DownloadTarget: the fallback file name `audio_<stamp>.mp3` uses the same stamp as the download URL. In the source, line 146 reads `Date.now()` a second time, after line 139, so the two stamps can differ.
- AudioPolling.Observe: one `Tick.stamp` stands for every `Date.now()` of a tick, in the HEAD probe, in checkAudioReady and in the download. In the source these are separate clock readings. They only shape request URLs, so no outcome or progress report depends on the difference.
- `useAudioPlayer`, the other UI components, the theme, the PanResponder and animation code, and the CLI script are outside this model.

