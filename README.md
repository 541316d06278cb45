# Orpheon front end — a verified model of its client-side logic

Orpheon is a web application for mastering music. A user uploads a vocal
track, an instrument track and a YouTube reference link. The server then
masters the mix. The user listens to the result in a waveform player,
adjusts three knobs (AI mode, loudness and stereo width) and saves it to
their library. This project models the parts of the Next.js front end that
compute something:

- `audio_player.dfy` (`AudioPlayer`): the waveform player.
  - The envelope extractor: 200 bars, each the clamped RMS of one block of samples, and a random fallback when loading fails.
  - The player's state as a class: play/pause, current time, duration, click and drag seeking, and media-element events.
  - The progress ratio and the "active bar" rule.
  - The `MM:SS` time label.
- `pagination.dfy` (`Pagination`): the page-number window (`getPageNumbers`, at most five entries with `...` markers) and the Prev/Next buttons.
- `mastering_knobs.dfy` (`MasteringKnobs`): the three knobs.
  - Clamping, the AI knob's mode, and the stereo-width and loudness readouts.
  - A `KnobPanel` class for wheel steps, drag start, drag moves dispatched to the first dragged knob, release, and the form the Save button sends.
- `reference_url.dfy` (`ReferenceUrl`): the upload form.
  - The `reference_url` rule: at least two characters, plus the YouTube-link regular expression.
  - The regular expression is written twice: as a grammar (some choice of its optional groups fits) and as a left-to-right scan. A lemma proves the two agree on every string.
  - The zod messages, and the order in which `onSubmit` appends the form parts.
- `protected_routes.dfy` (`ProtectedRoutes`): the middleware gate. A path under a protected prefix with no session token is redirected to `/?signin=true` with a `callbackUrl`. Every other request is handed on.
- `library_service.dfy` (`LibraryService`): the library request built by `useGetLibrary`.
  - The query parameters, appended in place to a `SearchParams` object, and the URL.
  - The react-query cache key.
  - A reader (`ServerView`) that parses the URL back, so the URL can be checked against the parameters it was built from.
- Shared helpers:
  - `wrappers.dfy` (`Option`);
  - `numbers.dfy`: decimal rendering of integers (`String(n)` for magnitudes below 10^21) and its parser;
  - `form_data.dfy`: `FormData` as an ordered list of parts.

Times, sample values, angles and rotations are `real`. Page numbers and
limits are `int`. Strings are `seq<char>`.

## Model

| member | source | states |
|---|---|---|
| `AudioPlayer.BlockSize` | src/features/mastering/components/audio-player.tsx:43-44 | The block size is at least 1. It is exactly 1 below 200 samples. Otherwise it is the largest `b` with `200*b <= samples`. |
| `AudioPlayer.Height` | src/features/mastering/components/audio-player.tsx:55 | A bar height always lies in [30, 100]. It is `rms*500` inside that band, 100 above it and 30 below it. |
| `AudioPlayer.ComputeWaveform` | src/features/mastering/components/audio-player.tsx:42-57 | The nested block loop over the channel data returns exactly the envelope `Waveform` of the samples. That means 200 bars, and every bar lies in [30, 100]. |
| `AudioPlayer.FallbackWaveform` | src/features/mastering/components/audio-player.tsx:66 | For 200 random draws in [0, 1), the fallback has 200 bars, each in [30, 130). |
| `AudioPlayer.MeanSquare` | src/features/mastering/components/audio-player.tsx:48-54 | A block's mean square, its sum of squares over the block size, is never negative. |
| `AudioPlayer.RmsArgument` | src/features/mastering/components/audio-player.tsx:54 | For a non-negative mean square, the square root is always taken of a positive number. The value is replaced exactly when the mean square is 0, the one falsy number it can be. |
| `AudioPlayer.Waveform` | src/features/mastering/components/audio-player.tsx:42-57 | Every sample count, 0 included, yields an envelope of exactly 200 bars, each in [30, 100]. |
| `AudioPlayer.BlocksAreAdjacent` | src/features/mastering/components/audio-player.tsx:48-51 | Block `i` reads `[i*b, min((i+1)*b, n))`. Each block ends where the next begins. |
| `AudioPlayer.BlocksAreOrdered` | src/features/mastering/components/audio-player.tsx:47-51 | Blocks are disjoint and ascending: an earlier block ends no later than a later one starts. |
| `AudioPlayer.BarReadsOnlyItsBlock` | src/features/mastering/components/audio-player.tsx:48-54 | A bar depends only on the samples inside its own block. |
| `AudioPlayer.TailIsNeverRead` | src/features/mastering/components/audio-player.tsx:44-51 | Samples at index `200*blockSize` and beyond never change the envelope. |
| `AudioPlayer.SilentBlockIsFullHeight` | src/features/mastering/components/audio-player.tsx:54-55 | A block whose samples are all zero gets height 100. So does a block wholly past the end. The reason is that the falsy zero mean square is replaced by 1 before the square root. |
| `AudioPlayer.ShortInputTail` | src/features/mastering/components/audio-player.tsx:44-55 | With `n < 200` samples, every bar from index `n` on lies past the end and has height 100. |
| `AudioPlayer.Progress` | src/features/mastering/components/audio-player.tsx:164 | Progress is 0 while the duration is not positive. Otherwise `progress*duration == currentTime`, and progress lies in [0, 1] when the time lies in [0, duration]. |
| `AudioPlayer.IsActive` | src/features/mastering/components/audio-player.tsx:200 | With progress at most 1, only bars inside the envelope are active. At progress 1 or beyond, every bar is active. At progress 0 or below, none is. |
| `AudioPlayer.NoActiveBarWithoutDuration` | src/features/mastering/components/audio-player.tsx:200 | With duration 0 the progress is 0, so no bar is active, whatever the current time. |
| `AudioPlayer.ActiveBarsFormGrowingPrefix` | src/features/mastering/components/audio-player.tsx:200 | If a bar is active, every earlier bar is active at any later time. So the active bars are a prefix that only grows as playback advances. |
| `AudioPlayer.AllBarsActiveAtEnd` | src/features/mastering/components/audio-player.tsx:200 | When the current time equals the duration, every bar is active. |
| `AudioPlayer.ClickTime` | src/features/mastering/components/audio-player.tsx:91-94 | A click inside the waveform seeks within [0, duration]. The left edge seeks to 0 and the right edge to the duration. |
| `AudioPlayer.Clamp01` | src/features/mastering/components/audio-player.tsx:105 | The percentage lies in [0, 1], and values already in range are unchanged. |
| `AudioPlayer.DragTime` | src/features/mastering/components/audio-player.tsx:103-106 | A drag always seeks within [0, duration]. Left of the waveform it seeks to 0; right of it, to the duration. |
| `AudioPlayer.DragTimeMonotone` | src/features/mastering/components/audio-player.tsx:105-106 | Dragging further right never seeks to an earlier time. |
| `AudioPlayer.PadStart2` | src/features/mastering/components/audio-player.tsx:85 | Padding yields at least two characters, leaves longer strings unchanged, and keeps a string of digits all digits. |
| `AudioPlayer.JsRemainder` | src/features/mastering/components/audio-player.tsx:84 | The remainder takes the sign of the dividend and is smaller than the modulus in magnitude. For a non-negative dividend it is the floored remainder `x - m*floor(x/m)`. |
| `AudioPlayer.RemainderBounds` | src/features/mastering/components/audio-player.tsx:84 | For a non-negative dividend the quotient truncated toward zero equals the floored quotient. The remainder it leaves lies in [0, m) for a non-negative dividend and in (-m, 0] for a negative one. |
| `AudioPlayer.FormatTime` | src/features/mastering/components/audio-player.tsx:82-86 | For a non-negative time the label is at least five characters: all-digit minutes, a colon, then exactly two digits of seconds. |
| `AudioPlayer.TimeFields` | src/features/mastering/components/audio-player.tsx:82-84 | For a non-negative time, the seconds field lies in 0..59, the minutes are non-negative, and `mins*60 + secs` equals the whole seconds. |
| `AudioPlayer.FormatTimeRoundTrip` | src/features/mastering/components/audio-player.tsx:82-86 | Below 100 minutes the label is five characters `DD:DD`. Reading it back gives the whole seconds of the time. |
| `AudioPlayer.PaddedValue` | src/features/mastering/components/audio-player.tsx:85 | A number below 100, padded to two digits, reads back as itself. |
| `AudioPlayer.Player.constructor` | src/features/mastering/components/audio-player.tsx:13-19 | Initial state: not playing, time 0, duration 0, no bars, loading, no error, not dragging. |
| `AudioPlayer.Player.LoadWaveform` | src/features/mastering/components/audio-player.tsx:25-69 | After a successful decode the bars are the envelope of the channel data and the duration is the buffer's. After any failure the error is "Failed to load audio file", the bars are the random fallback and the duration is kept. Either way loading ends and the play state and time are untouched. |
| `AudioPlayer.Player.TogglePlayPause` | src/features/mastering/components/audio-player.tsx:71-80 | With an audio element it issues Pause if playing and Play otherwise, and negates `isPlaying`. Without one it does nothing. |
| `AudioPlayer.Player.ClickSeek` | src/features/mastering/components/audio-player.tsx:88-98 | With no audio element, or duration 0, nothing changes. Otherwise the element time and the state time both become `ClickTime`. |
| `AudioPlayer.Player.StartDrag` | src/features/mastering/components/audio-player.tsx:194-195 | Pressing the playhead starts a drag. |
| `AudioPlayer.Player.DragMove` | src/features/mastering/components/audio-player.tsx:100-110 | A move while dragging, with the waveform shown, an audio element and a nonzero duration, seeks both times to `DragTime`, within [0, duration]. Any other move changes nothing. |
| `AudioPlayer.Player.StopDrag` | src/features/mastering/components/audio-player.tsx:149-154 | Mouse-up or touch-end ends the drag. |
| `AudioPlayer.Player.OnTimeUpdate` | src/features/mastering/components/audio-player.tsx:122 | `timeupdate` reports the position the element's playback clock has reached. The element's position and the state's `currentTime` both become that position, and nothing else changes. |
| `AudioPlayer.Player.OnLoadedMetadata` | src/features/mastering/components/audio-player.tsx:123-127 | The duration changes only when the reported duration is truthy: a number that is neither 0 nor NaN. |
| `AudioPlayer.Player.OnPlaybackEvent` | src/features/mastering/components/audio-player.tsx:131-133 | `play` sets the playing flag; `pause` and `ended` clear it. |
| `Pagination.AllPages` | src/components/shared/pagination.tsx:16-19 | The list is `1..totalPages` in order, and empty when `totalPages <= 0`. |
| `Pagination.PageNumbers` | src/components/shared/pagination.tsx:13-31 | At most five entries. Up to five pages lists them all. More than five pages gives exactly five entries including a `...`. The first entry is 1 and the last is `totalPages`. The current page is always shown, and every number is a real page. |
| `Pagination.PageNumbersIncreasing` | src/components/shared/pagination.tsx:16-28 | The numeric entries are strictly increasing. |
| `Pagination.PageNumbersGapsMarked` | src/components/shared/pagination.tsx:16-28 | Adjacent numbers are consecutive pages. Every `...` stands between two numbers that skip at least one page. |
| `Pagination.GetPageNumbers` | src/components/shared/pagination.tsx:13-31 | The push loop and the three fixed shapes build exactly the window `PageNumbers`. |
| `Pagination.PrevButton` | src/components/shared/pagination.tsx:40-41 | Prev is disabled iff on page 1. It requests the page before the current one. |
| `Pagination.NextButton` | src/components/shared/pagination.tsx:74-75 | Next is disabled iff on the last page. It requests the page after the current one. |
| `Pagination.NavigationStaysInRange` | src/components/shared/pagination.tsx:37-80 | From a page in range, an enabled button always requests a page in range. |
| `Pagination.NextEnabledWithoutPages` | src/components/shared/pagination.tsx:74-75 | With zero pages the window is empty, yet Next stays enabled on page 1 and requests page 2. |
| `MasteringKnobs.Clamp` | src/features/mastering/containers/mastering-audio-container.tsx:42-44 | When `lo <= hi` the result lies in [lo, hi]. It is the value itself when in range, and the nearer bound otherwise. |
| `MasteringKnobs.GetKnobMode` | src/features/mastering/containers/mastering-audio-container.tsx:52-56 | Dynamic iff the rotation is below -40, Standard iff above 40, Smooth iff within [-40, 40]. |
| `MasteringKnobs.ModeName` | src/features/mastering/containers/mastering-audio-container.tsx:52-56 | Each mode name is a capitalised word of at least six letters. |
| `MasteringKnobs.ToLowerAscii` | src/features/mastering/containers/mastering-audio-container.tsx:196 | `toLowerCase` keeps the length, leaves no capital letter, and changes no other character. |
| `MasteringKnobs.SaveType` | src/features/mastering/containers/mastering-audio-container.tsx:196 | The saved type is "dynamic", "standard" or "smooth", each exactly on its mode's rotation range. |
| `MasteringKnobs.SaveTypeIsAudioType` | src/features/mastering/containers/mastering-audio-container.tsx:196 | Every save type is one of the three lower-case audio types. |
| `MasteringKnobs.WheelDelta` | src/features/mastering/containers/mastering-audio-container.tsx:76 | A wheel event steps +5 iff `deltaY < 0`, and -5 otherwise. |
| `MasteringKnobs.WheelRotation` | src/features/mastering/containers/mastering-audio-container.tsx:75-77 | After a wheel step the rotation stays within [-limit, limit] and moves at most 5 degrees, in the scroll direction. |
| `MasteringKnobs.DragRotation` | src/features/mastering/containers/mastering-audio-container.tsx:142-155 | After a drag step every knob lies in [-90, 90]. Inside that range the rotation follows the cursor exactly. |
| `MasteringKnobs.DragSnapsWheelOverrun` | src/features/mastering/containers/mastering-audio-container.tsx:146-147 | Take an AI rotation the wheel pushed above 90; the wheel allows up to 120. A first drag move that does not turn the knob back below 90 snaps it to exactly 90. A move that does turn it lower lands in [-90, 90). |
| `MasteringKnobs.JsRound` | src/features/mastering/containers/mastering-audio-container.tsx:66 | `Math.round` returns the integer within half a unit of its argument, rounding halves up. |
| `MasteringKnobs.StereoWidthValue` | src/features/mastering/containers/mastering-audio-container.tsx:64-67 | The width is the rounded `rotation/90*30`, and lies in [-30, 30] for rotations in [-90, 90]. |
| `MasteringKnobs.StereoWidthEndpoints` | src/features/mastering/containers/mastering-audio-container.tsx:64-67 | Rotations 0, 90 and -90 map to widths 0, 30 and -30. |
| `MasteringKnobs.StereoWidthMonotone` | src/features/mastering/containers/mastering-audio-container.tsx:66 | Turning the knob further never lowers the width. |
| `MasteringKnobs.LoudnessValue` | src/features/mastering/containers/mastering-audio-container.tsx:69-72 | Loudness is proportional to rotation, 20 dB per 90 degrees, and lies in [-20, 20] for rotations in [-90, 90]. |
| `MasteringKnobs.DragTarget` | src/features/mastering/containers/mastering-audio-container.tsx:146-152 | A move turns the first dragged knob in the order AI, loudness, width, or no knob if none is dragged. |
| `MasteringKnobs.KnobPanel.constructor` | src/features/mastering/containers/mastering-audio-container.tsx:24-33 | All rotations start at 0, with no knob dragged and last angle 0. |
| `MasteringKnobs.KnobPanel.AiWheel` | src/features/mastering/containers/mastering-audio-container.tsx:75-77 | The AI knob takes one wheel step within [-120, 120]. |
| `MasteringKnobs.KnobPanel.LoudnessWheel` | src/features/mastering/containers/mastering-audio-container.tsx:95-97 | The loudness knob takes one wheel step within [-90, 90]. |
| `MasteringKnobs.KnobPanel.StereoWidthWheel` | src/features/mastering/containers/mastering-audio-container.tsx:115-117 | The stereo-width knob takes one wheel step within [-90, 90]. |
| `MasteringKnobs.KnobPanel.StartDrag` | src/features/mastering/containers/mastering-audio-container.tsx:79-132 | A press raises the pressed knob's drag flag and keeps the others. It records the cursor angle. |
| `MasteringKnobs.KnobPanel.Move` | src/features/mastering/containers/mastering-audio-container.tsx:142-171 | Only the dispatched knob turns, by the change of angle, clamped to [-90, 90]. The other knobs keep their rotations. `lastAngle` is updated on every move. |
| `MasteringKnobs.KnobPanel.Release` | src/features/mastering/containers/mastering-audio-container.tsx:136-140 | Mouse-up and touch-end clear all three drag flags. |
| `MasteringKnobs.KnobPanel.SaveForm` | src/features/mastering/containers/mastering-audio-container.tsx:195-198 | The save form has a single `type` part holding the AI knob's save type. |
| `Forms.FormData.constructor` | src/features/mastering/containers/mastering-input-container.tsx:64 | A new form has no parts. |
| `Forms.FormData.Append` | src/features/mastering/containers/mastering-input-container.tsx:65-67 | `append` adds one part at the end and keeps the earlier ones. |
| `ReferenceUrl.RegexMatches` | src/features/mastering/containers/mastering-input-container.tsx:41 | The grammar reading of the expression: some choice of scheme, `www.` and host, followed by eleven id characters and an optional `&` tail. Every match is at least 20 characters long. |
| `ReferenceUrl.IsYoutubeLink` | src/features/mastering/containers/mastering-input-container.tsx:41 | The left-to-right reading of the expression. Every accepted link is at least 20 characters long, so the two-character minimum never decides for a link. |
| `ReferenceUrl.PrefixStripped` | src/features/mastering/containers/mastering-input-container.tsx:41 | Scanning from the left strips exactly the scheme, `www.` and host prefix of each of the twelve regex alternatives. |
| `ReferenceUrl.LinkMatchesRegex` | src/features/mastering/containers/mastering-input-container.tsx:41 | Every string the scan accepts matches the regular expression. |
| `ReferenceUrl.RegexMatchIsLink` | src/features/mastering/containers/mastering-input-container.tsx:41 | Every string the regular expression matches is accepted by the scan. |
| `ReferenceUrl.YoutubeLinkMatchesRegex` | src/features/mastering/containers/mastering-input-container.tsx:41 | The scan and the regular expression agree on every string. |
| `ReferenceUrl.TenCharIdRejected` | src/features/mastering/containers/mastering-input-container.tsx:41 | A ten-character id is rejected, with or without a `&` tail. |
| `ReferenceUrl.LongIdRejected` | src/features/mastering/containers/mastering-input-container.tsx:41 | Twelve id characters are rejected, whatever follows. |
| `ReferenceUrl.WatchLinkAccepted` | src/features/mastering/containers/mastering-input-container.tsx:41 | A full `https://www.youtube.com/watch?v=` link is accepted. |
| `ReferenceUrl.ShortLinkAccepted` | src/features/mastering/containers/mastering-input-container.tsx:41 | A `youtu.be/` link with an `&t=42` tail is accepted. |
| `ReferenceUrl.MobileHostRejected` | src/features/mastering/containers/mastering-input-container.tsx:41 | `m.youtube.com/watch?v=...` is rejected after any scheme, whatever follows it. |
| `ReferenceUrl.ShortsPathRejected` | src/features/mastering/containers/mastering-input-container.tsx:41 | `youtube.com/shorts/...` is rejected with any scheme, with or without `www.`, whatever follows it. |
| `ReferenceUrl.OtherPathRejected` | src/features/mastering/containers/mastering-input-container.tsx:41 | After `youtube.com/`, any path that does not start with `w` is rejected, so only `watch?v=` can match. |
| `ReferenceUrl.ReferenceUrlIssues` | src/features/mastering/containers/mastering-input-container.tsx:37-43 | There are no issues iff the value is a YouTube link. Below two UTF-16 code units zod reports "required" and then "invalid link". Otherwise a non-link reports only "invalid link". |
| `ReferenceUrl.FieldMessage` | src/features/mastering/containers/mastering-input-container.tsx:37-43 | The field shows no message iff the link is valid. Otherwise it shows the first issue: "required" below two UTF-16 code units, "invalid link" otherwise. |
| `ReferenceUrl.Utf16Length` | src/features/mastering/containers/mastering-input-container.tsx:39 | The length `min(2)` compares is JavaScript's: between one and two units per character, and exactly the character count for text without characters above U+FFFF. |
| `ReferenceUrl.SingleCharacterMessage` | src/features/mastering/containers/mastering-input-container.tsx:39-41 | A single character above U+FFFF, such as an emoji, passes the minimum and is reported only as an invalid link. A single character up to U+FFFF gets both issues. |
| `ReferenceUrl.BuildUploadForm` | src/features/mastering/containers/mastering-input-container.tsx:63-67 | A valid submission sends exactly three parts, in the order voice_file, instrument_file, reference_url. |
| `ProtectedRoutes.AnyPrefix` | src/middlewares/protected-routes.ts:17 | The scan finds a match iff some listed prefix is a prefix of the path. |
| `ProtectedRoutes.Gate` | src/middlewares/protected-routes.ts:14-30 | The token is read iff the path is protected. The gate redirects iff the path is protected and there is no token. A redirect goes to `/?signin=true` carrying the request URL as callback. |
| `ProtectedRoutes.EmptyListNeverRedirects` | src/middlewares/protected-routes.ts:12-17 | With the default empty list the gate never redirects and never reads the token. |
| `ProtectedRoutes.TokenHolderPasses` | src/middlewares/protected-routes.ts:22-29 | A caller with a token is always passed on. |
| `ProtectedRoutes.RawPrefixProtects` | src/middlewares/protected-routes.ts:17 | Any extension of a listed prefix is protected. |
| `ProtectedRoutes.MasteringLookalikeIsProtected` | src/middleware.ts:8-11 | With the application's list, `/masteringX` is redirected even though it is not under `/mastering/`. |
| `ProtectedRoutes.OrderIndependent` | src/middlewares/protected-routes.ts:17 | Lists with the same members give the same decision, whatever their order or repetitions. |
| `ProtectedRoutes.EmptyPrefixProtectsAll` | src/middlewares/protected-routes.ts:17 | An empty prefix in the list protects every path. |
| `ProtectedRoutes.AppPrefixesProtect` | src/middleware.ts:8-11 | With the application's list, a path is protected iff it starts with `/mastering` or `/library`. |
| `ProtectedRoutes.SignInTargetNotProtected` | src/middleware.ts:8-11 | The redirect target's path `/` is not protected, so the redirect cannot loop. |
| `LibraryService.Sent` | src/features/library/services/use-get-library.ts:6-7 | A field reaches the query iff it is truthy: present and nonzero. |
| `LibraryService.SearchParams.constructor` | src/features/library/services/use-get-library.ts:5 | A new parameter list is empty. |
| `LibraryService.SearchParams.Append` | src/features/library/services/use-get-library.ts:6-7 | `append` adds one pair at the end and keeps the earlier ones. |
| `LibraryService.Serialize` | src/features/library/services/use-get-library.ts:9 | `toString` is empty exactly for an empty parameter list. |
| `LibraryService.AppendedParams` | src/features/library/services/use-get-library.ts:5-7 | There are at most two pairs, and none iff neither page nor limit is truthy. |
| `LibraryService.LibraryUrl` | src/features/library/services/use-get-library.ts:9-10 | The URL always starts with `/audio-processing/library`. It is exactly that path iff neither page nor limit is truthy, and otherwise a `?` follows the path. |
| `LibraryService.QueryKey` | src/features/library/services/use-get-library.ts:13 | The key is `library` followed by a string that reads back as the page, or as 1 when the page is missing. |
| `LibraryService.UseGetLibrary` | src/features/library/services/use-get-library.ts:4-16 | The hook's in-place appends and string composition yield exactly `LibraryUrl` and `QueryKey`. |
| `LibraryService.UrlRoundTrip` | src/features/library/services/use-get-library.ts:5-10 | Parsing the URL back yields exactly the truthy page and limit. Nothing is lost and nothing is added. |
| `LibraryService.BareUrlWithoutParams` | src/features/library/services/use-get-library.ts:9-10 | With nothing to send the URL is exactly `/audio-processing/library`, with no `?`. |
| `LibraryService.QueryAfterQuestionMark` | src/features/library/services/use-get-library.ts:10 | Otherwise the URL is the path, `?` and a non-empty query string. |
| `LibraryService.PageBeforeLimit` | src/features/library/services/use-get-library.ts:6-7 | When both are sent, `page` precedes `limit`. |
| `LibraryService.KeyIgnoresLimit` | src/features/library/services/use-get-library.ts:6-13 | The key is the same for any limit, while different sent limits give different URLs. |
| `LibraryService.PageZero` | src/features/library/services/use-get-library.ts:6-13 | Page 0 is keyed `"0"` but sends no page. Its URL is the one a missing page produces, and that one is keyed `"1"`. |
| `LibraryService.KeyIdentifiesPage` | src/features/library/services/use-get-library.ts:13 | Two keys are equal iff they stand for the same page, a missing page counting as 1. |
| `Numbers.IntToStringRoundTrip` | src/features/library/services/use-get-library.ts:13 | The decimal rendering `String(n)` parses back to the integer it renders. |
| `Numbers.IntToStringInjective` | src/features/library/services/use-get-library.ts:13 | Different integers render differently. |

## Left out

- The decoding pipeline (`fetch`, `arrayBuffer`, `decodeAudioData`) and the `AudioContext` are not modelled. Their outcome is an input to `LoadWaveform`: decoded channel data and duration, a failed fetch (including a non-OK response), or a failed decode.
- `Math.sqrt` is a parameter of the envelope functions. The properties that need its value at 1 assume `sqrt(1) == 1`.
- `Math.random` is not modelled. The 200 fallback draws are an input, each in [0, 1).
- IEEE-754 floating point is not modelled. Samples, times, rotations and ratios are exact reals: the `Float32Array` samples, the rounding of `sum / blockSize`, and infinite or NaN times. The media element's NaN duration is modelled as a separate case of `MediaDuration`.
- AudioPlayer.ClickTime, AudioPlayer.DragTime, AudioPlayer.Player.ClickSeek and AudioPlayer.Player.DragMove require a positive element width. A zero-width element would divide by zero in the component.
- AudioPlayer.Player.LoadWaveform models one load that has settled. The component starts a load whenever `url` changes and is non-empty. Two overlapping loads may finish in either order, and the model does not capture that interleaving.
- The media element's playback clock is an input. AudioPlayer.Player.OnTimeUpdate takes the position the element reports. How fast that position advances while the track plays is not modelled.
- AudioPlayer.Player.TogglePlayPause records the command it issues. The promise that `play()` returns is not modelled.
- Registering and removing event listeners is not modelled. The cleanup at audio-player.tsx:138-140 passes fresh arrow functions to `removeEventListener` and so detaches nothing.
- The rendering is not modelled: CSS, the loading and error panes, and the `toFixed(1)` formatting of the loudness readout.
- The cursor angle is an input to the knob methods. Centre computation and `Math.atan2` are not modelled.
- The loudness and stereo-width values are passed to the player as props that `AudioPlayerProps` does not declare, and the player ignores them. No audio processing graph (equaliser, gain, panner) exists in the player, so none is modelled.
- The equaliser, denoise and autotune sliders are not modelled. Neither is the "AI-Assisted"/"Manual" toggle. These only hold UI state.
- The HTTP calls (`api.put`, the upload mutation, react-query), toasts and navigation are not modelled. Neither are the zod `File` refinements for the two audio files. `BuildUploadForm` takes the files as opaque handles and requires a valid `reference_url`.
- ProtectedRoutes.Gate records the request URL as the callback. It does not model `encodeURI` or the percent-encoding that `searchParams.set` applies, and it does not model the resolution of `/?signin=true` against the request's origin.
- `getToken` and NextAuth are not modelled. The presence of a session token is a boolean input. The wrapped middleware is modelled as `Delegated`, which is what `mainMiddleware` returns.
- Numbers.IntToString, Numbers.IntToStringRoundTrip and Numbers.IntToStringInjective describe `String(n)` only for integers below 10^21 in magnitude. From 10^21 on, JavaScript writes exponent form (`"1e+21"`). Above 2^53 a JavaScript number cannot hold every integer exactly. The model renders every integer in plain decimal.
- `useGetLibrary`'s `page` and `limit` are integers here. Fractional and NaN numbers are not modelled. URLSearchParams' form encoding is left out because it leaves decimal digits and `-` unchanged.
- `ServerView` is a reader that this model defines. It stands for no server code.
