# Hello Tenant mini-app: a Dafny model

The Hello Tenant mini-app runs inside a sandboxed iframe and talks to its host
through a bridge (`emit`, `subscribe`, `getEditorContent`, `onEditorChange`,
`useMiniAppContext`). Depending on the runtime context it shows one of three
views:

- **projects**: characters, lines and a 100-character preview of the editor text;
- **learn**: a lesson's title, progress, a 200-character preview of its content
  with markdown heading markers stripped, its pane count and the enrollment prefix;
- **studio**: a draft's title, draft flag, word and character counts and pane count.

This project models `src/index.tsx`, the one file with logic in it:

- `wrappers.dfy` (`Wrappers`): `Option`, standing for `undefined`/`null`.
- `js_text.dfy` (`JsText`): the JavaScript string primitives the views use, written out.
  These are the `\s` class, `split` on `'\n'`, `split(/\s+/)`, `filter(Boolean)` and `trim`.
  The module proves that join inverts split, that `trim` keeps exactly a slice bounded by
  non-whitespace, and that `split(/\s+/).filter(Boolean)` counts the maximal
  non-whitespace runs.
- `previews.dfy` (`Previews`): `getPreview`, the line count, the regular
  expression replacement `replace(/^#+\s*/gm, '')`, `getContentPreview` and `getContentStats`.
- `context.dfy` (`Context`): the runtime context, the `projects` default,
  the choice of view, and the title, pane-count and enrollment fallbacks.
- `views.dfy` (`Views`): `LearnView`, `StudioView` and `ProjectsView` as classes.
  Their fields are the React state (`loading`, `error`, the response data) plus
  the effect's live subscription and pending timer. There is one method per event:
  the effect running, a response arriving, the timer firing and the cleanup.
  `Render` gives the screen drawn. A ghost log records the calls made on the bridge.
- `scenarios.dfy` (`Scenarios`): timelines of events from a fresh view and the
  screen that results.

The timer in both lesson views tests the `loading` constant of the render in
which the effect ran, not the current state. On the first mount that value is
always `true`. So a timer that fires before cleanup always sets the timeout
error and ends loading. It does so even when the response already arrived, or
when a failed request already set its own error. The model keeps this
behaviour: the value is the field `loadingSeenByTimer`, set from `loading` when
the effect starts. `Scenarios.LearnTimeoutOverridesContent` and
`Scenarios.StudioTimeoutOverridesDraft` exhibit it. When the effect re-runs for a
new `lessonId` after loading has finished, the captured value is `false` and the
timer does nothing (`Scenarios.LearnRerunAfterLoad`).

The guard `if (loading)` in the timer callback (src/index.tsx:397 and :496)
shows the intent: the timeout should only act while nothing has arrived. Read
against that guard, the code as written has two consequences:

- after a timeout, a late response is still stored, though the error stays on screen;
- a lesson that has loaded can still turn into an error.

The model follows the code.

## Model

| member | source | states |
|---|---|---|
| JsText.SplitOn | src/index.tsx:345 | `split('\n')` yields one piece more than there are separators, and no piece contains a separator |
| JsText.JoinSplitOn | src/index.tsx:345 | joining the pieces of a split with the separator gives back the original string |
| JsText.SplitOnJoin | src/index.tsx:345 | splitting a join of separator-free pieces gives back those pieces |
| JsText.IsWhitespace | src/index.tsx:421 | the `\s` class, which `trim` also strips and `split(/\s+/)` at line 517 splits on, contains every line terminator, so `\s*` and `\s+` run across line breaks, and never contains `#` |
| JsText.SkipWhitespace | src/index.tsx:421 | the run of `\s` characters from a position: all of it is whitespace and the character after it is not |
| JsText.WhitespaceStart | src/index.tsx:421 | the run of `\s` characters ending at a position: all of it is whitespace and the character before it is not |
| JsText.TrimStartStep | src/index.tsx:421 | a leading whitespace character makes no difference to `trimStart` |
| JsText.TrimStart | src/index.tsx:421 | the result is a suffix, everything dropped is whitespace, and it does not begin with whitespace |
| JsText.TrimEnd | src/index.tsx:421 | the result is a prefix, everything dropped is whitespace, and it does not end with whitespace |
| JsText.Trim | src/index.tsx:421 | `trim()` never lengthens, and its result neither begins nor ends with whitespace |
| JsText.TrimIsSlice | src/index.tsx:421 | `trim()` keeps a slice `s[start..end]`; all before and after it is whitespace; its ends are not |
| JsText.TrimTrimmed | src/index.tsx:421 | a string without surrounding whitespace is its own trim |
| JsText.TrimAllWhitespace | src/index.tsx:421 | an all-whitespace string trims to empty |
| JsText.SplitOnWhitespace | src/index.tsx:517 | `split(/\s+/)` gives at least one piece, no piece contains whitespace, every piece but the first and the last is non-empty, and the first is non-empty when the text begins with a non-whitespace character; JoinSplitOnWhitespace fixes the pieces themselves |
| JsText.SplitRuns | src/index.tsx:517 | the same for the rest of the scan once a piece is partly read: whitespace-free pieces, only the ends possibly empty, and a non-empty first piece when the partial piece or the next character is a word character |
| JsText.JoinSplitRuns | src/index.tsx:517 | joining with `' '` the pieces of the scan from a partly read piece gives that piece followed by the rest of the text with each whitespace run collapsed to one space |
| JsText.JoinSplitOnWhitespace | src/index.tsx:517 | joining the pieces of `split(/\s+/)` with `' '` gives the text with each whitespace run collapsed to one space, and splitting that text on `' '` gives back exactly the pieces |
| JsText.NonEmpty | src/index.tsx:517 | `filter(Boolean)` yields no more pieces than it is given, and only non-empty ones taken from them; every non-empty piece occurs in the result |
| JsText.NonEmptyMultiset | src/index.tsx:517 | `filter(Boolean)` keeps each non-empty piece exactly as often as it occurs and drops every empty one |
| JsText.NonEmptyAppend | src/index.tsx:517 | `filter(Boolean)` keeps the order: filtering a concatenation concatenates the filtered parts |
| JsText.WordCountIsRunCount | src/index.tsx:517 | `split(/\s+/).filter(Boolean).length` equals the number of maximal non-whitespace runs |
| JsText.RunCountZero | src/index.tsx:517 | there are no non-whitespace runs exactly when every character is whitespace (so empty text included) |
| Previews.Truncate | src/index.tsx:330 | text that fits is kept whole; longer text becomes exactly its first `maxLength` characters plus `...`, length `maxLength + 3` |
| Previews.GetPreview | src/index.tsx:328-331 | never empty; text that fits is returned, `(empty)` for empty text; longer text is its first `maxLength` characters plus `...`, length `maxLength + 3` |
| Previews.LineCount | src/index.tsx:345 | 0 for empty content, otherwise the number of `'\n'` plus one |
| Previews.HeaderAt | src/index.tsx:421 | `^#` under the `m` flag: a match begins exactly at a `#` that is the first character of the text or follows a line terminator |
| Previews.HeaderEnd | src/index.tsx:421 | a match of `#+\s*` at a line start covers only `#` and whitespace and stops before the next non-whitespace character |
| Previews.SkipHashes | src/index.tsx:421 | the greedy `#+` run from a position: all `#`, and no `#` right after it |
| Previews.HeaderMatch | src/index.tsx:421 | a match whose `#` run and whitespace end at known positions makes the scan resume right after them |
| Previews.StripFrom | src/index.tsx:421 | the `g` scan from a position never yields more than what is left; StripFromIsKept gives its full characterization |
| Previews.StripHeaders | src/index.tsx:421 | the replacement never lengthens the text |
| Previews.NoHeaderInsideMatch | src/index.tsx:421 | no line-start `#` lies strictly inside a match of `#+\s*`, so the matches of the global replacement do not overlap |
| Previews.StripFromIsKept | src/index.tsx:421 | once every earlier match has ended, the scan from a position yields exactly the characters from there on that lie inside no match |
| Previews.StripHeadersIsKept | src/index.tsx:421 | the replacement removes exactly the characters inside line-start matches of `#+\s*` and keeps every other character, in order |
| Previews.StripHeadersKeepsSignificant | src/index.tsx:421 | the replacement removes only `#` and whitespace: every other character survives, in order |
| Previews.StripHeadersWithoutHeaders | src/index.tsx:421 | content in which no line starts with `#` is unchanged |
| Previews.ContentPreview | src/index.tsx:418-424 | `(no content)` for empty content; otherwise, with `shown` the stripped and trimmed text: `shown` itself when it fits in `maxLength`, else exactly its first `maxLength` characters plus `...`; never begins with whitespace |
| Previews.ContentPreviewWithoutHeaders | src/index.tsx:418-424 | content with no line starting with `#` previews as its trimmed, possibly cut, self |
| Previews.LeadingHeaderStripped | src/index.tsx:421 | content made of one header marker followed by text with no `#` loses exactly the marker and the whitespace after it |
| Previews.IntroductionPreview | src/index.tsx:418-424 | `"# Intro\nHello"` loses its marker and previews as `"Intro\nHello"` |
| Previews.StackedHeadingsStripped | src/index.tsx:421 | `\s*` crosses line breaks and the next `#` after a line break is stripped too: `"#\n\n## Title\nBody"` becomes `"Title\nBody"` |
| Previews.InlineMarkerKept | src/index.tsx:421 | a `#` that does not begin a line is kept: `"# a #b"` becomes `"a #b"` |
| Previews.ContentStats | src/index.tsx:516-522 | `chars` is the length; `words` is the number of maximal non-whitespace runs and is 0 exactly for empty or all-whitespace content |
| Context.ResolveContext | src/index.tsx:580 | a provided context is used as is; a missing or falsy one becomes `{ type: 'projects' }` |
| Context.SelectView | src/index.tsx:595-604 | `learn` selects the learn view and `studio` the studio view, each given the context; every other type selects the projects view |
| Context.AppView | src/index.tsx:580-604 | without a context the app shows the projects view; otherwise the view of the provided context |
| Context.DisplayTitle | src/index.tsx:432 | the response's title if truthy, else the lesson slug if truthy, else `Unknown`; never blank |
| Context.PaneCount | src/index.tsx:455 | the length of `paneConfigs` when present, else 0 |
| Context.EnrollmentDisplay | src/index.tsx:456-457 | shown exactly for a truthy identifier, as its prefix of `min(8, length)` characters |
| Views.LearnEffectCalls | src/index.tsx:374-401 | both responses are subscribed first, then no subscribe follows an emit; the content request is always made; the progress request is made exactly when the content request did not throw; the 3000 ms timer comes last |
| Views.StudioEffectCalls | src/index.tsx:478-500 | the subscription precedes the emit, which precedes the 3000 ms timer |
| Views.LearnView.constructor | src/index.tsx:369-372 | the first state: loading, no error, no content, no progress, no effect |
| Views.LearnView.RunEffect | src/index.tsx:374-401 | subscribes, emits and starts the timer, logging exactly these calls; a throwing emit sets the request error and ends loading at once; the timer captures the current `loading` |
| Views.LearnView.ContentResponse | src/index.tsx:376-379 | while subscribed the payload is stored unmodified and loading ends; otherwise nothing changes |
| Views.LearnView.ProgressResponse | src/index.tsx:381-383 | while subscribed the progress is stored; `loading` never changes |
| Views.LearnView.TimeoutFires | src/index.tsx:396-401 | a pending timer whose captured `loading` was true sets the timeout error and ends loading, whatever arrived meanwhile; a timer fires only while the handlers are still subscribed; a cleared timer changes nothing |
| Views.LearnView.Cleanup | src/index.tsx:403-407 | both handlers are unsubscribed and the timer cleared, in that order; view state is kept |
| Views.LearnView.Render | src/index.tsx:410-460 | loading first, then the error, then the lesson: the title fallback, the content preview exactly when content arrived, the completed flag, the completion date exactly when it is truthy, the pane count (`paneConfigs?.length ?? 0`) and the enrollment prefix |
| Views.LearnView.ScreenInvariant | src/index.tsx:386-416 | in every reachable state the loading notice hides no error and no content response (a progress response may already be stored), and an error on screen is the request-failure or the timeout message, the only two `setError` sets |
| Views.StudioView.constructor | src/index.tsx:474-476 | the first state: loading, no error, no data, no effect |
| Views.StudioView.RunEffect | src/index.tsx:478-500 | subscribes, emits and starts the timer; a throwing emit sets the request error and ends loading at once; the timer captures the current `loading` |
| Views.StudioView.LessonResponse | src/index.tsx:480-483 | while subscribed the payload is stored unmodified and loading ends |
| Views.StudioView.TimeoutFires | src/index.tsx:495-500 | a pending timer whose captured `loading` was true sets the timeout error and ends loading; a timer fires only while the handler is still subscribed; a cleared timer changes nothing |
| Views.StudioView.Cleanup | src/index.tsx:502-505 | the handler is unsubscribed and the timer cleared |
| Views.StudioView.Render | src/index.tsx:508-559 | loading first, then the error, then the draft; missing data gives the title fallback of `DisplayTitle` and counts as empty content, so 0 words, 0 characters and 0 panes; with data, the words, characters, draft flag, title and pane count come from the payload; the course slug is shown when truthy and preview mode exactly when `isPreview` is `true` |
| Views.StudioView.ScreenInvariant | src/index.tsx:486-515 | in every reachable state the loading notice hides nothing received, and an error on screen is the request-failure or the timeout message |
| Views.ProjectsView.constructor | src/index.tsx:295-297 | empty content, never updated, no error |
| Views.ProjectsView.Mount | src/index.tsx:299-317 | the effect starts the fetch and registers the change handler |
| Views.ProjectsView.ContentReceived | src/index.tsx:302-305 | a fetched or changed text replaces the shown one while mounted |
| Views.ProjectsView.InitialFetchFailed | src/index.tsx:306-309 | a rejected fetch sets the load error |
| Views.ProjectsView.Unmount | src/index.tsx:316 | the change handler is unsubscribed |
| Views.ProjectsView.Render | src/index.tsx:333-355 | the error if set; otherwise the character count, the line count and the 100-character preview of the text |
| Views.ProjectsView.ScreenInvariant | src/index.tsx:306-335 | in every reachable state an error on screen is the failed-fetch message |
| Scenarios.LearnLoadsContent | src/index.tsx:374-460 | a response before unmount is stored unmodified; the lesson screen shows its title and its preview |
| Scenarios.LearnTimeoutOverridesContent | src/index.tsx:396-401 | content on screen is replaced by the timeout error when the timer fires before cleanup |
| Scenarios.LearnRequestFailureIsImmediate | src/index.tsx:386-393 | a throwing request shows the request error without waiting for the timer |
| Scenarios.LearnRequestFailureThenTimeout | src/index.tsx:386-401 | the timer still fires after a failed request and its message replaces the request error |
| Scenarios.LearnLateResponse | src/index.tsx:376-401 | a response after the timeout is stored, yet the error stays on screen |
| Scenarios.LearnProgressOnly | src/index.tsx:381-383 | the progress response alone leaves the loading notice on screen |
| Scenarios.LearnEventsAfterCleanup | src/index.tsx:403-407 | after cleanup, responses and the cleared timer change nothing |
| Scenarios.LearnRerunAfterLoad | src/index.tsx:396-408 | a re-run effect after loading captures `loading` as false, so its timer leaves the lesson on screen |
| Scenarios.StudioNoResponse | src/index.tsx:495-500 | without a response the studio view ends with the timeout error |
| Scenarios.StudioLoadsDraft | src/index.tsx:480-550 | a response before unmount is stored unmodified; the statistics, draft flag and pane count are those of the payload |
| Scenarios.StudioTimeoutOverridesDraft | src/index.tsx:495-500 | a loaded draft is replaced by the timeout error when the timer fires before cleanup |
| Scenarios.StudioRequestFailureIsImmediate | src/index.tsx:486-492 | a throwing studio request shows its error at once |
| Scenarios.ProjectsFailureHidesEdits | src/index.tsx:306-335 | after a failed initial fetch the error stays on screen whatever the editor sends |
| Scenarios.ProjectsShowsLatestText | src/index.tsx:302-313 | the last text received is the one counted and previewed |
| Scenarios.ProjectsBeforeContent | src/index.tsx:295-350 | before any text arrives: 0 characters, 0 lines and the `(empty)` preview |

## Left out

- Styles, markup, badges: the style table, the `createElement` trees and `getContextBadgeStyle` are presentational. A `Screen` keeps only the values shown.
- Manifest and lifecycle hooks: static data and `console.log`. Error logging with `console.error` is also left out.
- Locale formatting: `toLocaleString`, `toLocaleTimeString` (the "Last updated" time) and `toLocaleDateString` (the completion date) depend on the locale. The projects view keeps only whether it ever received text. The completion date is kept as the raw string.
- React and the real bridge: hooks, re-render scheduling, batching and StrictMode double effects are replaced by explicit event methods. So are `setTimeout`/`clearTimeout` and wall-clock time. The 3000 ms delay appears only as a number in the log.
- Synchronous replies: a handler called by the host from inside `emit`, during the effect, is not modelled. Responses arrive only as separate events after the effect.
- Payload shape: payloads are cast unchecked in the source. The model assumes objects with the declared fields; `paneConfigs` may be missing. A `null` or malformed payload is not modelled, and neither is the progress payload's free-form `data` record, which is never read.
- Bridge log: the ghost log covers the learn and studio views. The projects view's `getEditorContent`/`onEditorChange` calls are not logged, and their results are delivered as `ContentReceived` and `InitialFetchFailed` events.
- String length: strings are sequences of Unicode scalar values. JavaScript measures UTF-16 code units, so text with characters outside the Basic Multilingual Plane gets different lengths, cut points and 8-character enrollment prefixes.
- Previews.GetPreview: `maxLength` is a natural number. A negative `maxLength` is not modelled; it is never passed, and the default of 100 is used.
- Previews.Truncate: `maxLength` is a natural number, for the same reason; its callers pass 100 or 200.
- Previews.ContentPreview: `maxLength` is a natural number. A negative value is not modelled; it is never passed, and the default of 200 at src/index.tsx:418 is used.
- src/dev.tsx (a mock bridge for local development) and vite.config.ts (build configuration) are not part of this model.
