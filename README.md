# InfinityScroller (cscroller.js) in Dafny

`cscroller.js` is a small "endless scrolling" widget built on Prototype. A
periodic timer checks how far the visible area is from the end of the page.
When that distance is below `trigger_height` and no load is running, the
widget sets `updateInProgress`, shows a placeholder, calls
`onSegmentLoadStart` and issues one Ajax GET. The URL comes from a URL
generator. On success the response text is appended to the container, the
flag is cleared, and a response shorter than 300 characters stops the timer
for good. On failure the failure callback runs and the flag stays set.

The model has seven modules:

- `Optional`: the `Option` type. It stands for JavaScript `undefined`/`null`.
- `Strings`: `String.prototype.replace` with a string pattern. It
  replaces the first occurrence only. The module also holds the decimal text
  of an integral Number, with a parser that reads it back.
- `Viewport`: the three measurement functions of `thepaw.third_party`.
  They are pure choices over optional integer readings, where a reading of 0
  is falsy.
- `UrlGenerator`: the default generator. `GenFields` and `Advance` give
  its behaviour as values. The class `DefaultUrlGenerator` has the mutable
  `current_index`, and its `Next` method is proved against `Advance`.
- `Configuration`: the option overlay of `DefaultConfiguration` and
  the choice between the caller's generator and the merged default one.
- `Scheduler`: the tick, success and failure transitions as a state
  machine over values. It comes with an invariant and lemmas about
  arbitrary sequences of events.
- `Scroller`: the class `ContinousScroller`. Its fields are updated in
  place. `Tick`, `OnSuccess` and `OnFailure` are proved to have exactly the
  effect of `Scheduler.Step` on the same input. `GetMoreContent` is proved
  to have exactly the effect of `Scheduler.StartFetch`. So the trace lemmas
  apply to the object.

Three behaviours of the code that the model keeps as written:

- The first URL of the default generator uses index
  `start_index + default_spacing`, not `start_index` (cscroller.js:249-250).
  The usage comments at cscroller.js:215-222 claim otherwise.
- A response shorter than 300 characters stops the timer but is still
  appended. The insertion at cscroller.js:115 is unconditional.
- A failure never clears `updateInProgress` (cscroller.js:122-128). After
  a failure no fetch can ever start again.

## Model

| member | source | states |
|---|---|---|
| `Strings.FindFrom` | cscroller.js:253 | the index found is an occurrence of the pattern with none before it; when nothing is found, the pattern occurs nowhere at or after the start |
| `Strings.ReplaceFirst` | cscroller.js:253 | a template without the token is returned unchanged; otherwise exactly the first occurrence is replaced and every other character is kept in place |
| `Strings.ReplaceFirstInjective` | cscroller.js:253 | different replacement texts give different URLs, so the substituted index can be read back |
| `Strings.IntToString` | cscroller.js:253 | the text of the counter is non-empty and made only of digits and a leading '-', so it cannot contain `$page_num$` or a `$` replacement pattern; it is canonical: '-' exactly for negative counters, no leading zero, and 0 is "0" |
| `Strings.NatCanonicalUnique` | cscroller.js:253 | a run of digits without a leading zero is the decimal text of the number it reads as |
| `Strings.IntCanonicalUnique` | cscroller.js:253 | every canonical text is the decimal text of the integer it reads as, so the counter's text is the one canonical text of its value |
| `Strings.IntRoundTrip` | cscroller.js:253 | parsing the decimal text of an integer gives that integer back |
| `Strings.IntToStringInjective` | cscroller.js:253 | different counters give different texts |
| `Viewport.PageHeight` | cscroller.js:265-279 | when both readings exist the result is one of them and at least both; without `scrollHeight` it is `offsetHeight`; with no body or no `offsetHeight` it is unusable |
| `Viewport.PageHeightIsMax` | cscroller.js:269-277 | the page height is the larger of `scrollHeight` and `offsetHeight` |
| `Viewport.ScrollHeight` | cscroller.js:316 | the result is the scroll offset plus the window height, and it is usable exactly when both parts are |
| `Viewport.WindowHeight` | cscroller.js:281-298 | the window height is the height of the first of `window` and `documentElement` whose width is truthy, else the body's height whenever there is a body |
| `Viewport.ScrollOffset` | cscroller.js:301-315 | the scroll offset is the first truthy of `pageYOffset` and `documentElement.scrollTop`, else the body's `scrollTop` |
| `Viewport.ZeroInnerWidthIsAbsent` | cscroller.js:282 | an `innerWidth` of 0 behaves exactly like an absent one |
| `Viewport.ZeroPageYOffsetIsAbsent` | cscroller.js:304 | a `pageYOffset` of 0 behaves exactly like an absent one |
| `Viewport.NearBottom` | cscroller.js:87-89 | a fetch is due only when both the page height and the scroll height are usable, and then exactly when their difference is strictly below the trigger height |
| `Viewport.TriggerExample` | cscroller.js:87-89 | page 2000, offset 500 and window 600 trigger with trigger height 1000 and not with 500 (strict comparison) |
| `UrlGenerator.Template` | cscroller.js:252 | a null `url` means the template `?page=$page_num$`, otherwise the caller's `url` |
| `UrlGenerator.UrlFor` | cscroller.js:252-253 | a template without `$page_num$` is the URL unchanged; otherwise its first `$page_num$` is replaced by the decimal text of the index |
| `UrlGenerator.Advance` | cscroller.js:249-250 | a call changes only the counter, which afterwards is defined and exceeds its old value, or `start_index` when it was undefined, by `default_spacing` |
| `UrlGenerator.AdvanceStep` | cscroller.js:249-250 | one call moves the counter from `start + n*spacing` (undefined for n = 0) to `start + (n+1)*spacing` and changes no other field |
| `UrlGenerator.CallsIndex` | cscroller.js:249-250 | after n calls the counter is `start_index + n*default_spacing`, so the first call yields `start_index + default_spacing` |
| `UrlGenerator.NthUrl` | cscroller.js:248-254 | the n-th URL is the template with its first `$page_num$` replaced by `start_index + n*default_spacing` |
| `UrlGenerator.DefaultTemplateUrl` | cscroller.js:252-253 | with a null `url` the URL for index i is exactly `?page=` followed by i |
| `UrlGenerator.UrlsNeverRepeat` | cscroller.js:248-254 | with a non-zero spacing and a template holding the token, two different calls never return the same URL |
| `UrlGenerator.DefaultUrlGenerator.constructor` | cscroller.js:74-75 | a merged generator starts with its counter undefined and no calls made |
| `UrlGenerator.DefaultUrlGenerator.Next` | cscroller.js:248-254 | one call advances the counter by `default_spacing`, starting from `start_index`, and returns the template with the new counter substituted |
| `Configuration.Merge` | cscroller.js:73 | every key the hash gives replaces the base value and every other key keeps it |
| `Configuration.Resolve` | cscroller.js:73 | each resolved option is the caller's value when given, else the default: 0.2, 1000, the two default strings, the uid, no-op callbacks |
| `Configuration.MergeIdentities` | cscroller.js:73 | merging an empty hash keeps the defaults; a hash that gives every key yields exactly that hash |
| `Configuration.SelectGenerator` | cscroller.js:74-75 | the caller's object is used exactly when it has `next`, and then verbatim; otherwise a merged default generator with its counter undefined |
| `Configuration.SelectDefaultFieldwise` | cscroller.js:243-246 | the merged default generator takes `url`, `start_index` and `default_spacing` from the caller when given, else null, 1 and 1 |
| `Scheduler.Initial` | cscroller.js:71-94 | a new scroller satisfies the invariant, has the resolved options and the given container, is attached with the flag clear, the timer armed and nothing logged; it uses the caller's `next` with no calls made exactly when the generator hash has `next`, and otherwise the merged default generator of `Configuration.SelectGenerator` |
| `Scheduler.FailureNotice` | cscroller.js:124-127 | the notice is the failure message, unchanged, inside a `div` with the id `continous_scroll_failiure_notice` |
| `Scheduler.NextUrl` | cscroller.js:106 | a caller's generator gets one more `next()` call and the request is that call's result; the default generator is advanced once and the request is the URL of its new counter |
| `Scheduler.StartFetch` | cscroller.js:98-106 | logs `onSegmentLoadStart` then exactly one request, shows the placeholder, marks the request outstanding, and changes neither container, options, flag nor timer |
| `Scheduler.Step` | cscroller.js:84-128 | one event only appends to the container and the log, never changes the options, never restarts a stopped timer, and changes nothing when blocked or when stopped with nothing outstanding |
| `Scheduler.StartFetchValid` | cscroller.js:98-106 | starting a fetch with the flag set and nothing outstanding keeps the invariant |
| `Scheduler.StepValid` | cscroller.js:84-128 | ticks, successes and failures keep the invariant: the flag is set while a request is outstanding, at most one is outstanding, one `next()` call per fetch |
| `Scheduler.RunValid` | cscroller.js:84-128 | any sequence of events keeps the invariant |
| `Scheduler.AtMostOneInFlight` | cscroller.js:87-91 | from creation, over any event sequence, fetches started exceed answers received by at most one |
| `Scheduler.TicksNeverOverlap` | cscroller.js:87-91 | while a request is outstanding, no sequence of ticks changes anything, so no second fetch starts |
| `Scheduler.TickFiresIff` | cscroller.js:84-93 | a tick starts a fetch exactly when attached, armed, the flag is clear and page height minus scroll height is below the trigger height; the fetch sets the flag and logs `onSegmentLoadStart` then one request; otherwise nothing changes |
| `Scheduler.TemplateRequestUrl` | cscroller.js:106 | with the default generator, the n-th fetch requests the URL for `start_index + n*default_spacing` |
| `Scheduler.CustomRequestUrl` | cscroller.js:106 | with a caller's generator, each fetch calls its `next()` exactly once more |
| `Scheduler.RunAppendOnly` | cscroller.js:115 | across any event sequence the container and the log only grow at the end and earlier segments are unchanged |
| `Scheduler.SuccessAppends` | cscroller.js:108-119 | a success of 300 or more characters logs `onSegmentLoadComplete` then `onSegmentInsertComplete`, appends the body, hides the placeholder, clears the flag and leaves the timer armed |
| `Scheduler.ShortResponseEnds` | cscroller.js:112-117 | a success under 300 characters is still appended and still clears the flag, but stops the timer, after which no event changes anything |
| `Scheduler.StoppedStaysStopped` | cscroller.js:112 | once stopped, the timer stays stopped whatever happens |
| `Scheduler.StoppedIsFrozen` | cscroller.js:112 | once the timer is stopped, no event changes the scroller |
| `Scheduler.FailureBlocksForever` | cscroller.js:122-128 | a failure logs `onSegmentLoadFaliure`, keeps the earlier segments (at most the notice is appended), leaves the flag set, and after it no event changes anything |
| `Scheduler.BlockedIsFrozen` | cscroller.js:122-128 | with the flag set and nothing outstanding, no event sequence changes the scroller |
| `Scroller.ContinousScroller.constructor` | cscroller.js:71-96 | the new object is the initial state: options and generator resolved, flag clear, timer armed and attached, container as given |
| `Scroller.ContinousScroller.Tick` | cscroller.js:84-93 | the object changes exactly as a tick of the state machine, and not at all while the flag is set |
| `Scroller.ContinousScroller.GetMoreContent` | cscroller.js:98-106 | shows the placeholder, logs `onSegmentLoadStart`, calls `next()` once and logs the request |
| `Scroller.ContinousScroller.OnSuccess` | cscroller.js:108-119 | the object changes exactly as a success of the state machine: body appended at the end, the flag cleared, and the timer stopped exactly when the body is under 300 characters |
| `Scroller.ContinousScroller.OnFailure` | cscroller.js:122-128 | the object changes exactly as a failure of the state machine: the flag stays set, earlier segments untouched |

## Left out

- Prototype library calls (`Class.create`, `$H`, `$`, `Ajax.Request`, `Insertion.*`, `PeriodicalExecuter`): these are foreign code. Requests are `Request` events, insertions are appends to a sequence, and the timer is an `Armed`/`Stopped` flag. `Hash.merge` is modelled as a plain key-wise overlay where the override wins.
- `check_interval` and real-time scheduling: ticks are discrete inputs. The option itself is resolved but not otherwise used.
- Placeholder markup: the misspelt `stlye` attribute, the use of the unmerged `options.loading_placeholder` (cscroller.js:82), and the fixed element id shared by all instances are not modelled. Only show/hide is kept. The placeholder starts visible, because the misspelt attribute never hides it.
- Failure-notice insertion: cscroller.js:124 calls `Insertion.bottom` in lower case. Whether that exists depends on the Prototype version. The model takes it as an input (`noticeInserted`) and proves its properties for both cases.
- Callback bodies and their exceptions: callbacks are identities (`Configuration.Callback`) and their invocations are log events. An exception thrown by a caller's callback is not modelled.
- Custom generators: their `next()` results are opaque. A request made with one is recorded only as "the k-th call of that `next()`".
- A `current_index` key supplied by the caller in the generator hash would be carried into the merged generator and seed its counter. The model takes only `url`, `start_index` and `default_spacing` from the caller. Any `next` value, even a non-function, selects the custom path.
- Numbers: the counter, the readings and `trigger_height` are unbounded integers. Non-integral or non-numeric options, `NaN` arithmetic on a `start_index` given as `undefined`, exponent notation for counters of 10^21 or more, and the double-precision limit are not modelled.
- `Scheduler.Step`: the 300-character test counts Dafny characters (Unicode scalar values). JavaScript's `length` counts UTF-16 code units, so a response with characters outside the Basic Multilingual Plane can be measured differently.
- Browser measurement details: `parseInt` on DOM values is identity on the integer readings. When `_getWindowHeight` finds no source, the source reads the leaked global `frameHeight`; the model treats the height as unusable (no fetch). A missing `document.body` in `getPageHeight` throws in the source; the model again treats the height as unusable, so the tick starts nothing.
- A caller's `next` that is not a function, or that throws: cscroller.js:106 then throws after the flag is set and `onSegmentLoadStart` has run, so no request is made and the flag stays set for good. The model assumes `next()` returns, so `Scheduler.StartFetch` always logs a request and marks it outstanding.
- A constructor call without an option hash, or without a generator hash: cscroller.js:82 reads `options.loading_placeholder` and cscroller.js:74 reads `url_generator.next`, and either throws before the `PeriodicalExecuter` exists, so no tick ever runs. The model always takes both hashes; `Configuration.NoOverrides` stands for an empty hash `{}`, not a missing one.
- The doc-comment examples at cscroller.js:215-236 disagree with the code and are not modelled.
