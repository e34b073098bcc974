/** The scroller's scheduling and fetch cycle as a state machine over values:
    the periodic tick of `initialize` (cscroller.js:84-93) and the success
    and failure continuations of `getMoreContent` (cscroller.js:98-131).
    The DOM container is a sequence of appended segments, the callbacks and
    the Ajax request are an event log, and the `PeriodicalExecuter` is a
    timer that is `Armed` until it is stopped for good. The generator in
    use is a `Source`: `InitialSource` turns the choice made by
    `Configuration.SelectGenerator` into one, adding the state that the
    generator's `next()` calls change. */
module Scheduler {
  import Viewport
  import UrlGenerator
  import Configuration

  /** A response shorter than this many characters signals the end of the
      content (cscroller.js:112). */
  const EndOfContentLength: nat := 300

  datatype Timer = Armed | Stopped

  /** The URL of a request: a default generator's URL, or the result of the
      k-th call of the caller's `next()`, which the model does not know. */
  datatype RequestUrl = FromTemplate(url: string) | FromCustom(next: Configuration.NextFn, call: nat)

  /** What the scroller does that the page can observe, apart from the
      container: the four callbacks, and the Ajax GET. */
  datatype Event =
    | LoadStart
    | Request(url: RequestUrl)
    | LoadComplete(body: string)
    | InsertComplete
    | LoadFailure(body: string)

  /** The generator in use, with the state its `next()` calls change. */
  datatype Source =
    | Custom(next: Configuration.NextFn, calls: nat)
    | Default(fields: UrlGenerator.GenFields)

  /** The scroller: its resolved options, whether the timer's `target_obj`
      is set, the `updateInProgress` flag, the timer, whether a request is
      outstanding, the container's segments, the placeholder's visibility,
      the generator and the event log. */
  datatype State = State(
    options: Configuration.Options,
    attached: bool,
    updateInProgress: bool,
    timer: Timer,
    inFlight: bool,
    container: seq<string>,
    placeholderVisible: bool,
    source: Source,
    log: seq<Event>)

  /** What can happen to a scroller: a timer tick with the viewport readings
      of that moment, or the answer to the outstanding request. Whether the
      failure notice is appended depends on `Insertion.bottom` (lower case)
      existing in the host library, which the model leaves open. */
  datatype Input =
    | Tick(readings: Viewport.Readings)
    | Success(body: string)
    | Failure(body: string, noticeInserted: bool)

  /** The opening tag of the failure notice. */
  const FailureNoticeOpen: string := "<div id='continous_scroll_failiure_notice'>"

  /** The failure-notice markup of cscroller.js:125-126: the failure message
      inside a `div` with a fixed id. */
  function FailureNotice(message: string): (html: string)
    ensures |html| == |FailureNoticeOpen| + |message| + |"</div>"|
    ensures html[..|FailureNoticeOpen|] == FailureNoticeOpen
    ensures html[|FailureNoticeOpen|..|FailureNoticeOpen| + |message|] == message
    ensures html[|FailureNoticeOpen| + |message|..] == "</div>"
  {
    FailureNoticeOpen + message + "</div>"
  }

  function InitialSource(c: Configuration.GeneratorChoice): Source
    requires c.UseCustom? ==> c.arg.next.Some?
  {
    match c
    case UseCustom(arg) => Custom(arg.next.value, 0)
    case UseDefault(fields) => Default(fields)
  }

  /** The scroller right after `initialize`: the placeholder is inserted
      beside the container (visible, its `display:none` being misspelt), no
      fetch is running and the timer is armed. */
  function Initial(container: seq<string>, arg: Configuration.GeneratorArg,
                   overrides: Configuration.Overrides): (s: State)
    ensures Valid(s)
    ensures s.options == Configuration.Resolve(overrides) && s.container == container
    ensures s.attached && !s.updateInProgress && s.timer == Armed && s.log == []
    ensures s.source.Custom? <==> arg.next.Some?
    ensures arg.next.Some? ==> s.source == Custom(arg.next.value, 0)
    ensures arg.next.None? ==> s.source == Default(Configuration.SelectGenerator(arg).fields)
  {
    State(Configuration.Resolve(overrides), true, false, Armed, false, container, true,
          InitialSource(Configuration.SelectGenerator(arg)), [])
  }

  /** The number of fetches started. */
  function Starts(log: seq<Event>): nat {
    if log == [] then 0
    else Starts(log[..|log| - 1]) + if log[|log| - 1].LoadStart? then 1 else 0
  }

  /** The number of `next()` calls, one per request. */
  function Requests(log: seq<Event>): nat {
    if log == [] then 0
    else Requests(log[..|log| - 1]) + if log[|log| - 1].Request? then 1 else 0
  }

  /** The number of answers received, successful or not. */
  function Completions(log: seq<Event>): nat {
    if log == [] then 0
    else Completions(log[..|log| - 1]) +
         if log[|log| - 1].LoadComplete? || log[|log| - 1].LoadFailure? then 1 else 0
  }

  lemma CountsAppend(log: seq<Event>, e: Event)
    ensures Starts(log + [e]) == Starts(log) + if e.LoadStart? then 1 else 0
    ensures Requests(log + [e]) == Requests(log) + if e.Request? then 1 else 0
    ensures Completions(log + [e]) == Completions(log) + if e.LoadComplete? || e.LoadFailure? then 1 else 0
  {
    assert (log + [e])[..|log|] == log;
  }

  lemma CountsAppendTwo(log: seq<Event>, e: Event, f: Event)
    ensures Starts(log + [e, f]) == Starts(log) + (if e.LoadStart? then 1 else 0) + (if f.LoadStart? then 1 else 0)
    ensures Requests(log + [e, f]) == Requests(log) + (if e.Request? then 1 else 0) + (if f.Request? then 1 else 0)
    ensures Completions(log + [e, f]) == Completions(log)
              + (if e.LoadComplete? || e.LoadFailure? then 1 else 0)
              + (if f.LoadComplete? || f.LoadFailure? then 1 else 0)
  {
    CountsAppend(log, e);
    CountsAppend(log + [e], f);
    assert log + [e] + [f] == log + [e, f];
  }

  /** The scroller's invariant: a request is outstanding only while the
      flag is set, never after the timer stopped, and at most one at a time
      (every start but the outstanding one has been answered); every start
      made exactly one `next()` call, and the generator's counter matches
      the number of calls. */
  ghost predicate Valid(s: State) {
    && (s.inFlight ==> s.updateInProgress)
    && (s.timer == Stopped ==> !s.inFlight)
    && Requests(s.log) == Starts(s.log)
    && Starts(s.log) == Completions(s.log) + (if s.inFlight then 1 else 0)
    && match s.source
       case Custom(_, calls) => calls == Requests(s.log)
       case Default(g) => g.currentIndex == UrlGenerator.IndexAfter(g, Requests(s.log))
  }

  /** No request is outstanding but the flag is set: the state a failure
      leaves behind. */
  predicate Blocked(s: State) {
    s.updateInProgress && !s.inFlight
  }

  /** The condition under which a tick starts a fetch (cscroller.js:86-89). */
  predicate Fires(s: State, r: Viewport.Readings) {
    && s.attached
    && s.timer == Armed
    && !s.updateInProgress
    && Viewport.NearBottom(Viewport.PageHeight(r), Viewport.ScrollHeight(r), s.options.triggerHeight)
  }

  /** One call of the generator's `next()`: the new generator state and the
      URL requested. */
  function NextUrl(src: Source): (r: (Source, RequestUrl))
    ensures src.Custom? ==> r.0.Custom? && r.0.next == src.next && r.0.calls == src.calls + 1
    ensures src.Custom? ==> r.1 == FromCustom(src.next, src.calls)
    ensures src.Default? ==> r.0.Default? && r.0.fields == UrlGenerator.Advance(src.fields)
    ensures src.Default? ==>
              r.1 == FromTemplate(UrlGenerator.UrlFor(src.fields.url, r.0.fields.currentIndex.value))
  {
    match src
    case Custom(f, k) => (Custom(f, k + 1), FromCustom(f, k))
    case Default(g) =>
      var h := UrlGenerator.Advance(g);
      (Default(h), FromTemplate(UrlGenerator.UrlFor(h.url, h.currentIndex.value)))
  }

  /** `getMoreContent` up to the request (cscroller.js:100-106). */
  function StartFetch(s: State): (t: State)
    ensures |t.log| == |s.log| + 2 && t.log[..|s.log|] == s.log
    ensures t.log[|s.log|] == LoadStart && t.log[|s.log| + 1].Request?
    ensures t.inFlight && t.placeholderVisible
    ensures t.container == s.container && t.options == s.options && t.attached == s.attached
    ensures t.updateInProgress == s.updateInProgress && t.timer == s.timer
  {
    var (src, url) := NextUrl(s.source);
    s.(placeholderVisible := true, log := s.log + [LoadStart, Request(url)],
       source := src, inFlight := true)
  }

  /** The effect of one input. A tick while the timer is stopped, and an
      answer when no request is outstanding, do not happen; they change
      nothing. */
  function Step(s: State, i: Input): (t: State)
    ensures s.container <= t.container && s.log <= t.log
    ensures t.options == s.options && t.attached == s.attached
    ensures s.timer == Stopped ==> t.timer == Stopped
    ensures Blocked(s) ==> t == s
    ensures s.timer == Stopped && !s.inFlight ==> t == s
  {
    match i
    case Tick(r) =>
      if Fires(s, r) then StartFetch(s.(updateInProgress := true)) else s
    case Success(body) =>
      if !s.inFlight then s
      else s.(log := s.log + [LoadComplete(body), InsertComplete],
              timer := if |body| < EndOfContentLength then Stopped else s.timer,
              container := s.container + [body],
              placeholderVisible := false,
              updateInProgress := false,
              inFlight := false)
    case Failure(body, noticeInserted) =>
      if !s.inFlight then s
      else s.(log := s.log + [LoadFailure(body)],
              container := if noticeInserted then s.container + [FailureNotice(s.options.failureMessage)]
                           else s.container,
              inFlight := false)
  }

  /** The effect of a sequence of inputs. */
  function Run(s: State, ins: seq<Input>): State
    decreases |ins|
  {
    if ins == [] then s else Run(Step(s, ins[0]), ins[1..])
  }

  /** Starting a fetch with the flag set, the timer armed and nothing
      outstanding keeps the invariant. */
  lemma StartFetchValid(s: State)
    requires Valid(s) && s.updateInProgress && !s.inFlight && s.timer == Armed
    ensures Valid(StartFetch(s))
  {
    var (src, url) := NextUrl(s.source);
    CountsAppendTwo(s.log, LoadStart, Request(url));
    if s.source.Default? {
      UrlGenerator.AdvanceStep(s.source.fields, Requests(s.log));
    }
  }

  /** Every input preserves the invariant. */
  lemma StepValid(s: State, i: Input)
    requires Valid(s)
    ensures Valid(Step(s, i))
  {
    match i
    case Tick(r) =>
      if Fires(s, r) {
        StartFetchValid(s.(updateInProgress := true));
      }
    case Success(body) =>
      if s.inFlight {
        CountsAppendTwo(s.log, LoadComplete(body), InsertComplete);
      }
    case Failure(body, _) =>
      if s.inFlight {
        CountsAppend(s.log, LoadFailure(body));
      }
  }

  /** Every sequence of inputs preserves the invariant. */
  lemma {:induction false} RunValid(s: State, ins: seq<Input>)
    requires Valid(s)
    ensures Valid(Run(s, ins))
    decreases |ins|
  {
    if ins != [] {
      StepValid(s, ins[0]);
      RunValid(Step(s, ins[0]), ins[1..]);
    }
  }

  /** At most one fetch is in flight, whatever happens after creation: the
      fetches started exceed the answers received by at most one. */
  lemma AtMostOneInFlight(container: seq<string>, arg: Configuration.GeneratorArg,
                          overrides: Configuration.Overrides, ins: seq<Input>)
    ensures var t := Run(Initial(container, arg, overrides), ins);
            Completions(t.log) <= Starts(t.log) <= Completions(t.log) + 1
  {
    RunValid(Initial(container, arg, overrides), ins);
  }

  /** The container and the log only grow at the end: what was there stays
      unchanged. */
  lemma {:induction false} RunAppendOnly(s: State, ins: seq<Input>)
    ensures |s.container| <= |Run(s, ins).container|
    ensures Run(s, ins).container[..|s.container|] == s.container
    ensures |s.log| <= |Run(s, ins).log|
    ensures Run(s, ins).log[..|s.log|] == s.log
    decreases |ins|
  {
    if ins != [] {
      var t := Step(s, ins[0]);
      assert t.container[..|s.container|] == s.container;
      assert t.log[..|s.log|] == s.log;
      RunAppendOnly(t, ins[1..]);
      var u := Run(t, ins[1..]);
      assert u.container[..|s.container|] == u.container[..|t.container|][..|s.container|];
      assert u.log[..|s.log|] == u.log[..|t.log|][..|s.log|];
    }
  }

  /** Stopping the timer is irreversible. */
  lemma {:induction false} StoppedStaysStopped(s: State, ins: seq<Input>)
    requires s.timer == Stopped
    ensures Run(s, ins).timer == Stopped
    decreases |ins|
  {
    if ins != [] {
      StoppedStaysStopped(Step(s, ins[0]), ins[1..]);
    }
  }

  /** Once the flag is set with no request outstanding, nothing changes any
      more: no tick can start a fetch and no answer can arrive. */
  lemma {:induction false} BlockedIsFrozen(s: State, ins: seq<Input>)
    requires Blocked(s)
    ensures Run(s, ins) == s
    decreases |ins|
  {
    if ins != [] {
      assert Step(s, ins[0]) == s;
      BlockedIsFrozen(s, ins[1..]);
    }
  }

  /** Once the timer has stopped, nothing changes any more. */
  lemma {:induction false} StoppedIsFrozen(s: State, ins: seq<Input>)
    requires Valid(s) && s.timer == Stopped
    ensures Run(s, ins) == s
    decreases |ins|
  {
    if ins != [] {
      assert Step(s, ins[0]) == s;
      StoppedIsFrozen(s, ins[1..]);
    }
  }

  /** While a request is outstanding, no sequence of ticks changes anything;
      in particular none starts a second fetch. */
  lemma {:induction false} TicksNeverOverlap(s: State, ins: seq<Input>)
    requires Valid(s) && s.inFlight
    requires forall k :: 0 <= k < |ins| ==> ins[k].Tick?
    ensures Run(s, ins) == s
    decreases |ins|
  {
    if ins != [] {
      assert Step(s, ins[0]) == s;
      TicksNeverOverlap(s, ins[1..]);
    }
  }

  /** A tick starts a fetch exactly when the scroller is attached and armed,
      the flag is clear and the page end is nearer than the trigger height.
      A fetch sets the flag, calls `onSegmentLoadStart` and then makes one
      request; a tick that does not fire changes nothing. */
  lemma TickFiresIff(s: State, r: Viewport.Readings)
    ensures var t := Step(s, Tick(r));
            Starts(t.log) == Starts(s.log) + (if Fires(s, r) then 1 else 0)
    ensures Fires(s, r) ==> var t := Step(s, Tick(r));
              t.updateInProgress && t.inFlight && t.placeholderVisible && t.container == s.container
              && |t.log| == |s.log| + 2 && t.log[..|s.log|] == s.log
              && t.log[|s.log|] == LoadStart && t.log[|s.log| + 1].Request?
    ensures !Fires(s, r) ==> Step(s, Tick(r)) == s
  {
    if Fires(s, r) {
      var (src, url) := NextUrl(s.source);
      CountsAppendTwo(s.log, LoadStart, Request(url));
    }
  }

  /** With the default generator, the n-th fetch requests the template with
      its first `$page_num$` replaced by `start_index + n * default_spacing`. */
  lemma TemplateRequestUrl(s: State, r: Viewport.Readings)
    requires Valid(s) && s.source.Default? && Fires(s, r)
    ensures var g := s.source.fields; var n := Requests(s.log) + 1;
            Step(s, Tick(r)).log == s.log + [LoadStart, Request(FromTemplate(
              UrlGenerator.UrlFor(g.url, g.startIndex + n * g.defaultSpacing)))]
  {
    var g := s.source.fields;
    var n := Requests(s.log) + 1;
    UrlGenerator.AdvanceStep(g, n - 1);
    var h := UrlGenerator.Advance(g);
    assert h.currentIndex.value == g.startIndex + n * g.defaultSpacing;
    assert NextUrl(s.source).1 == FromTemplate(UrlGenerator.UrlFor(g.url, g.startIndex + n * g.defaultSpacing));
    assert Step(s, Tick(r)) == StartFetch(s.(updateInProgress := true));
  }

  /** With a caller's generator, every fetch calls its `next()` once more. */
  lemma CustomRequestUrl(s: State, r: Viewport.Readings)
    requires Valid(s) && s.source.Custom? && Fires(s, r)
    ensures Step(s, Tick(r)).log == s.log + [LoadStart, Request(FromCustom(s.source.next, Requests(s.log)))]
    ensures Step(s, Tick(r)).source == Custom(s.source.next, Requests(s.log) + 1)
  {
  }

  /** A successful answer of at least 300 characters: `onSegmentLoadComplete`,
      the body appended at the end, the placeholder hidden, the flag
      cleared, `onSegmentInsertComplete` last; the timer keeps running. */
  lemma SuccessAppends(s: State, body: string)
    requires Valid(s) && s.inFlight && |body| >= EndOfContentLength
    ensures var t := Step(s, Success(body));
            t.container == s.container + [body]
            && t.log == s.log + [LoadComplete(body), InsertComplete]
            && !t.placeholderVisible && !t.updateInProgress && !t.inFlight
            && t.timer == Armed
  {
  }

  /** A successful answer shorter than 300 characters is still appended and
      still clears the flag, but stops the timer: after it nothing ever
      changes, so no fetch is ever started again. */
  lemma {:induction false} ShortResponseEnds(s: State, body: string, ins: seq<Input>)
    requires Valid(s) && s.inFlight && |body| < EndOfContentLength
    ensures var t := Step(s, Success(body));
            t.container == s.container + [body]
            && t.log == s.log + [LoadComplete(body), InsertComplete]
            && !t.updateInProgress && t.timer == Stopped
            && Run(t, ins) == t
  {
    var t := Step(s, Success(body));
    StepValid(s, Success(body));
    StoppedIsFrozen(t, ins);
  }

  /** A failed request calls `onSegmentLoadFaliure`, leaves the earlier
      segments as they are (at most the failure notice is added after them)
      and never clears the flag: after it nothing ever changes. */
  lemma {:induction false} FailureBlocksForever(s: State, body: string, noticeInserted: bool, ins: seq<Input>)
    requires Valid(s) && s.inFlight
    ensures var t := Step(s, Failure(body, noticeInserted));
            t.log == s.log + [LoadFailure(body)]
            && t.container[..|s.container|] == s.container
            && t.container == (if noticeInserted then s.container + [FailureNotice(s.options.failureMessage)]
                               else s.container)
            && Blocked(t)
            && Run(t, ins) == t
  {
    var t := Step(s, Failure(body, noticeInserted));
    BlockedIsFrozen(t, ins);
  }
}
