/** `thepaw.ContinousScroller` (cscroller.js:53-135) as an object whose
    fields the tick and the Ajax continuations update in place. `Tick`,
    `OnSuccess` and `OnFailure` are proved to have exactly the effect
    `Scheduler.Step` gives the same input, and `GetMoreContent` exactly the
    effect of `Scheduler.StartFetch`, so the properties proved there hold
    of the object. */
module Scroller {
  import Viewport
  import UrlGenerator
  import Configuration
  import Scheduler

  /** `this.url_generator`: the caller's object, or a merged default
      generator object. */
  datatype UrlSource =
    | Custom(next: Configuration.NextFn)
    | Default(gen: UrlGenerator.DefaultUrlGenerator)
  {
    /** The objects a `next()` call may change. */
    function Objects(): set<object> {
      match this
      case Custom(_) => {}
      case Default(g) => {g}
    }
  }

  class ContinousScroller {
    /** `this.options`, resolved once. */
    const options: Configuration.Options
    /** `this.url_generator`, chosen once. */
    const urlGenerator: UrlSource
    /** `this.updateInProgress`. */
    var updateInProgress: bool
    /** `this.updater`, the `PeriodicalExecuter`. */
    var timer: Scheduler.Timer
    /** Whether `this.updater.target_obj` is set. */
    var attached: bool
    /** The segments of the container element `div_id`. */
    var container: seq<string>
    /** Whether the loading placeholder is shown. */
    var placeholderVisible: bool
    /** Whether an Ajax request is outstanding. */
    ghost var inFlight: bool
    /** How often the caller's `next()` has been called. */
    ghost var customCalls: nat
    /** The callbacks invoked and requests made so far. */
    ghost var log: seq<Scheduler.Event>

    /** The object as a `Scheduler.State`. */
    ghost function Abstract(): Scheduler.State
      reads this, urlGenerator.Objects()
    {
      Scheduler.State(options, attached, updateInProgress, timer, inFlight, container,
                      placeholderVisible,
                      match urlGenerator
                      case Custom(f) => Scheduler.Custom(f, customCalls)
                      case Default(g) => Scheduler.Default(g.Fields()),
                      log)
    }

    ghost predicate Valid()
      reads this, urlGenerator.Objects()
    {
      && Scheduler.Valid(Abstract())
      && (urlGenerator.Default? ==> urlGenerator.gen.Valid())
    }

    /** `initialize(content_div_id, url_generator, options)`: resolve the
        options and the generator, clear the flag, insert the placeholder
        and start the timer. */
    constructor (initialContainer: seq<string>, generator: Configuration.GeneratorArg,
                 overrides: Configuration.Overrides)
      ensures Valid()
      ensures Abstract() == Scheduler.Initial(initialContainer, generator, overrides)
      ensures urlGenerator.Default? ==> fresh(urlGenerator.gen)
    {
      options := Configuration.Resolve(overrides);
      var choice := Configuration.SelectGenerator(generator);
      match choice {
        case UseCustom(arg) =>
          urlGenerator := Custom(arg.next.value);
        case UseDefault(fields) =>
          var g := new UrlGenerator.DefaultUrlGenerator(fields);
          urlGenerator := Default(g);
      }
      updateInProgress := false;
      container := initialContainer;
      placeholderVisible := true;
      inFlight := false;
      customCalls := 0;
      log := [];
      timer := Scheduler.Armed;
      attached := true;
    }

    /** The periodic callback (cscroller.js:84-93). The executer only ticks
        while it has not been stopped. */
    method Tick(readings: Viewport.Readings)
      requires Valid() && timer == Scheduler.Armed
      modifies this, urlGenerator.Objects()
      ensures Valid()
      ensures Abstract() == Scheduler.Step(old(Abstract()), Scheduler.Tick(readings))
      ensures old(updateInProgress) ==> Abstract() == old(Abstract())
    {
      if !attached {
        return;
      }
      var pageHeight := Viewport.PageHeight(readings);
      var scrolled := Viewport.ScrollHeight(readings);
      if !updateInProgress && Viewport.NearBottom(pageHeight, scrolled, options.triggerHeight) {
        updateInProgress := true;
        GetMoreContent();
      }
    }

    /** `getMoreContent` up to the request: show the placeholder, call
        `onSegmentLoadStart`, then request the generator's next URL. */
    method GetMoreContent()
      requires Valid() && updateInProgress && !inFlight && timer == Scheduler.Armed
      modifies this, urlGenerator.Objects()
      ensures Valid()
      ensures Abstract() == Scheduler.StartFetch(old(Abstract()))
    {
      ghost var before := Abstract();
      placeholderVisible := true;
      log := log + [Scheduler.LoadStart];
      ghost var url: Scheduler.RequestUrl;
      match urlGenerator {
        case Custom(f) =>
          url := Scheduler.FromCustom(f, customCalls);
          customCalls := customCalls + 1;
        case Default(g) =>
          var u := g.Next();
          url := Scheduler.FromTemplate(u);
      }
      assert Scheduler.NextUrl(before.source) == (Abstract().source, url);
      log := log + [Scheduler.Request(url)];
      inFlight := true;
      assert log == before.log + [Scheduler.LoadStart, Scheduler.Request(url)];
      assert Abstract() == Scheduler.StartFetch(before);
      Scheduler.StartFetchValid(before);
    }

    /** `onSuccess` (cscroller.js:108-119). */
    method OnSuccess(body: string)
      requires Valid() && inFlight
      modifies this
      ensures Valid()
      ensures Abstract() == Scheduler.Step(old(Abstract()), Scheduler.Success(body))
      ensures container == old(container) + [body]
      ensures (timer == Scheduler.Stopped) <==> |body| < Scheduler.EndOfContentLength
      ensures !updateInProgress && !inFlight
    {
      ghost var before := Abstract();
      log := log + [Scheduler.LoadComplete(body)];
      if |body| < Scheduler.EndOfContentLength {
        timer := Scheduler.Stopped;
      }
      container := container + [body];
      placeholderVisible := false;
      updateInProgress := false;
      inFlight := false;
      log := log + [Scheduler.InsertComplete];
      assert log == before.log + [Scheduler.LoadComplete(body), Scheduler.InsertComplete];
      assert Abstract() == Scheduler.Step(before, Scheduler.Success(body));
      Scheduler.StepValid(before, Scheduler.Success(body));
    }

    /** `onFailure` (cscroller.js:122-128). The flag is not cleared. */
    method OnFailure(body: string, noticeInserted: bool)
      requires Valid() && inFlight
      modifies this
      ensures Valid()
      ensures Abstract() == Scheduler.Step(old(Abstract()), Scheduler.Failure(body, noticeInserted))
      ensures updateInProgress && !inFlight
      ensures container[..|old(container)|] == old(container)
    {
      ghost var before := Abstract();
      log := log + [Scheduler.LoadFailure(body)];
      if noticeInserted {
        container := container + [Scheduler.FailureNotice(options.failureMessage)];
      }
      inFlight := false;
      assert Abstract() == Scheduler.Step(before, Scheduler.Failure(body, noticeInserted));
      Scheduler.StepValid(before, Scheduler.Failure(body, noticeInserted));
    }
  }
}
