/** The scroller's options and its URL generator, as `initialize` resolves
    them (cscroller.js:73-75): the options are the defaults of
    `DefaultConfiguration` (cscroller.js:186-198) overlaid by the caller's,
    and the generator is either the caller's object (when it has `next`)
    or the default generator overlaid by the caller's fields. */
module Configuration {
  import opened Optional
  import UrlGenerator

  /** A callback slot: the default no-op, or a function of the caller's,
      whose behaviour is outside the model. */
  datatype Callback = NoOp | CallerFunction(id: nat)

  /** The resolved options. The keys `failiure_message` and
      `onSegmentLoadFaliure` are spelt that way in the source; only those
      spellings are recognised. */
  datatype Options = Options(
    checkInterval: real,
    triggerHeight: int,
    failureMessage: string,
    loadingPlaceholder: string,
    uid: string,
    onSegmentLoadStart: Callback,
    onSegmentLoadComplete: Callback,
    onSegmentInsertComplete: Callback,
    onSegmentLoadFailure: Callback)

  /** The caller's option hash: `None` for a key it does not give. */
  datatype Overrides = Overrides(
    checkInterval: Option<real>,
    triggerHeight: Option<int>,
    failureMessage: Option<string>,
    loadingPlaceholder: Option<string>,
    uid: Option<string>,
    onSegmentLoadStart: Option<Callback>,
    onSegmentLoadComplete: Option<Callback>,
    onSegmentInsertComplete: Option<Callback>,
    onSegmentLoadFailure: Option<Callback>)

  const DefaultFailureMessage: string :=
    "Error while trying to fetch the new items." + "Check your internet connection..."

  /** `DefaultConfiguration`. */
  const Defaults: Options := Options(
    0.2, 1000, DefaultFailureMessage, "Loading newer items...", "continous_scroller_uid",
    NoOp, NoOp, NoOp, NoOp)

  /** An empty option hash. */
  const NoOverrides: Overrides := Overrides(None, None, None, None, None, None, None, None, None)

  /** A hash that gives every key, with the values of `o`. */
  function AsOverrides(o: Options): Overrides {
    Overrides(Some(o.checkInterval), Some(o.triggerHeight), Some(o.failureMessage),
              Some(o.loadingPlaceholder), Some(o.uid), Some(o.onSegmentLoadStart),
              Some(o.onSegmentLoadComplete), Some(o.onSegmentInsertComplete),
              Some(o.onSegmentLoadFailure))
  }

  /** The key-wise overlay of `merge`: the overriding value wins. */
  function Overlay<T>(base: T, given: Option<T>): T {
    given.GetOr(base)
  }

  /** `$H(base).merge(overrides)`: every key the hash gives replaces the
      base value, every other key keeps it. */
  function Merge(base: Options, o: Overrides): (r: Options)
    ensures r.checkInterval ==
              if o.checkInterval.Some? then o.checkInterval.value else base.checkInterval
    ensures r.triggerHeight ==
              if o.triggerHeight.Some? then o.triggerHeight.value else base.triggerHeight
    ensures r.failureMessage ==
              if o.failureMessage.Some? then o.failureMessage.value else base.failureMessage
    ensures r.loadingPlaceholder ==
              if o.loadingPlaceholder.Some? then o.loadingPlaceholder.value else base.loadingPlaceholder
    ensures r.uid == if o.uid.Some? then o.uid.value else base.uid
    ensures r.onSegmentLoadStart ==
              if o.onSegmentLoadStart.Some? then o.onSegmentLoadStart.value else base.onSegmentLoadStart
    ensures r.onSegmentLoadComplete ==
              if o.onSegmentLoadComplete.Some? then o.onSegmentLoadComplete.value else base.onSegmentLoadComplete
    ensures r.onSegmentInsertComplete ==
              if o.onSegmentInsertComplete.Some? then o.onSegmentInsertComplete.value else base.onSegmentInsertComplete
    ensures r.onSegmentLoadFailure ==
              if o.onSegmentLoadFailure.Some? then o.onSegmentLoadFailure.value else base.onSegmentLoadFailure
  {
    Options(
      Overlay(base.checkInterval, o.checkInterval),
      Overlay(base.triggerHeight, o.triggerHeight),
      Overlay(base.failureMessage, o.failureMessage),
      Overlay(base.loadingPlaceholder, o.loadingPlaceholder),
      Overlay(base.uid, o.uid),
      Overlay(base.onSegmentLoadStart, o.onSegmentLoadStart),
      Overlay(base.onSegmentLoadComplete, o.onSegmentLoadComplete),
      Overlay(base.onSegmentInsertComplete, o.onSegmentInsertComplete),
      Overlay(base.onSegmentLoadFailure, o.onSegmentLoadFailure))
  }

  /** The options of a scroller created with the hash `o` (cscroller.js:73).
      Each is the caller's value when given, otherwise the documented
      default: 0.2 seconds, 1000 pixels, the default messages, and no-op
      callbacks. */
  function Resolve(o: Overrides): (r: Options)
    ensures r.checkInterval == if o.checkInterval.Some? then o.checkInterval.value else 0.2
    ensures r.triggerHeight == if o.triggerHeight.Some? then o.triggerHeight.value else 1000
    ensures r.failureMessage ==
              if o.failureMessage.Some? then o.failureMessage.value else DefaultFailureMessage
    ensures r.loadingPlaceholder ==
              if o.loadingPlaceholder.Some? then o.loadingPlaceholder.value else "Loading newer items..."
    ensures r.uid == if o.uid.Some? then o.uid.value else "continous_scroller_uid"
    ensures r.onSegmentLoadStart ==
              if o.onSegmentLoadStart.Some? then o.onSegmentLoadStart.value else NoOp
    ensures r.onSegmentLoadComplete ==
              if o.onSegmentLoadComplete.Some? then o.onSegmentLoadComplete.value else NoOp
    ensures r.onSegmentInsertComplete ==
              if o.onSegmentInsertComplete.Some? then o.onSegmentInsertComplete.value else NoOp
    ensures r.onSegmentLoadFailure ==
              if o.onSegmentLoadFailure.Some? then o.onSegmentLoadFailure.value else NoOp
  {
    Merge(Defaults, o)
  }

  /** Merging nothing keeps the base; merging a full hash gives that hash. */
  lemma MergeIdentities(base: Options, o: Options)
    ensures Merge(base, NoOverrides) == base
    ensures Merge(base, AsOverrides(o)) == o
  {
  }

  /** The caller's `next()`, whose results are outside the model. */
  datatype NextFn = NextFn(id: nat)

  /** The second argument of the constructor: a hash that may carry `next`,
      `url`, `start_index` and `default_spacing`. */
  datatype GeneratorArg = GeneratorArg(
    next: Option<NextFn>,
    url: Option<string>,
    startIndex: Option<int>,
    defaultSpacing: Option<int>)

  /** The generator a scroller uses: the caller's object, or the fields of a
      merged default generator. */
  datatype GeneratorChoice = UseCustom(arg: GeneratorArg) | UseDefault(fields: UrlGenerator.GenFields)

  /** cscroller.js:74-75: an argument with `next` is used verbatim;
      otherwise `DefaultUrlGenerator` is overlaid by the argument's fields. */
  function SelectGenerator(arg: GeneratorArg): (c: GeneratorChoice)
    ensures c.UseCustom? <==> arg.next.Some?
    ensures c.UseCustom? ==> c.arg == arg
    ensures c.UseDefault? ==> c.fields.currentIndex.None?
  {
    if arg.next.Some? then UseCustom(arg)
    else UseDefault(UrlGenerator.GenFields(
      arg.url,
      Overlay(UrlGenerator.DefaultStartIndex, arg.startIndex),
      Overlay(UrlGenerator.DefaultSpacing, arg.defaultSpacing),
      None))
  }

  /** The merged default generator takes each field from the argument when
      given, otherwise `url: null`, `start_index: 1`, `default_spacing: 1`. */
  lemma SelectDefaultFieldwise(arg: GeneratorArg)
    requires arg.next.None?
    ensures SelectGenerator(arg).UseDefault?
    ensures SelectGenerator(arg).fields.url == arg.url
    ensures SelectGenerator(arg).fields.startIndex == if arg.startIndex.Some? then arg.startIndex.value else 1
    ensures SelectGenerator(arg).fields.defaultSpacing ==
              if arg.defaultSpacing.Some? then arg.defaultSpacing.value else 1
  {
  }
}
