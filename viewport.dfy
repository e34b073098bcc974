/** The viewport measurements of `thepaw.third_party` (cscroller.js:263-318).
    Each browser property is an optional integer reading: `None` stands for
    `undefined`, a missing object, or a `NaN` produced from one. A reading
    of `0` is present but falsy, so the fallback chains skip it. */
module Viewport {
  import opened Optional

  /** The properties read from `document.documentElement` or `document.body`. */
  datatype Element = Element(
    clientWidth: Option<int>,
    clientHeight: Option<int>,
    scrollTop: Option<int>,
    scrollHeight: Option<int>,
    offsetHeight: Option<int>)

  /** The properties read from `self` (the window). */
  datatype Window = Window(
    innerWidth: Option<int>,
    innerHeight: Option<int>,
    pageYOffset: Option<int>)

  /** One snapshot of everything the three functions read. */
  datatype Readings = Readings(
    window: Window,
    documentElement: Option<Element>,
    body: Option<Element>)

  /** JavaScript truthiness of a numeric reading: present and non-zero. */
  predicate Truthy(v: Option<int>) {
    v.Some? && v.value != 0
  }

  /** `getPageHeight`: `scrollHeight` when it is strictly greater than
      `offsetHeight`, otherwise `offsetHeight`. With no `document.body` the
      source throws; that, like `NaN`, is `None` here. */
  function PageHeight(r: Readings): (h: Option<int>)
    ensures r.body.Some? && r.body.value.scrollHeight.Some? && r.body.value.offsetHeight.Some? ==>
              h.Some? && h.value >= r.body.value.scrollHeight.value && h.value >= r.body.value.offsetHeight.value
              && (h.value == r.body.value.scrollHeight.value || h.value == r.body.value.offsetHeight.value)
    ensures r.body.None? ==> h.None?
    ensures r.body.Some? && r.body.value.offsetHeight.None? ==> h.None?
    ensures r.body.Some? && r.body.value.scrollHeight.None? ==> h == r.body.value.offsetHeight
  {
    match r.body
    case None => None
    case Some(b) =>
      if b.scrollHeight.Some? && b.offsetHeight.Some? && b.scrollHeight.value > b.offsetHeight.value
      then b.scrollHeight
      else b.offsetHeight
  }

  /** `_getWindowHeight`: the height that goes with the first truthy width
      among the window, the document element and (if present) the body.
      When no branch applies the source reads a leaked global; here the
      reading is absent. */
  function WindowHeight(r: Readings): (h: Option<int>)
    ensures h == FirstUsable(WindowHeightChain(r))
  {
    ThreeStepChain(WindowHeightChain(r));
    if Truthy(r.window.innerWidth) then r.window.innerHeight
    else if r.documentElement.Some? && Truthy(r.documentElement.value.clientWidth)
    then r.documentElement.value.clientHeight
    else if r.body.Some? then r.body.value.clientHeight
    else None
  }

  /** The vertical scroll offset chosen by `getScrollHeight`: the first
      truthy of `pageYOffset` and the document element's `scrollTop`,
      otherwise the body's `scrollTop`. */
  function ScrollOffset(r: Readings): (y: Option<int>)
    ensures y == FirstUsable(ScrollOffsetChain(r))
  {
    ThreeStepChain(ScrollOffsetChain(r));
    if Truthy(r.window.pageYOffset) then r.window.pageYOffset
    else if r.documentElement.Some? && Truthy(r.documentElement.value.scrollTop)
    then r.documentElement.value.scrollTop
    else if r.body.Some? then r.body.value.scrollTop
    else None
  }

  /** `getScrollHeight`: the scroll offset plus the window height, i.e. the
      page coordinate of the bottom edge of the visible area. `NaN` when
      either part is. */
  function ScrollHeight(r: Readings): (y: Option<int>)
    ensures y.Some? <==> ScrollOffset(r).Some? && WindowHeight(r).Some?
    ensures y.Some? ==> y.value == ScrollOffset(r).value + WindowHeight(r).value
  {
    match (ScrollOffset(r), WindowHeight(r))
    case (Some(o), Some(h)) => Some(o + h)
    case _ => None
  }

  /** The trigger test of the tick (cscroller.js:88-89): the distance from
      the bottom of the visible area to the end of the page is strictly
      less than the trigger height. A comparison with `NaN` is false. */
  function NearBottom(pageHeight: Option<int>, scrolled: Option<int>, triggerHeight: int): (b: bool)
    ensures b ==> pageHeight.Some? && scrolled.Some?
    ensures pageHeight.Some? && scrolled.Some? && pageHeight.value - scrolled.value >= triggerHeight ==> !b
    ensures pageHeight.Some? && scrolled.Some? && pageHeight.value - scrolled.value < triggerHeight ==> b
  {
    pageHeight.Some? && scrolled.Some? && pageHeight.value - scrolled.value < triggerHeight
  }

  /** One step of a truthiness fallback chain: a guard, and the reading
      used when the guard is the first one that holds. */
  datatype Candidate = Candidate(guard: bool, reading: Option<int>)

  /** Reference definition of a fallback chain: the reading of the first
      candidate whose guard holds, absent if none does. */
  function FirstUsable(chain: seq<Candidate>): (v: Option<int>)
    ensures v.Some? ==> exists k :: 0 <= k < |chain| && chain[k].guard && chain[k].reading == v
  {
    if chain == [] then None
    else if chain[0].guard then chain[0].reading
    else FirstUsable(chain[1..])
  }

  /** The window-height chain of `_getWindowHeight`, in source order. */
  function WindowHeightChain(r: Readings): seq<Candidate> {
    [ Candidate(Truthy(r.window.innerWidth), r.window.innerHeight),
      Candidate(r.documentElement.Some? && Truthy(r.documentElement.value.clientWidth),
                if r.documentElement.Some? then r.documentElement.value.clientHeight else None),
      Candidate(r.body.Some?, if r.body.Some? then r.body.value.clientHeight else None) ]
  }

  /** The scroll-offset chain of `getScrollHeight`, in source order. */
  function ScrollOffsetChain(r: Readings): seq<Candidate> {
    [ Candidate(Truthy(r.window.pageYOffset), r.window.pageYOffset),
      Candidate(r.documentElement.Some? && Truthy(r.documentElement.value.scrollTop),
                if r.documentElement.Some? then r.documentElement.value.scrollTop else None),
      Candidate(r.body.Some?, if r.body.Some? then r.body.value.scrollTop else None) ]
  }

  /** A chain of three candidates unrolled into nested choices. */
  lemma ThreeStepChain(c: seq<Candidate>)
    requires |c| == 3
    ensures FirstUsable(c) ==
              if c[0].guard then c[0].reading
              else if c[1].guard then c[1].reading
              else if c[2].guard then c[2].reading
              else None
  {
    assert c[1..][1..][1..] == [];
    assert FirstUsable(c[1..][1..]) == if c[2].guard then c[2].reading else None;
  }

  /** When both page-height readings exist, the page height is their maximum. */
  lemma PageHeightIsMax(r: Readings, sh: int, oh: int)
    requires r.body.Some? && r.body.value.scrollHeight == Some(sh) && r.body.value.offsetHeight == Some(oh)
    ensures PageHeight(r) == Some(if sh > oh then sh else oh)
  {
  }

  /** A width of 0 counts as absent: the window-height chain moves on to
      the next source exactly as if `innerWidth` were undefined. */
  lemma ZeroInnerWidthIsAbsent(r: Readings)
    requires r.window.innerWidth == Some(0)
    ensures WindowHeight(r) == WindowHeight(r.(window := r.window.(innerWidth := None)))
  {
  }

  /** A scroll offset of 0 counts as absent: at the very top of the page
      the chain falls through to the document element, then the body. */
  lemma ZeroPageYOffsetIsAbsent(r: Readings)
    requires r.window.pageYOffset == Some(0)
    ensures ScrollOffset(r) == ScrollOffset(r.(window := r.window.(pageYOffset := None)))
  {
  }

  /** A page 2000 pixels high, scrolled by 500 in a 600-pixel window, is
      900 pixels from the bottom: that triggers with a trigger height of
      1000 and not with 500. */
  lemma TriggerExample()
    ensures var r := Readings(Window(Some(1024), Some(600), Some(500)), None,
                              Some(Element(Some(1024), Some(2000), Some(0), Some(2000), Some(2000))));
            NearBottom(PageHeight(r), ScrollHeight(r), 1000) && !NearBottom(PageHeight(r), ScrollHeight(r), 500)
  {
  }
}
