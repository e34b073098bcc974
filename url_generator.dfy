/** The default URL generator `thepaw.ContinousScroller.DefaultUrlGenerator`
    (cscroller.js:243-257): a counter that starts lazily at `start_index`,
    advances by `default_spacing` on every call, and is substituted for the
    first `$page_num$` of the URL template. */
module UrlGenerator {
  import opened Optional
  import opened Strings

  /** The placeholder token of a URL template. */
  const PageNumToken: string := "$page_num$"

  /** The template used when the generator's `url` is null (cscroller.js:252). */
  const DefaultTemplate: string := "?page=$page_num$"

  const DefaultStartIndex: int := 1
  const DefaultSpacing: int := 1

  /** The fields of a (merged) default generator. `currentIndex` is `None`
      while it is still `undefined`, i.e. before the first call. */
  datatype GenFields = GenFields(
    url: Option<string>,
    startIndex: int,
    defaultSpacing: int,
    currentIndex: Option<int>)

  /** The template in effect: the caller's `url`, or the default one. */
  function Template(url: Option<string>): (t: string)
    ensures url.None? ==> t == DefaultTemplate
    ensures url.Some? ==> t == url.value
  {
    url.GetOr(DefaultTemplate)
  }

  /** The URL for page index `index`: the template with its first
      `$page_num$` replaced by the decimal text of the index. */
  function UrlFor(url: Option<string>, index: int): (u: string)
    ensures (forall j: nat :: !OccursAt(Template(url), PageNumToken, j)) ==> u == Template(url)
    ensures forall i: nat :: IsFirstOccurrence(Template(url), PageNumToken, i) ==>
              u == Template(url)[..i] + IntToString(index) + Template(url)[i + |PageNumToken|..]
  {
    ReplaceFirst(Template(url), PageNumToken, IntToString(index))
  }

  /** The counter update of one `next()` call (cscroller.js:249-250): an
      undefined counter first becomes `start_index`, then the counter moves
      by `default_spacing`. Nothing else changes. */
  function Advance(g: GenFields): (r: GenFields)
    ensures r.(currentIndex := g.currentIndex) == g
    ensures r.currentIndex.Some?
    ensures g.currentIndex.Some? ==> r.currentIndex.value - g.currentIndex.value == g.defaultSpacing
    ensures g.currentIndex.None? ==> r.currentIndex.value - g.startIndex == g.defaultSpacing
  {
    var base := if g.currentIndex.None? then g.startIndex else g.currentIndex.value;
    g.(currentIndex := Some(base + g.defaultSpacing))
  }

  /** The counter after `n` calls on a fresh generator. */
  function IndexAfter(g: GenFields, n: nat): Option<int> {
    if n == 0 then None else Some(g.startIndex + n * g.defaultSpacing)
  }

  /** `n` successive calls of `next()`. */
  function Calls(g: GenFields, n: nat): GenFields {
    if n == 0 then g else Advance(Calls(g, n - 1))
  }

  /** One call advances a counter that stands at `IndexAfter(g, n)` to
      `IndexAfter(g, n + 1)`, and changes nothing else. */
  lemma AdvanceStep(g: GenFields, n: nat)
    requires g.currentIndex == IndexAfter(g, n)
    ensures Advance(g).currentIndex == IndexAfter(g, n + 1)
    ensures Advance(g).(currentIndex := g.currentIndex) == g
  {
    assert (n + 1) * g.defaultSpacing == n * g.defaultSpacing + g.defaultSpacing;
  }

  /** After `n` calls on a fresh generator the counter is
      `start_index + n * default_spacing`, and the other fields are unchanged.
      In particular the first call yields `start_index + default_spacing`,
      not `start_index`. */
  lemma {:induction false} CallsIndex(g: GenFields, n: nat)
    requires g.currentIndex.None?
    ensures Calls(g, n).currentIndex == IndexAfter(g, n)
    ensures Calls(g, n).(currentIndex := None) == g
  {
    if n > 0 {
      CallsIndex(g, n - 1);
      var h := Calls(g, n - 1);
      assert h.startIndex == g.startIndex && h.defaultSpacing == g.defaultSpacing;
      AdvanceStep(h, n - 1);
    }
  }

  /** The URL of the n-th call of a fresh generator. */
  lemma NthUrl(g: GenFields, n: nat)
    requires g.currentIndex.None? && n >= 1
    ensures Calls(g, n).currentIndex.Some?
    ensures UrlFor(Calls(g, n).url, Calls(g, n).currentIndex.value)
            == ReplaceFirst(Template(g.url), PageNumToken, IntToString(g.startIndex + n * g.defaultSpacing))
  {
    CallsIndex(g, n);
  }

  /** With a null `url` the n-th index `i` gives exactly `"?page=" + i`. */
  lemma DefaultTemplateUrl(index: int)
    ensures UrlFor(None, index) == "?page=" + IntToString(index)
  {
    var t := DefaultTemplate;
    assert |t| == 16 && t[6..16] == PageNumToken;
    assert OccursAt(t, PageNumToken, 6);
    assert t[..6] == "?page=";
    forall j: nat | j < 6 ensures !OccursAt(t, PageNumToken, j) {
      assert t[j] == t[..6][j] != '$';
      assert t[j..j + |PageNumToken|][0] != PageNumToken[0];
    }
    assert IsFirstOccurrence(t, PageNumToken, 6);
    assert t[6 + |PageNumToken|..] == "";
  }

  /** With a non-zero spacing and a template that holds the token, two
      different calls never give the same URL. */
  lemma UrlsNeverRepeat(g: GenFields, m: nat, n: nat, i: nat)
    requires g.currentIndex.None? && 1 <= m < n
    requires g.defaultSpacing != 0
    requires IsFirstOccurrence(Template(g.url), PageNumToken, i)
    ensures UrlFor(g.url, g.startIndex + m * g.defaultSpacing)
            != UrlFor(g.url, g.startIndex + n * g.defaultSpacing)
  {
    var a, b := g.startIndex + m * g.defaultSpacing, g.startIndex + n * g.defaultSpacing;
    assert b - a == (n - m) * g.defaultSpacing;
    assert a != b;
    IntToStringInjective(a, b);
    if UrlFor(g.url, a) == UrlFor(g.url, b) {
      ReplaceFirstInjective(Template(g.url), PageNumToken, IntToString(a), IntToString(b), i);
    }
  }

  /** A merged default generator as the JavaScript object it is: the
      configuration fields are never written, `current_index` is written by
      every `next()` call. */
  class DefaultUrlGenerator {
    const url: Option<string>
    const startIndex: int
    const defaultSpacing: int
    var currentIndex: Option<int>
    /** The number of `next()` calls so far. */
    ghost var calls: nat

    ghost predicate Valid()
      reads this
    {
      currentIndex == IndexAfter(Fields(), calls)
    }

    /** The generator's fields as a value. */
    function Fields(): GenFields
      reads this
    {
      GenFields(url, startIndex, defaultSpacing, currentIndex)
    }

    /** A generator whose counter is still undefined. */
    constructor (fields: GenFields)
      requires fields.currentIndex.None?
      ensures Valid() && Fields() == fields && calls == 0
    {
      url := fields.url;
      startIndex := fields.startIndex;
      defaultSpacing := fields.defaultSpacing;
      currentIndex := None;
      calls := 0;
    }

    /** `next()`: advance the counter, then substitute it into the template.
        The n-th call returns the URL for `start_index + n * default_spacing`. */
    method Next() returns (u: string)
      requires Valid()
      modifies this
      ensures Valid() && calls == old(calls) + 1
      ensures Fields() == Advance(old(Fields()))
      ensures currentIndex == Some(startIndex + calls * defaultSpacing)
      ensures u == UrlFor(url, startIndex + calls * defaultSpacing)
    {
      AdvanceStep(Fields(), calls);
      if currentIndex.None? {
        currentIndex := Some(startIndex);
      }
      currentIndex := Some(currentIndex.value + defaultSpacing);
      calls := calls + 1;
      u := ReplaceFirst(Template(url), PageNumToken, IntToString(currentIndex.value));
    }
  }
}
