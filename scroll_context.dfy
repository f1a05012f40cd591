/**
 * The focus-to-scroll notification path. Each Scroll publishes its
 * `onChildFocus` handler through a context Provider for its subtree; a
 * focusable reads the nearest Provider's value (or the `null` default when
 * there is none) and, on a focus-gain edge only, sends it its bounding box.
 *
 * The tree scoping of React context is modelled as an explicit stack of the
 * Scroll containers enclosing the current point of the tree, innermost last,
 * and the handler calls as a log of notifications.
 */
module ScrollContext {
  import opened Wrappers
  import opened Scroll
  import opened OnFocusedChange
  import opened Edges

  /** A call of some Scroll's `notifyScrollOnFocus` with `{ boundingBox }`. */
  datatype Notification = Notification(target: DefaultScroll, boundingBox: ClientRect)

  /** The context value seen below `providers`: the innermost Provider's handler, or `null`. */
  function Nearest(providers: seq<DefaultScroll>): (r: Option<DefaultScroll>)
    ensures r.None? <==> providers == []
    ensures r.Some? ==> r.value in providers
  {
    if providers == [] then None else Some(providers[|providers| - 1])
  }

  /** A nested Scroll shadows every enclosing one, whatever they are. */
  lemma NestedScrollShadows(outer: seq<DefaultScroll>, inner: DefaultScroll, other: DefaultScroll)
    requires other in outer && other != inner
    ensures Nearest(outer + [inner]) == Some(inner)
    ensures Nearest(outer + [inner]) != Some(other)
  {
  }

  /** The Provider scopes around the current point of the tree, and every notification sent so far. */
  class ScrollContextStack {
    var providers: seq<DefaultScroll>
    var log: seq<Notification>

    /** Outside every Scroll, with nothing sent. */
    constructor ()
      ensures providers == [] && log == []
    {
      providers := [];
      log := [];
    }

    /** `useContext(ScrollContext)`: the innermost enclosing Provider's value, or the `null` default. */
    function Context(): (r: Option<DefaultScroll>)
      reads this
      ensures r.None? <==> providers == []
      ensures r.Some? ==> r.value == providers[|providers| - 1]
    {
      Nearest(providers)
    }

    /** Entering `<ScrollContext.Provider value={contextValue}>` of `scroll`. */
    method Enter(scroll: DefaultScroll)
      modifies this`providers
      ensures providers == old(providers) + [scroll]
      ensures Context() == Some(scroll)
    {
      providers := providers + [scroll];
    }

    /** Leaving the innermost Provider: the enclosing handler is visible again. */
    method Leave()
      requires providers != []
      modifies this`providers
      ensures providers == old(providers)[..|old(providers)| - 1]
      ensures old(providers) == providers + [old(Context()).value]
    {
      providers := providers[..|providers| - 1];
    }

    /** Calling `notifyScrollOnFocus` of the context value `target` with a bounding box. */
    method Notify(target: DefaultScroll, boundingBox: ClientRect)
      modifies this`log
      ensures log == old(log) + [Notification(target, boundingBox)]
    {
      log := log + [Notification(target, boundingBox)];
    }
  }

  /** What the focus tree reports for a focusable and `useFocusable` hands back. */
  datatype FocusableData = FocusableData(focused: bool, path: seq<string>)

  /**
   * `useFocusable`: the hook's own state is the previous-value cell of the
   * `useOnFocusedChange` it calls. The focus key and the options are only
   * passed on to the focus tree, which is left out, so they do not appear here.
   */
  class FocusableHook {
    const onFocusedChange: FocusedChangeDetector

    constructor (initial: FocusableData)
      ensures fresh(onFocusedChange) && onFocusedChange.prev == initial.focused
    {
      onFocusedChange := new FocusedChangeDetector(initial.focused);
    }

    /**
     * One render and commit, with the focus tree's `data`, the Provider stack
     * `context` at the focusable's place in the tree, and `element`, the
     * bounding box of `ref.current` (`None` while the ref is unset). The ref is
     * dereferenced without a guard on a focus gain inside a Scroll.
     * On a focus gain exactly one notification, to the nearest Scroll, is sent;
     * never on a focus loss or without an enclosing Scroll.
     */
    method Render(data: FocusableData, context: ScrollContextStack, element: Option<ClientRect>)
      returns (r: FocusableData)
      requires Rising(onFocusedChange.prev, data.focused) && context.Context().Some? ==> element.Some?
      modifies onFocusedChange, context`log
      ensures r == data
      ensures onFocusedChange.prev == data.focused
      ensures context.log == old(context.log) +
        if Rising(old(onFocusedChange.prev), data.focused) && old(context.Context()).Some?
        then [Notification(old(context.Context()).value, element.value)]
        else []
    {
      var contextValue := context.Context();
      var call := onFocusedChange.Observe(data.focused, true);
      if call.Some? {
        var isFocused := call.value;
        if isFocused && contextValue.Some? {
          context.Notify(contextValue.value, element.value);
        }
      }
      r := data;
    }
  }

  /**
   * A focusable mounted inside `scroll` (or inside no Scroll), rendered once
   * per focus state of `s` while its bounding box stays `boundingBox`: the
   * Scroll receives one notification per focus gain, and nothing else is sent.
   */
  method RunFocusableHook(s: seq<bool>, path: seq<string>,
                          scroll: Option<DefaultScroll>, boundingBox: ClientRect)
    returns (log: seq<Notification>)
    requires s != []
    ensures scroll.None? ==> log == []
    ensures scroll.Some? ==> |log| == RisingEdges(s)
    ensures scroll.Some? ==> forall j :: 0 <= j < |log| ==> log[j] == Notification(scroll.value, boundingBox)
  {
    var context := new ScrollContextStack();
    if scroll.Some? {
      context.Enter(scroll.value);
    }
    var hook := new FocusableHook(FocusableData(s[0], path));
    var i := 0;
    while i < |s|
      invariant 0 <= i <= |s|
      invariant hook.onFocusedChange.prev == LastOr(s[0], s[..i])
      invariant context.Context() == scroll
      invariant scroll.None? ==> context.log == []
      invariant scroll.Some? ==> |context.log| == RisingCalls(s[0], s[..i])
      invariant scroll.Some? ==> forall j :: 0 <= j < |context.log| ==> context.log[j] == Notification(scroll.value, boundingBox)
    {
      assert s[..i + 1][..i] == s[..i];
      var _ := hook.Render(FocusableData(s[i], path), context, Some(boundingBox));
      i := i + 1;
    }
    assert s[..|s|] == s;
    RisingCallsCount(s);
    log := context.log;
  }
}
