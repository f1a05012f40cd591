/**
 * `useOnFocus`: calls `onFocus` when the focused flag goes from false to true
 * between two renders, and never otherwise.
 */
module OnFocus {
  import opened Edges

  /** The hook's state: the `ref.current` cell of its `usePrevious`, seeded with the mounting value. */
  class FocusDetector {
    var prev: bool

    constructor (initial: bool)
      ensures prev == initial
    {
      prev := initial;
    }

    /**
     * One render and commit, observing `focused`; `hasOnFocus` says whether the
     * caller passed `onFocus`. Returns whether `onFocus` was called.
     */
    method Observe(focused: bool, hasOnFocus: bool) returns (called: bool)
      modifies this
      ensures prev == focused
      ensures called <==> Rising(old(prev), focused) && hasOnFocus
    {
      var prevFocused := prev;
      called := false;
      if prevFocused != focused {
        if focused && hasOnFocus {
          called := true;
        }
      }
      prev := focused;
    }
  }

  /**
   * Mounting the hook with the first value of `s` and rendering it once per
   * value of `s`: `onFocus` is called once per false-to-true edge.
   */
  method RunFocus(s: seq<bool>) returns (calls: nat)
    requires s != []
    ensures calls == RisingCalls(s[0], s)
    ensures calls == RisingEdges(s)
  {
    var detector := new FocusDetector(s[0]);
    calls := 0;
    var i := 0;
    while i < |s|
      invariant 0 <= i <= |s|
      invariant detector.prev == LastOr(s[0], s[..i])
      invariant calls == RisingCalls(s[0], s[..i])
    {
      assert s[..i + 1][..i] == s[..i];
      var called := detector.Observe(s[i], true);
      if called {
        calls := calls + 1;
      }
      i := i + 1;
    }
    assert s[..|s|] == s;
    RisingCallsCount(s);
  }
}
