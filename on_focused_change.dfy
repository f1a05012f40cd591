/**
 * `useOnFocusedChange`: calls a handler with the new value whenever the focused
 * flag differs from the one committed by the previous render.
 */
module OnFocusedChange {
  import opened Wrappers
  import opened Edges

  /**
   * The hook's state: the `ref.current` cell of its `usePrevious`, which is
   * initialised with the value of the mounting render and overwritten with the
   * current value after every commit.
   */
  class FocusedChangeDetector {
    var prev: bool

    constructor (initial: bool)
      ensures prev == initial
    {
      prev := initial;
    }

    /**
     * One render and commit, observing `focused`; `hasHandler` says whether the
     * caller passed a handler. Returns the argument the handler was called with,
     * if it was called.
     */
    method Observe(focused: bool, hasHandler: bool) returns (call: Option<bool>)
      modifies this
      ensures prev == focused
      ensures call == if Changed(old(prev), focused) && hasHandler then Some(focused) else None
    {
      var prevFocused := prev;
      call := None;
      if prevFocused != focused && hasHandler {
        call := Some(focused);
      }
      prev := focused;
    }
  }

  /**
   * Mounting the hook with the first value of `s` and rendering it once per
   * value of `s`: the handler receives exactly the changed values, one per
   * adjacent change and none at mount.
   */
  method RunFocusedChange(s: seq<bool>) returns (calls: seq<bool>)
    requires s != []
    ensures calls == ChangeCalls(s[0], s)
    ensures |calls| == Changes(s)
    ensures forall j :: 0 <= j < |calls| ==> calls[j] == (if j % 2 == 0 then !s[0] else s[0])
  {
    var detector := new FocusedChangeDetector(s[0]);
    calls := [];
    var i := 0;
    while i < |s|
      invariant 0 <= i <= |s|
      invariant detector.prev == LastOr(s[0], s[..i])
      invariant calls == ChangeCalls(s[0], s[..i])
    {
      assert s[..i + 1][..i] == s[..i];
      var call := detector.Observe(s[i], true);
      if call.Some? {
        calls := calls + [call.value];
      }
      i := i + 1;
    }
    assert s[..|s|] == s;
    ChangeCallsCount(s);
    ChangeCallsAlternate(s[0], s);
  }
}
