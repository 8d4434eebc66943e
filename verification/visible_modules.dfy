/**
 The callback protocol of `forAllVisibleModules`: the callback is given one
 visible module at a time and answers whether to go on. A callback that
 returns nothing is adapted by a wrapper that always answers "go on".

 Callbacks act on the caller's state, so here a callback takes that state
 and gives back the new one. Which modules are visible, and in what order,
 is decided by the traversal, which is supplied as a sequence. Both
 `forAllVisibleModules` overloads return nothing; whether iteration was
 aborted is this model's own observation of the run.
 */
module VisibleModules {
  import opened ImportedModules

  /** A `bool(ImportedModule)` callback: the new state, and `false` to abort. */
  type BoolCallback<!S> = (S, ImportedModule) -> (S, bool)

  /** A `void(ImportedModule)` callback. */
  type VoidCallback<!S> = (S, ImportedModule) -> S

  /** The state after the callback has been offered every module of `prefix`, in order. */
  function StateAfter<S>(fn: BoolCallback<S>, prefix: seq<ImportedModule>, s: S): S
  {
    if prefix == [] then s else StateAfter(fn, prefix[1..], fn(s, prefix[0]).0)
  }

  /** Whether the callback answers "go on" for every module of `prefix`, offered in order. */
  predicate AllContinue<S>(fn: BoolCallback<S>, prefix: seq<ImportedModule>, s: S)
  {
    prefix == [] || (fn(s, prefix[0]).1 && AllContinue(fn, prefix[1..], fn(s, prefix[0]).0))
  }

  /** The wrapper built by the `void` overload: it has the effect of `fn` and always answers "go on". */
  function AlwaysContinue<S(!new)>(fn: VoidCallback<S>): (wrapped: BoolCallback<S>)
    ensures forall s: S, m: ImportedModule :: wrapped(s, m).1 && wrapped(s, m).0 == fn(s, m)
  {
    (s: S, m: ImportedModule) => (fn(s, m), true)
  }

  /** Offer each visible module in turn until the callback asks to stop.
      Gives the final state and whether iteration was aborted: it is aborted exactly when some
      answer was "stop", and otherwise ends in the state after every module. */
  function Visit<S>(fn: BoolCallback<S>, visible: seq<ImportedModule>, s: S): (r: (S, bool))
    ensures r.1 <==> !AllContinue(fn, visible, s)
    ensures !r.1 ==> r.0 == StateAfter(fn, visible, s)
  {
    if visible == [] then (s, false)
    else
      var (s', goOn) := fn(s, visible[0]);
      if !goOn then (s', true) else Visit(fn, visible[1..], s')
  }

  /** Running a `void` callback over every visible module, in order. */
  function ApplyAll<S>(fn: VoidCallback<S>, visible: seq<ImportedModule>, s: S): S
  {
    if visible == [] then s else ApplyAll(fn, visible[1..], fn(s, visible[0]))
  }

  /** The wrapped `void` callback never aborts: every visible module is handed to `fn`. */
  lemma {:induction false} VoidCallbackNeverAborts<S(!new)>(fn: VoidCallback<S>, visible: seq<ImportedModule>, s: S)
    ensures Visit(AlwaysContinue(fn), visible, s) == (ApplyAll(fn, visible, s), false)
  {
    if visible != [] {
      VoidCallbackNeverAborts(fn, visible[1..], fn(s, visible[0]));
    }
  }

  /** A callback that answers `false` at some position stops iteration right there: the modules
      after it are never offered, and iteration is reported aborted. */
  lemma {:induction false} AbortStopsThere<S>(fn: BoolCallback<S>, prefix: seq<ImportedModule>, m: ImportedModule,
                                             rest: seq<ImportedModule>, s: S)
    requires AllContinue(fn, prefix, s)
    requires !fn(StateAfter(fn, prefix, s), m).1
    ensures Visit(fn, prefix + [m] + rest, s) == (fn(StateAfter(fn, prefix, s), m).0, true)
  {
    if prefix != [] {
      assert (prefix + [m] + rest)[1..] == prefix[1..] + [m] + rest;
      AbortStopsThere(fn, prefix[1..], m, rest, fn(s, prefix[0]).0);
    }
  }

  /** Iteration is aborted only by a callback answering `false`: a callback that always continues
      is offered every visible module and ends in the state after all of them. */
  lemma {:induction false} ContinuingCallbackNeverAborts<S>(fn: BoolCallback<S>, visible: seq<ImportedModule>, s: S)
    requires forall t: S, m: ImportedModule :: fn(t, m).1
    ensures Visit(fn, visible, s) == (StateAfter(fn, visible, s), false)
  {
    if visible != [] {
      ContinuingCallbackNeverAborts(fn, visible[1..], fn(s, visible[0]).0);
    }
  }
}
