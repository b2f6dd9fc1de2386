/**
 * The `VisibilityManager` of the `core` package.
 *
 * It holds one style cell and hands its handlers `onStart` and `onFinish` to
 * the motions below it. Both handlers first forward the signal to an
 * enclosing manager, then ignore signals for other names when the manager
 * has a name. `onFinish` makes the style visible; `onStart` hides it, but
 * only when it is currently visible.
 */
module VisibilityManager {
  import opened Wrappers

  /** The style cell: `{}`, `{ visibility: 'visible' }` or `{ visibility: 'hidden' }`. */
  datatype Style = Unset | Visible | Hidden

  /** A handler invocation with its `opts.name`. */
  datatype Signal = Start(name: string) | Finish(name: string)

  /** The enclosing manager's context: which of its handlers are present. */
  datatype Context = Context(hasOnFinish: bool, hasOnStart: bool)

  /**
   * Whether a manager with this `name` prop acts on a signal: an absent or
   * empty name acts on every signal, any other name only on its own.
   */
  predicate Targets(name: Option<string>, signalName: string)
  {
    !(name.Some? && name.value != "" && signalName != name.value)
  }

  /** The style after one handled signal. */
  function Apply(style: Style, s: Signal, name: Option<string>): Style
  {
    if !Targets(name, s.name) then style
    else if s.Finish? then Visible
    else if style == Visible then Hidden
    else style
  }

  /** The style after the handled signals, from the initial `{}`. */
  function Run(name: Option<string>, history: seq<Signal>): Style
  {
    if history == [] then Unset
    else Apply(Run(name, history[..|history| - 1]), history[|history| - 1], name)
  }

  /** The signal at `i` is a finish this manager acts on. */
  predicate TargetedFinish(name: Option<string>, history: seq<Signal>, i: int)
    requires 0 <= i < |history|
  {
    history[i].Finish? && Targets(name, history[i].name)
  }

  /** No signal after position `i` is one this manager acts on. */
  predicate QuietAfter(name: Option<string>, history: seq<Signal>, i: int)
    requires 0 <= i < |history|
  {
    forall j :: i < j < |history| ==> !Targets(name, history[j].name)
  }

  /**
   * The style stays `{}` until a finish for this manager arrives: starts
   * alone never hide anything.
   */
  lemma {:induction false} UnsetUntilFinish(name: Option<string>, history: seq<Signal>)
    ensures Run(name, history) == Unset <==>
      forall i :: 0 <= i < |history| ==> !TargetedFinish(name, history, i)
  {
    if history != [] {
      var n := |history|;
      var init := history[..n - 1];
      UnsetUntilFinish(name, init);
      assert forall i :: 0 <= i < n - 1 ==> history[i] == init[i];
      if !TargetedFinish(name, history, n - 1) {
        assert Run(name, history) == Unset <==> Run(name, init) == Unset by {
          if Targets(name, history[n - 1].name) {
            assert history[n - 1].Start?;
          }
        }
        forall i | 0 <= i < n - 1
          ensures TargetedFinish(name, history, i) == TargetedFinish(name, init, i)
        {
        }
      } else {
        assert Run(name, history) == Visible;
      }
    }
  }

  /** The style is visible exactly when the last signal this manager acts on is a finish. */
  lemma {:induction false} VisibleAfterLastFinish(name: Option<string>, history: seq<Signal>)
    ensures Run(name, history) == Visible <==>
      exists i :: 0 <= i < |history| && TargetedFinish(name, history, i) && QuietAfter(name, history, i)
  {
    if history != [] {
      var n := |history|;
      var init := history[..n - 1];
      var last := history[n - 1];
      VisibleAfterLastFinish(name, init);
      assert forall i :: 0 <= i < n - 1 ==> history[i] == init[i];
      if !Targets(name, last.name) {
        if Run(name, init) == Visible {
          var i :| 0 <= i < n - 1 && TargetedFinish(name, init, i) && QuietAfter(name, init, i);
          assert TargetedFinish(name, history, i) && QuietAfter(name, history, i);
        }
        if exists i :: 0 <= i < n && TargetedFinish(name, history, i) && QuietAfter(name, history, i) {
          var i :| 0 <= i < n && TargetedFinish(name, history, i) && QuietAfter(name, history, i);
          assert i < n - 1;
          assert TargetedFinish(name, init, i) && QuietAfter(name, init, i);
        }
      } else if last.Finish? {
        assert TargetedFinish(name, history, n - 1) && QuietAfter(name, history, n - 1);
      } else {
        assert Run(name, history) != Visible;
        forall i | 0 <= i < n && TargetedFinish(name, history, i)
          ensures !QuietAfter(name, history, i)
        {
          assert i < n - 1;
        }
      }
    }
  }

  class VisibilityManager {
    /** The optional `name` prop. */
    const name: Option<string>
    /** The enclosing manager's context, when there is one. */
    const parent: Option<Context>

    var style: Style
    /** The signals forwarded to the enclosing manager, in order. */
    var forwarded: seq<Signal>
    /** The signals this manager's handlers ran to completion on. */
    ghost var history: seq<Signal>

    ghost predicate Valid()
      reads this
    {
      style == Run(name, history)
    }

    /** The initial style is `{}` whatever `isInitiallyVisible` says. */
    constructor(name: Option<string>, parent: Option<Context>, isInitiallyVisible: bool)
      ensures Valid()
      ensures this.name == name && this.parent == parent
      ensures style == Unset && forwarded == [] && history == []
    {
      this.name := name;
      this.parent := parent;
      style := Unset;
      forwarded := [];
      history := [];
    }

    /** Whether the enclosing manager's handlers get called: the guard tests for its `onFinish`. */
    predicate Forwards()
    {
      parent.Some? && parent.value.hasOnFinish
    }

    /**
     * `onStart`: forwards to the enclosing manager's `onStart` when that
     * manager has an `onFinish` (and throws, returning `false` here, when it
     * has no `onStart`); then, for a signal it acts on, hides a visible style.
     */
    method OnStart(signalName: string) returns (ok: bool)
      requires Valid()
      modifies this`style, this`forwarded, this`history
      ensures Valid()
      ensures ok == !(Forwards() && !parent.value.hasOnStart)
      ensures forwarded == old(forwarded) + (if Forwards() && ok then [Start(signalName)] else [])
      ensures !ok ==> style == old(style) && history == old(history)
      ensures ok ==> history == old(history) + [Start(signalName)]
      ensures ok ==> style == (if Targets(name, signalName) && old(style) == Visible then Hidden else old(style))
    {
      if Forwards() {
        if !parent.value.hasOnStart {
          return false;
        }
        forwarded := forwarded + [Start(signalName)];
      }
      ok := true;
      history := history + [Start(signalName)];
      assert history[..|history| - 1] == old(history);
      if name.Some? && name.value != "" && signalName != name.value {
        return;
      }
      if style == Visible {
        style := Hidden;
      }
    }

    /**
     * `onFinish`: forwards to the enclosing manager's `onFinish` when there is
     * one; then, for a signal it acts on, makes the style visible.
     */
    method OnFinish(signalName: string)
      requires Valid()
      modifies this`style, this`forwarded, this`history
      ensures Valid()
      ensures forwarded == old(forwarded) + (if Forwards() then [Finish(signalName)] else [])
      ensures history == old(history) + [Finish(signalName)]
      ensures style == (if Targets(name, signalName) then Visible else old(style))
    {
      if Forwards() {
        forwarded := forwarded + [Finish(signalName)];
      }
      history := history + [Finish(signalName)];
      assert history[..|history| - 1] == old(history);
      if name.Some? && name.value != "" && signalName != name.value {
        return;
      }
      style := Visible;
    }
  }
}
