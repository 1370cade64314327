/** Model of viewmodel/MainActivityViewModel.kt: the record-button action, the
    status-bar colour and the timer text that the activity observes.

    Each MutableLiveData becomes a field holding its current value; the action
    also keeps the history of the values written to it, because observers see
    that history through `distinctUntilChanged()`. */
module MainViewModel {
  import opened Optional

  datatype ButtonAction = ActionStart | ActionStop

  /** The two colour resources the view model uses. */
  datatype ColorRes = Primary | RecordingIndicatorRed

  /** The status-bar colour setScreenRecordButtonAction picks for an action. */
  function ColorFor(action: ButtonAction): ColorRes {
    match action
    case ActionStart => RecordingIndicatorRed
    case ActionStop => Primary
  }

  /** The colour after the action writes `actions`, starting from `initial`:
      every write overwrites the colour. */
  function ColorAfter(initial: ColorRes, actions: seq<ButtonAction>): ColorRes
    decreases |actions|
  {
    if actions == [] then initial else ColorAfter(ColorFor(actions[0]), actions[1..])
  }

  /** The colour depends only on the last action written, or is the initial
      one when none has been written. */
  lemma {:induction false} ColorDependsOnlyOnLastAction(initial: ColorRes, actions: seq<ButtonAction>)
    ensures ColorAfter(initial, actions) ==
      if actions == [] then initial else ColorFor(actions[|actions| - 1])
    decreases |actions|
  {
    if actions != [] {
      ColorDependsOnlyOnLastAction(ColorFor(actions[0]), actions[1..]);
    }
  }

  // ---------------------------------------------------------------------------
  // distinctUntilChanged
  // ---------------------------------------------------------------------------

  /** The value last passed on after `xs`, `prev` being the one before them. */
  function LastPassed<T>(prev: Option<T>, xs: seq<T>): Option<T> {
    if xs == [] then prev else Some(xs[|xs| - 1])
  }

  /** What an observer of `distinctUntilChanged()` receives when its source
      takes the values `xs` in order, `prev` being the value it passed on last
      (None before the first one). */
  function DistinctUntilChanged<T(==)>(prev: Option<T>, xs: seq<T>): (ys: seq<T>)
    ensures |ys| <= |xs|
    ensures forall y :: y in ys ==> y in xs
    decreases |xs|
  {
    if xs == [] then []
    else if prev == Some(xs[0]) then DistinctUntilChanged(prev, xs[1..])
    else [xs[0]] + DistinctUntilChanged(Some(xs[0]), xs[1..])
  }

  predicate NoConsecutiveRepeats<T(==)>(ys: seq<T>) {
    forall i :: 0 <= i < |ys| - 1 ==> ys[i] != ys[i + 1]
  }

  /** An observer never receives the same value twice in a row, nor again the
      value it received last. */
  lemma {:induction false} DistinctHasNoRepeats<T>(prev: Option<T>, xs: seq<T>)
    ensures NoConsecutiveRepeats(DistinctUntilChanged(prev, xs))
    ensures DistinctUntilChanged(prev, xs) != [] ==> prev != Some(DistinctUntilChanged(prev, xs)[0])
    decreases |xs|
  {
    if xs != [] {
      if prev == Some(xs[0]) {
        DistinctHasNoRepeats(prev, xs[1..]);
      } else {
        DistinctHasNoRepeats(Some(xs[0]), xs[1..]);
      }
    }
  }

  /** One more write is passed on exactly when it differs from the last value
      passed on; this is what lets the filter run one write at a time. */
  lemma {:induction false} DistinctAppend<T>(prev: Option<T>, xs: seq<T>, x: T)
    ensures DistinctUntilChanged(prev, xs + [x]) ==
      DistinctUntilChanged(prev, xs) + (if LastPassed(prev, xs) == Some(x) then [] else [x])
    decreases |xs|
  {
    if xs != [] {
      assert (xs + [x])[0] == xs[0];
      assert (xs + [x])[1..] == xs[1..] + [x];
      if prev == Some(xs[0]) {
        DistinctAppend(prev, xs[1..], x);
        if xs[1..] == [] {
          assert LastPassed(prev, xs) == prev;
        } else {
          assert LastPassed(prev, xs[1..]) == LastPassed(prev, xs);
        }
      } else {
        DistinctAppend(Some(xs[0]), xs[1..], x);
        assert LastPassed(Some(xs[0]), xs[1..]) == LastPassed(prev, xs);
      }
    }
  }

  /** A repeat-free sequence passes through the filter untouched. */
  lemma {:induction false} DistinctOfRepeatFree<T>(prev: Option<T>, ys: seq<T>)
    requires NoConsecutiveRepeats(ys)
    requires ys != [] ==> prev != Some(ys[0])
    ensures DistinctUntilChanged(prev, ys) == ys
    decreases |ys|
  {
    if ys != [] {
      DistinctOfRepeatFree(Some(ys[0]), ys[1..]);
    }
  }

  /** Filtering twice is filtering once. */
  lemma DistinctIdempotent<T>(xs: seq<T>)
    ensures DistinctUntilChanged(None, DistinctUntilChanged(None, xs)) == DistinctUntilChanged(None, xs)
  {
    DistinctHasNoRepeats(None, xs);
    DistinctOfRepeatFree(None, DistinctUntilChanged(None, xs));
  }

  /** With only two actions, what the observer receives alternates between
      START and STOP. */
  lemma ObservedActionsAlternate(prev: Option<ButtonAction>, xs: seq<ButtonAction>)
    ensures forall i :: 0 <= i < |DistinctUntilChanged(prev, xs)| - 1 ==>
      (DistinctUntilChanged(prev, xs)[i] == ActionStart <==> DistinctUntilChanged(prev, xs)[i + 1] == ActionStop)
  {
    DistinctHasNoRepeats(prev, xs);
  }

  // ---------------------------------------------------------------------------
  // The view model
  // ---------------------------------------------------------------------------

  class MainActivityViewModel {
    /** `_screenRecordButtonAction.value` (null until first set). */
    var screenRecordButtonAction: Option<ButtonAction>
    /** Every value written to `_screenRecordButtonAction`, oldest first. */
    var actionWrites: seq<ButtonAction>
    /** `_statusBarColor.value` */
    var statusBarColor: ColorRes
    /** `_time.value` (null until first set). */
    var time: Option<string>

    ghost predicate Valid()
      reads this
    {
      && screenRecordButtonAction == LastPassed(None, actionWrites)
      && statusBarColor == ColorAfter(Primary, actionWrites)
    }

    /** The constructor and its `init` block: no action yet, primary colour. */
    constructor ()
      ensures Valid()
      ensures screenRecordButtonAction == None && actionWrites == []
      ensures statusBarColor == Primary && time == None
    {
      screenRecordButtonAction := None;
      actionWrites := [];
      time := None;
      statusBarColor := Primary;
      new;
      SetStatusBarColor(Primary);
    }

    /** setScreenRecordButtonAction: picks the colour for the action, then
        stores the action. */
    method SetScreenRecordButtonAction(action: ButtonAction)
      requires Valid()
      modifies this`screenRecordButtonAction, this`actionWrites, this`statusBarColor
      ensures Valid()
      ensures screenRecordButtonAction == Some(action)
      ensures actionWrites == old(actionWrites) + [action]
      ensures statusBarColor == ColorFor(action)
      ensures time == old(time)
    {
      match action {
        case ActionStart =>
          SetStatusBarColor(RecordingIndicatorRed);
        case ActionStop =>
          SetStatusBarColor(Primary);
      }
      screenRecordButtonAction := Some(action);
      actionWrites := actionWrites + [action];
      ColorDependsOnlyOnLastAction(Primary, actionWrites);
    }

    /** setTime: stores the text as given and touches nothing else. */
    method SetTime(t: string)
      modifies this`time
      ensures time == Some(t)
    {
      time := Some(t);
    }

    method SetStatusBarColor(color: ColorRes)
      modifies this`statusBarColor
      ensures statusBarColor == color
    {
      statusBarColor := color;
    }
  }
}
