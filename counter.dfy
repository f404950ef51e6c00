/** The navigation-depth counter `Router.navigating` and the two window
    events it drives (router.js lines 266-269 and 285-288), as a pure state
    machine. `_navigate` runs its first half (`Begin`) up to the await of
    the renderer and its second half (`Finish`) when that await resumes;
    redirects raised while rendering run a whole `_navigate` in between. */
module Counter {
  import opened Sequences

  /** `sveltekit:navigation-start` and `sveltekit:navigation-end`. */
  datatype Signal = NavigationStart | NavigationEnd

  /** The events the first half dispatches at counter value `depth`. */
  function BeginSignals(depth: nat): seq<Signal> {
    if depth == 0 then [NavigationStart] else []
  }

  /** The events the second half dispatches once it has decremented the
      counter to `depth`. */
  function FinishSignals(depth: nat): seq<Signal> {
    if depth == 0 then [NavigationEnd] else []
  }

  datatype Step = Begin | Finish

  /** A `Finish` only resumes a `Begin` that is still outstanding. */
  predicate Feasible(depth: nat, steps: seq<Step>)
    decreases |steps|
  {
    steps == [] ||
    match steps[0]
    case Begin => Feasible(depth + 1, steps[1..])
    case Finish => depth > 0 && Feasible(depth - 1, steps[1..])
  }

  datatype Outcome = Outcome(depth: nat, signals: seq<Signal>)

  /** The counter and the dispatched events after running `steps` from
      `depth`. */
  function Run(depth: nat, steps: seq<Step>): Outcome
    requires Feasible(depth, steps)
    decreases |steps|
  {
    if steps == [] then Outcome(depth, [])
    else match steps[0]
      case Begin =>
        var rest := Run(depth + 1, steps[1..]);
        Outcome(rest.depth, BeginSignals(depth) + rest.signals)
      case Finish =>
        var rest := Run(depth - 1, steps[1..]);
        Outcome(rest.depth, FinishSignals(depth - 1) + rest.signals)
  }

  /** The events alternate, starting with `first`. */
  predicate Alternating(signals: seq<Signal>, first: Signal) {
    forall k :: 0 <= k < |signals| ==>
      signals[k] == (if k % 2 == 0 then first else Other(first))
  }

  function Other(s: Signal): Signal {
    if s == NavigationStart then NavigationEnd else NavigationStart
  }

  /** The counter ends at the start value plus begins minus finishes. */
  lemma {:induction false} RunDepth(depth: nat, steps: seq<Step>)
    requires Feasible(depth, steps)
    ensures Run(depth, steps).depth + Count(steps, Finish) == depth + Count(steps, Begin)
    decreases |steps|
  {
    if steps != [] {
      if steps[0] == Begin {
        RunDepth(depth + 1, steps[1..]);
      } else {
        RunDepth(depth - 1, steps[1..]);
      }
    }
  }

  lemma AlternatingCons(x: Signal, rest: seq<Signal>)
    requires Alternating(rest, Other(x))
    ensures Alternating([x] + rest, x)
  {
    forall k | 1 <= k < |[x] + rest|
      ensures ([x] + rest)[k] == (if k % 2 == 0 then x else Other(x))
    {
      assert ([x] + rest)[k] == rest[k - 1];
      assert Other(Other(x)) == x;
    }
  }

  /** The signal that opens a run from `depth`. */
  function FirstSignal(depth: nat): Signal {
    if depth == 0 then NavigationStart else NavigationEnd
  }

  /** The events never repeat: starting from an idle router they read
      start, end, start, ... and from a busy one end, start, end, ...; and
      the last event is a start exactly when the counter ends up non-zero. */
  lemma {:induction false} RunAlternates(depth: nat, steps: seq<Step>)
    requires Feasible(depth, steps)
    ensures var out := Run(depth, steps);
      && Alternating(out.signals, FirstSignal(depth))
      && (out.signals == [] ==> (out.depth == 0 <==> depth == 0))
      && (out.signals != [] ==> (out.signals[|out.signals| - 1] == NavigationStart <==> out.depth > 0))
    decreases |steps|
  {
    if steps != [] {
      var next := if steps[0] == Begin then depth + 1 else depth - 1;
      RunAlternates(next, steps[1..]);
      var rest := Run(next, steps[1..]);
      var head := if steps[0] == Begin then BeginSignals(depth) else FinishSignals(next);
      var out := Run(depth, steps);
      assert out.signals == head + rest.signals && out.depth == rest.depth;
      if head == [] {
        assert FirstSignal(next) == FirstSignal(depth);
        assert out.signals == rest.signals;
      } else {
        assert head == [FirstSignal(depth)];
        assert FirstSignal(next) == Other(FirstSignal(depth));
        AlternatingCons(FirstSignal(depth), rest.signals);
        if rest.signals != [] {
          assert out.signals[|out.signals| - 1] == rest.signals[|rest.signals| - 1];
        }
      }
    }
  }

  /** Whenever the halves pair up (as many finishes as begins), the
      counter returns to its starting value and start and end events are
      dispatched equally often, whatever the nesting or interleaving. */
  lemma {:induction false} BalancedCountsEqual(depth: nat, steps: seq<Step>)
    requires Feasible(depth, steps)
    requires Count(steps, Begin) == Count(steps, Finish)
    ensures Run(depth, steps).depth == depth
    ensures Count(Run(depth, steps).signals, NavigationStart)
         == Count(Run(depth, steps).signals, NavigationEnd)
  {
    RunDepth(depth, steps);
    RunAlternates(depth, steps);
    var signals := Run(depth, steps).signals;
    AlternatingCounts(signals, if depth == 0 then NavigationStart else NavigationEnd);
  }

  /** In an alternating sequence both events occur equally often exactly
      when its length is even, and the length is even exactly when it is
      empty or ends with the other event than it starts with. */
  lemma {:induction false} AlternatingCounts(signals: seq<Signal>, first: Signal)
    requires Alternating(signals, first)
    ensures |signals| % 2 == 0 ==>
      Count(signals, NavigationStart) == Count(signals, NavigationEnd)
    ensures |signals| % 2 == 1 ==>
      Count(signals, first) == Count(signals, Other(first)) + 1
    ensures signals != [] ==>
      (|signals| % 2 == 0 <==> signals[|signals| - 1] == Other(first))
    decreases |signals|
  {
    if |signals| >= 2 {
      var rest := signals[2..];
      assert Alternating(rest, first) by {
        forall k | 0 <= k < |rest|
          ensures rest[k] == (if k % 2 == 0 then first else Other(first))
        {
          assert rest[k] == signals[k + 2];
        }
      }
      AlternatingCounts(rest, first);
      assert signals == [first, Other(first)] + rest;
      CountAppend([first, Other(first)], rest, NavigationStart);
      CountAppend([first, Other(first)], rest, NavigationEnd);
      if rest != [] {
        assert signals[|signals| - 1] == rest[|rest| - 1];
      }
    } else if |signals| == 1 {
      assert signals == [first];
    }
  }

  /** An idle router that runs a balanced sequence of navigation halves
      dispatches as many start events as end events, the first being a
      start, and the counter returns to zero. */
  lemma BalancedFromIdle(steps: seq<Step>)
    requires Feasible(0, steps) && Count(steps, Begin) == Count(steps, Finish)
    ensures Run(0, steps).depth == 0
    ensures Alternating(Run(0, steps).signals, NavigationStart)
    ensures Count(Run(0, steps).signals, NavigationStart)
         == Count(Run(0, steps).signals, NavigationEnd)
  {
    BalancedCountsEqual(0, steps);
    RunAlternates(0, steps);
  }

  /** Raising the starting value of the counter by one raises every later
      value by one, so the run never reaches zero and dispatches nothing. */
  lemma {:induction false} RunAboveSilent(depth: nat, steps: seq<Step>)
    requires Feasible(depth, steps)
    ensures Feasible(depth + 1, steps)
    ensures Run(depth + 1, steps) == Outcome(Run(depth, steps).depth + 1, [])
    decreases |steps|
  {
    if steps != [] {
      if steps[0] == Begin {
        RunAboveSilent(depth + 1, steps[1..]);
      } else {
        RunAboveSilent(depth - 1, steps[1..]);
      }
    }
  }

  /** Without `try`/`finally`, a navigation whose renderer call rejects
      never runs its second half. From an idle router, one such navigation
      followed by any activity whose halves pair up among themselves leaves
      the counter at one, and the only event dispatched is the first start:
      no end event fires again. */
  lemma RejectedNavigationWedges(steps: seq<Step>)
    requires Feasible(0, steps) && Count(steps, Begin) == Count(steps, Finish)
    ensures Feasible(0, [Begin] + steps)
    ensures Run(0, [Begin] + steps) == Outcome(1, [NavigationStart])
  {
    assert ([Begin] + steps)[1..] == steps;
    RunDepth(0, steps);
    RunAboveSilent(0, steps);
  }

  /** What the window has seen agrees with the counter: the events
      alternate starting with a start, and the last one is a start exactly
      while a navigation is outstanding. */
  predicate Consistent(depth: nat, signals: seq<Signal>) {
    && Alternating(signals, NavigationStart)
    && (signals == [] ==> depth == 0)
    && (signals != [] ==> (signals[|signals| - 1] == NavigationStart <==> depth > 0))
  }

  /** Appending the event that differs from the last one keeps the
      sequence alternating. */
  lemma AlternatingExtend(signals: seq<Signal>, x: Signal)
    requires Alternating(signals, NavigationStart)
    requires if signals == [] then x == NavigationStart else x == Other(signals[|signals| - 1])
    ensures Alternating(signals + [x], NavigationStart)
  {
    AlternatingCounts(signals, NavigationStart);
    var t := signals + [x];
    forall k | 0 <= k < |t|
      ensures t[k] == (if k % 2 == 0 then NavigationStart else NavigationEnd)
    {
      if k < |signals| {
        assert t[k] == signals[k];
      }
    }
  }

  /** The counter value after one half run from `depth`. */
  function Next(depth: nat, step: Step): nat {
    if step == Begin then depth + 1 else if depth > 0 then depth - 1 else 0
  }

  /** The events one half dispatches from `depth`. */
  function Head(depth: nat, step: Step): seq<Signal> {
    if step == Begin then BeginSignals(depth) else FinishSignals(Next(depth, step))
  }

  /** One half of `_navigate` keeps the window's events consistent with the
      counter. */
  lemma StepKeepsConsistent(depth: nat, signals: seq<Signal>, step: Step)
    requires Consistent(depth, signals) && (step == Finish ==> depth > 0)
    ensures Consistent(Next(depth, step), signals + Head(depth, step))
  {
    if Head(depth, step) == [] {
      assert signals + Head(depth, step) == signals;
    } else if step == Begin {
      AlternatingExtend(signals, NavigationStart);
    } else {
      AlternatingExtend(signals, NavigationEnd);
    }
  }

  /** Any feasible run keeps the window's events consistent with the
      counter. */
  lemma {:induction false} RunKeepsConsistent(depth: nat, signals: seq<Signal>, steps: seq<Step>)
    requires Consistent(depth, signals) && Feasible(depth, steps)
    ensures Consistent(Run(depth, steps).depth, signals + Run(depth, steps).signals)
    decreases |steps|
  {
    if steps == [] {
      assert signals + [] == signals;
    } else {
      var next := Next(depth, steps[0]);
      var head := Head(depth, steps[0]);
      var rest := Run(next, steps[1..]);
      assert Run(depth, steps) == Outcome(rest.depth, head + rest.signals);
      StepKeepsConsistent(depth, signals, steps[0]);
      RunKeepsConsistent(next, signals + head, steps[1..]);
      assert signals + head + rest.signals == signals + (head + rest.signals);
    }
  }
}
