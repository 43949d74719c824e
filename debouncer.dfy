/**
 * The `Debouncer` thread: a single slot holding the latest event, a flag
 * saying that an event is available and a flag asking the thread to stop.
 * Producers overwrite the slot (`_push`, `__call__`) or raise the stop flag
 * (`stop`); the background `run` loop waits for the event flag, then waits
 * once more on the stop flag (the settle window, during which further pushes
 * replace the slot), and then either returns or, under the lock, takes the
 * slot and clears the event flag, and calls `fn` with the taken event.
 *
 * Time is abstracted away.  The loop is cut at its two waits and at the
 * lock, so that each loop step is one of: the event wait, the stop wait, or
 * the take together with the call of `fn` (the taken event is a local of the
 * loop, so nothing another thread does between the take and the call changes
 * what `fn` receives; a call is placed at its take).  A wait's result is
 * modelled as whether its flag is set when the step is taken, and a flag set
 * by another thread during the wait is a push or stop ordered before that
 * step.  A wait that times out just before a `set()` lands returns false
 * although the flag is then set; that is the same flag set ordered after
 * the step, which the model allows as well.  `stop()` takes no lock, so it
 * may land between the stop wait and the take: the model allows exactly
 * that interleaving.
 *
 * The take is modelled as the code does it (`AsWritten`) and, for
 * comparison, as a corrected program (`Rechecked`) in which `stop()` sets
 * its two flags while holding the lock and the loop checks the stop flag
 * again under the lock before it takes the slot.  Holding the lock in
 * `stop()` is what makes the re-check, the take and the clearing of the
 * event flag one step: see `UnlockedStopDefeatsRecheck`.
 */
module Debounce {
  import opened Wrappers

  /** The positional and keyword arguments of one call (`Event(args, kwargs)`). */
  datatype Event<V> = Event(args: seq<V>, kwargs: map<string, V>)

  /**
   * Where the `run` loop stands: before the event wait, before the stop wait,
   * between the stop wait and the take under the lock, or returned.
   */
  datatype Phase = AwaitEvent | Settle | Take | Returned

  /** `_arg`, the `_event` flag, the `_stop_event` flag and the loop's position. */
  datatype State<V> = State(arg: Option<Event<V>>, eventSet: bool, stopSet: bool, phase: Phase)

  /**
   * Which program the loop belongs to: the code as written, or the corrected
   * one, where `stop()` holds the lock and the take re-checks the stop flag
   * under it.
   */
  datatype Loop = AsWritten | Rechecked

  /** A freshly constructed debouncer whose thread has started. */
  function Initial<V>(): State<V> {
    State(None, false, false, AwaitEvent)
  }

  /**
   * What every reachable state satisfies: an event flag raised by a push
   * (not by a stop) has an event in the slot, the loop settles only after it
   * saw the event flag, and it takes the slot only when there is an event in it.
   */
  predicate Inv<V>(s: State<V>) {
    && (s.eventSet && !s.stopSet ==> s.arg.Some?)
    && (s.phase == Settle ==> s.eventSet)
    && (s.phase == Take ==> s.arg.Some?)
  }

  /** `_push(e)`: the slot holds `e` and the event flag is set. */
  function PushState<V>(s: State<V>, e: Event<V>): State<V> {
    s.(arg := Some(e), eventSet := true)
  }

  /** `stop()`: both flags are set. */
  function StopState<V>(s: State<V>): State<V> {
    s.(stopSet := true, eventSet := true)
  }

  /** The state after one loop step and the event `fn` was called with in it, if any. */
  datatype StepResult<V> = StepResult(next: State<V>, called: Option<Event<V>>)

  /**
   * One step of `run`: the event wait (going on to settle if the flag is set,
   * looping otherwise), the stop wait (returning if the stop flag is set,
   * going on to the take otherwise), or the take (taking the slot, clearing
   * the event flag and calling `fn`).
   */
  function StepState<V>(loop: Loop, s: State<V>): (r: StepResult<V>)
    requires Inv(s)
    ensures Inv(r.next)
    ensures r.next.arg == s.arg && r.next.stopSet == s.stopSet
    ensures s.phase == AwaitEvent && !s.eventSet ==> r == StepResult(s, None)
    ensures s.phase == Settle ==> r.next.phase == (if s.stopSet then Returned else Take) && r.called.None?
    ensures r.called.Some? <==> s.phase == Take && !(loop == Rechecked && s.stopSet)
    ensures r.called.Some? ==> r.called == s.arg && !r.next.eventSet && r.next.phase == AwaitEvent
    ensures r.called.None? ==> r.next.eventSet == s.eventSet
  {
    match s.phase
    case AwaitEvent =>
      if s.eventSet then StepResult(s.(phase := Settle), None) else StepResult(s, None)
    case Settle =>
      if s.stopSet then StepResult(s.(phase := Returned), None) else StepResult(s.(phase := Take), None)
    case Take =>
      if loop == Rechecked && s.stopSet then StepResult(s.(phase := Returned), None)
      else StepResult(s.(eventSet := false, phase := AwaitEvent), s.arg)
    case Returned => StepResult(s, None)
  }

  /** One thing that can happen to a debouncer: a push, a stop or a step of its loop. */
  datatype Op<V> = PushOp(e: Event<V>) | StopOp | StepOp

  /** How far the loop has gone through the three steps that lead to a call. */
  function Progress(p: Phase): nat {
    match p
    case AwaitEvent => 0
    case Settle => 1
    case Take => 2
    case Returned => 0
  }

  function Apply<V>(loop: Loop, s: State<V>, op: Op<V>): (r: StepResult<V>)
    requires Inv(s)
    ensures Inv(r.next)
    ensures r.called.Some? ==> op.StepOp? && s.phase == Take && r.called == s.arg && r.next.phase == AwaitEvent
    ensures !op.StepOp? ==> r.next.phase == s.phase
    ensures s.stopSet ==> r.next.stopSet
    ensures s.stopSet && s.phase != Take ==> r.called.None? && r.next.phase != Take
    ensures loop == Rechecked && s.stopSet ==> r.called.None?
    ensures 3 * (if r.called.Some? then 1 else 0) + Progress(r.next.phase)
         <= (if op.StepOp? then 1 else 0) + Progress(s.phase)
  {
    match op
    case PushOp(e) => StepResult(PushState(s, e), None)
    case StopOp => StepResult(StopState(s), None)
    case StepOp => StepState(loop, s)
  }

  function StepCount<V>(ops: seq<Op<V>>): nat {
    if ops == [] then 0 else (if ops[0].StepOp? then 1 else 0) + StepCount(ops[1..])
  }

  /** The final state and the calls of `fn`, in order, of one interleaving of operations. */
  datatype Trace<V> = Trace(last: State<V>, calls: seq<Event<V>>)

  /**
   * Runs the operations from `s`.  Every call of `fn` is preceded by an event
   * wait and a stop wait of its own, so there are at most a third as many
   * calls as loop steps, counting the steps the loop has already taken
   * towards its next call.
   */
  function Run<V>(loop: Loop, s: State<V>, ops: seq<Op<V>>): (t: Trace<V>)
    requires Inv(s)
    ensures Inv(t.last)
    ensures 3 * |t.calls| + Progress(t.last.phase) <= StepCount(ops) + Progress(s.phase)
    decreases |ops|
  {
    if ops == [] then Trace(s, [])
    else
      var r := Apply(loop, s, ops[0]);
      var t := Run(loop, r.next, ops[1..]);
      Trace(t.last, (if r.called.Some? then [r.called.value] else []) + t.calls)
  }

  function Pushes<V>(es: seq<Event<V>>): (ops: seq<Op<V>>)
    ensures |ops| == |es| && StepCount(ops) == 0
    ensures forall i :: 0 <= i < |es| ==> ops[i] == PushOp(es[i])
  {
    if es == [] then [] else [PushOp(es[0])] + Pushes(es[1..])
  }

  /** `n` loop steps with nothing happening in between. */
  function Steps<V>(n: nat): (ops: seq<Op<V>>)
    ensures |ops| == n && StepCount(ops) == n
    ensures forall i :: 0 <= i < n ==> ops[i] == StepOp
  {
    if n == 0 then [] else [StepOp] + Steps(n - 1)
  }

  lemma RunCons<V>(loop: Loop, s: State<V>, op: Op<V>, ops: seq<Op<V>>)
    requires Inv(s)
    ensures var r := Apply(loop, s, op);
            var t := Run(loop, r.next, ops);
            Run(loop, s, [op] + ops) == Trace(t.last, (if r.called.Some? then [r.called.value] else []) + t.calls)
  {
    assert ([op] + ops)[0] == op && ([op] + ops)[1..] == ops;
  }

  /**
   * Once the stop flag is set it stays set, and at most one more take (with
   * its call of `fn`) happens: only a take the loop was already about to do
   * when the flag was set, and none in the corrected program.
   */
  lemma {:induction false} CallsAfterStop<V>(loop: Loop, s: State<V>, ops: seq<Op<V>>)
    requires Inv(s) && s.stopSet
    ensures Run(loop, s, ops).last.stopSet
    ensures |Run(loop, s, ops).calls| <= 1
    ensures s.phase != Take || loop == Rechecked ==> Run(loop, s, ops).calls == []
    decreases |ops|
  {
    if ops != [] {
      CallsAfterStop(loop, Apply(loop, s, ops[0]).next, ops[1..]);
    }
  }

  /** How many more loop steps a stopping loop needs before it returns. */
  function StepsToReturn(p: Phase): nat {
    match p
    case AwaitEvent => 2
    case Settle => 1
    case Take => 1
    case Returned => 0
  }

  /**
   * With the stop flag set, the loop returns after at most two more steps,
   * whatever pushes and stops come in between, unless it waits for an event
   * with the event flag cleared, or is about to take the slot as written.
   */
  lemma {:induction false} StopEndsLoop<V>(loop: Loop, s: State<V>, ops: seq<Op<V>>)
    requires Inv(s) && s.stopSet
    requires s.phase == AwaitEvent ==> s.eventSet
    requires s.phase == Take ==> loop == Rechecked
    requires StepCount(ops) >= StepsToReturn(s.phase)
    ensures Run(loop, s, ops).last.phase == Returned
    decreases |ops|
  {
    if ops != [] {
      var next := Apply(loop, s, ops[0]).next;
      assert StepCount(ops[1..]) >= StepsToReturn(next.phase);
      StopEndsLoop(loop, next, ops[1..]);
    }
  }

  /**
   * `stop()` followed by two loop steps: the loop returns and takes nothing,
   * unless the stop landed between the stop wait and the take of the loop as
   * written.
   */
  lemma StopThenReturns<V>(loop: Loop, s: State<V>, ops: seq<Op<V>>)
    requires Inv(s)
    requires s.phase != Take || loop == Rechecked
    requires StepCount(ops) >= 2
    ensures Run(loop, s, [StopOp] + ops).calls == []
    ensures Run(loop, s, [StopOp] + ops).last.phase == Returned
  {
    RunCons(loop, s, StopOp, ops);
    CallsAfterStop(loop, StopState(s), ops);
    StopEndsLoop(loop, StopState(s), ops);
  }

  /** With the event flag clear, event waits change nothing, however many there are. */
  lemma {:induction false} IdleSpins<V>(loop: Loop, s: State<V>, n: nat)
    requires Inv(s) && s.phase == AwaitEvent && !s.eventSet
    ensures Run(loop, s, Steps(n)) == Trace(s, [])
  {
    if n > 0 {
      RunCons(loop, s, StepOp, Steps(n - 1));
      IdleSpins(loop, s, n - 1);
    }
  }

  /**
   * The stop race of the loop as written: an event is pushed, the loop
   * wakes, its stop wait times out, and `stop()` comes before the take.  The
   * take then calls `fn` after the stop and clears the event flag the stop
   * raised, and the loop never returns: every later event wait fails.
   */
  lemma StopDuringTake<V>(e: Event<V>, n: nat)
    ensures var t := Run(AsWritten, Initial(), [PushOp(e), StepOp, StepOp, StopOp, StepOp] + Steps(n));
            t.calls == [e] && t.last == State(Some(e), false, true, AwaitEvent)
  {
    var loop := AsWritten;
    var s0: State<V> := Initial();
    var s1 := PushState(s0, e);
    var s2 := s1.(phase := Settle);
    var s3 := s2.(phase := Take);
    var s4 := StopState(s3);
    var s5 := s4.(eventSet := false, phase := AwaitEvent);
    IdleSpins(loop, s5, n);
    var tail := Steps(n);
    RunCons(loop, s4, StepOp, tail);
    RunCons(loop, s3, StopOp, [StepOp] + tail);
    RunCons(loop, s2, StepOp, [StopOp] + ([StepOp] + tail));
    RunCons(loop, s1, StepOp, [StepOp] + ([StopOp] + ([StepOp] + tail)));
    RunCons(loop, s0, PushOp(e), [StepOp] + ([StepOp] + ([StopOp] + ([StepOp] + tail))));
    Unroll5(PushOp(e), StepOp, StepOp, StopOp, StepOp, tail);
    assert [e] + [] == [e];
  }

  /** The same interleaving in the corrected program: no take, and the loop returns. */
  lemma StopDuringRecheckedTake<V>(e: Event<V>, n: nat)
    ensures var t := Run(Rechecked, Initial(), [PushOp(e), StepOp, StepOp, StopOp, StepOp] + Steps(n));
            t.calls == [] && t.last.phase == Returned
  {
    var loop := Rechecked;
    var s0: State<V> := Initial();
    var s1 := PushState(s0, e);
    var s2 := s1.(phase := Settle);
    var s3 := s2.(phase := Take);
    var rest := [StepOp] + Steps(n);
    assert StepCount(rest) == 1 + n by {
      assert rest[0] == StepOp && rest[1..] == Steps(n);
    }
    CallsAfterStop(loop, StopState(s3), rest);
    StopEndsLoop(loop, StopState(s3), rest);
    RunCons(loop, s3, StopOp, rest);
    RunCons(loop, s2, StepOp, [StopOp] + rest);
    RunCons(loop, s1, StepOp, [StepOp] + ([StopOp] + rest));
    RunCons(loop, s0, PushOp(e), [StepOp] + ([StepOp] + ([StopOp] + rest)));
    Unroll5(PushOp(e), StepOp, StepOp, StopOp, StepOp, Steps(n));
  }

  /**
   * Why the corrected program must hold the lock in `stop()`: if a stop could
   * land between the re-check (which sees the stop flag clear) and the take,
   * the take would behave as the take of the code as written after a stop,
   * calling `fn` and clearing the event flag the stop raised, and the loop
   * would spin from then on.
   */
  lemma UnlockedStopDefeatsRecheck<V>(e: Event<V>, n: nat)
    ensures var s: State<V> := State(Some(e), true, false, Take);
            var r := StepState(AsWritten, StopState(s));
            && r.called == Some(e)
            && r.next == State(Some(e), false, true, AwaitEvent)
            && Run(Rechecked, r.next, Steps(n)) == Trace(r.next, [])
  {
    var s: State<V> := State(Some(e), true, false, Take);
    IdleSpins(Rechecked, StepState(AsWritten, StopState(s)).next, n);
  }

  /**
   * The corrected program, whatever happened before: a stop followed by two
   * loop steps adds no take and the loop returns.
   */
  lemma RecheckedStopReturns<V>(pre: seq<Op<V>>, post: seq<Op<V>>)
    requires StepCount(post) >= 2
    ensures Run(Rechecked, Initial(), pre + ([StopOp] + post)).calls == Run(Rechecked, Initial(), pre).calls
    ensures Run(Rechecked, Initial(), pre + ([StopOp] + post)).last.phase == Returned
  {
    var s: State<V> := Initial();
    RunAppend(Rechecked, s, pre, [StopOp] + post);
    StopThenReturns(Rechecked, Run(Rechecked, s, pre).last, post);
    assert Run(Rechecked, s, pre).calls + [] == Run(Rechecked, s, pre).calls;
  }

  /**
   * `stop()` sets its two flags one after the other without the lock.  A
   * loop step between the two sets ends as the same step taken after the
   * whole `stop()` or before it, so `stop()` is modelled as one operation.
   */
  lemma StopIsAtomic<V>(loop: Loop, s: State<V>)
    requires Inv(s)
    ensures var r := StepState(loop, s.(stopSet := true));
            var split := Trace(r.next.(eventSet := true), if r.called.Some? then [r.called.value] else []);
            split == Run(loop, s, [StepOp, StopOp]) || split == Run(loop, s, [StopOp, StepOp])
  {
    RunCons(loop, s, StepOp, [StopOp]);
    RunCons(loop, s, StopOp, [StepOp]);
    RunCons(loop, StepState(loop, s).next, StopOp, []);
    RunCons(loop, StopState(s), StepOp, []);
    var r := StepState(loop, s.(stopSet := true));
    var calls: seq<Event<V>> := if r.called.Some? then [r.called.value] else [];
    assert calls + [] == calls && [] + calls == calls;
  }

  /** A run of pushes leaves the last one in the slot and the event flag set, and calls nothing. */
  lemma {:induction false} PushesKeepLast<V>(loop: Loop, s: State<V>, es: seq<Event<V>>)
    requires Inv(s) && es != []
    ensures Run(loop, s, Pushes(es)) == Trace(s.(arg := Some(es[|es| - 1]), eventSet := true), [])
    decreases |es|
  {
    var ops := Pushes(es);
    assert ops[1..] == Pushes(es[1..]);
    var next := PushState(s, es[0]);
    if |es| > 1 {
      PushesKeepLast(loop, next, es[1..]);
    } else {
      assert ops[1..] == [];
    }
  }

  lemma RunOne<V>(loop: Loop, s: State<V>, op: Op<V>)
    requires Inv(s)
    ensures Run(loop, s, [op]).last == Apply(loop, s, op).next
    ensures Run(loop, s, [op]).calls
         == if Apply(loop, s, op).called.Some? then [Apply(loop, s, op).called.value] else []
  {
    assert [op][1..] == [];
  }

  /** Pushes followed by the event wait: the loop goes on to settle with the last event in the slot. */
  lemma {:induction false} WakeUp<V>(loop: Loop, s: State<V>, es: seq<Event<V>>)
    requires Inv(s) && s.phase == AwaitEvent && !s.stopSet
    requires es != [] || s.eventSet
    ensures Run(loop, s, Pushes(es) + [StepOp]).calls == []
    ensures Run(loop, s, Pushes(es) + [StepOp]).last
         == s.(arg := if es == [] then s.arg else Some(es[|es| - 1]), eventSet := true, phase := Settle)
  {
    RunAppend(loop, s, Pushes(es), [StepOp]);
    var s1 := Run(loop, s, Pushes(es)).last;
    if es != [] {
      PushesKeepLast(loop, s, es);
    } else {
      assert Pushes<V>(es) == [];
    }
    RunOne(loop, s1, StepOp);
  }

  /**
   * Pushes during the settle window, the stop wait timing out and the take:
   * `fn` is called once, with the last event pushed, and the event flag is cleared.
   */
  lemma {:induction false} SettleTakesLast<V>(loop: Loop, s: State<V>, es: seq<Event<V>>)
    requires Inv(s) && s.phase == Settle && !s.stopSet && es != []
    ensures Run(loop, s, Pushes(es) + [StepOp, StepOp]).calls == [es[|es| - 1]]
    ensures Run(loop, s, Pushes(es) + [StepOp, StepOp]).last
         == s.(arg := Some(es[|es| - 1]), eventSet := false, phase := AwaitEvent)
  {
    RunAppend(loop, s, Pushes(es), [StepOp, StepOp]);
    PushesKeepLast(loop, s, es);
    var s1 := Run(loop, s, Pushes(es)).last;
    RunCons(loop, s1, StepOp, [StepOp]);
    var two: seq<Op<V>> := [StepOp, StepOp];
    assert [StepOp] + [StepOp] == two;
    RunOne(loop, s1.(phase := Take), StepOp);
    assert [] + [es[|es| - 1]] == [es[|es| - 1]];
  }

  /**
   * Coalescing: events pushed while the loop is idle, then during its settle
   * window, end in exactly one call of `fn`, with the event pushed last.
   */
  lemma LastPushWins<V>(loop: Loop, s: State<V>, early: seq<Event<V>>, late: seq<Event<V>>)
    requires Inv(s) && s.phase == AwaitEvent && !s.stopSet
    requires early != [] || s.eventSet
    requires late != []
    ensures Run(loop, s, Pushes(early) + [StepOp] + (Pushes(late) + [StepOp, StepOp])).calls == [late[|late| - 1]]
  {
    RunAppend(loop, s, Pushes(early) + [StepOp], Pushes(late) + [StepOp, StepOp]);
    WakeUp(loop, s, early);
    SettleTakesLast(loop, Run(loop, s, Pushes(early) + [StepOp]).last, late);
  }

  /** Running two sequences of operations one after the other: where the loop ends up. */
  lemma {:induction false} RunAppendLast<V>(loop: Loop, s: State<V>, xs: seq<Op<V>>, ys: seq<Op<V>>)
    requires Inv(s)
    ensures Run(loop, s, xs + ys).last == Run(loop, Run(loop, s, xs).last, ys).last
    decreases |xs|
  {
    if xs == [] {
      assert xs + ys == ys;
    } else {
      assert (xs + ys)[0] == xs[0] && (xs + ys)[1..] == xs[1..] + ys;
      RunAppendLast(loop, Apply(loop, s, xs[0]).next, xs[1..], ys);
    }
  }

  /** Running two sequences of operations one after the other: the calls of the first, then those of the second. */
  lemma {:induction false} RunAppendCalls<V>(loop: Loop, s: State<V>, xs: seq<Op<V>>, ys: seq<Op<V>>)
    requires Inv(s)
    ensures Run(loop, s, xs + ys).calls == Run(loop, s, xs).calls + Run(loop, Run(loop, s, xs).last, ys).calls
    decreases |xs|
  {
    if xs == [] {
      assert xs + ys == ys;
    } else {
      var r := Apply(loop, s, xs[0]);
      var c := if r.called.Some? then [r.called.value] else [];
      var tx := Run(loop, r.next, xs[1..]);
      var ty := Run(loop, tx.last, ys);
      assert (xs + ys)[0] == xs[0] && (xs + ys)[1..] == xs[1..] + ys;
      assert Run(loop, s, xs + ys).calls == c + Run(loop, r.next, xs[1..] + ys).calls;
      RunAppendCalls(loop, r.next, xs[1..], ys);
      assert Run(loop, s, xs).calls == c + tx.calls;
      Associative(c, tx.calls, ty.calls);
    }
  }

  lemma Unroll5<T>(a: T, b: T, c: T, d: T, f: T, tail: seq<T>)
    ensures [a, b, c, d, f] + tail == [a] + ([b] + ([c] + ([d] + ([f] + tail))))
  {
  }

  lemma Associative<T>(a: seq<T>, b: seq<T>, c: seq<T>)
    ensures a + (b + c) == (a + b) + c
  {
  }

  /** Running two sequences of operations one after the other. */
  lemma RunAppend<V>(loop: Loop, s: State<V>, xs: seq<Op<V>>, ys: seq<Op<V>>)
    requires Inv(s)
    ensures Run(loop, s, xs + ys)
         == Trace(Run(loop, Run(loop, s, xs).last, ys).last,
                  Run(loop, s, xs).calls + Run(loop, Run(loop, s, xs).last, ys).calls)
  {
    RunAppendLast(loop, s, xs, ys);
    RunAppendCalls(loop, s, xs, ys);
  }

  /** `fn` is only ever called with the event that was in the slot at the start or one that was pushed. */
  lemma {:induction false} CallsWerePushed<V>(loop: Loop, s: State<V>, ops: seq<Op<V>>, e: Event<V>)
    requires Inv(s)
    requires e in Run(loop, s, ops).calls
    ensures s.arg == Some(e) || PushOp(e) in ops
    decreases |ops|
  {
    var r := Apply(loop, s, ops[0]);
    var t := Run(loop, r.next, ops[1..]);
    if r.called == Some(e) {
    } else {
      assert e in t.calls;
      CallsWerePushed(loop, r.next, ops[1..], e);
      if r.next.arg == Some(e) {
        if !ops[0].PushOp? {
          assert s.arg == Some(e);
        }
      } else {
        assert PushOp(e) in ops[1..];
      }
    }
  }

  /**
   * A burst: one push, the loop wakes, two more pushes during the settle
   * window, the stop wait times out, and the loop takes the slot.  `fn` runs
   * exactly once, with the last event.
   */
  lemma BurstExample<V>(loop: Loop, e1: Event<V>, e2: Event<V>, e3: Event<V>)
    ensures Run(loop, Initial(), [PushOp(e1), StepOp, PushOp(e2), PushOp(e3), StepOp, StepOp]).calls == [e3]
  {
    var s: State<V> := Initial();
    assert [PushOp(e1), StepOp, PushOp(e2), PushOp(e3), StepOp, StepOp]
        == Pushes([e1]) + [StepOp] + (Pushes([e2, e3]) + [StepOp, StepOp]);
    LastPushWins(loop, s, [e1], [e2, e3]);
  }

  class Debouncer<V> {
    var arg: Option<Event<V>>
    var eventSet: bool
    var stopSet: bool
    var phase: Phase

    function Snapshot(): State<V>
      reads this
    {
      State(arg, eventSet, stopSet, phase)
    }

    ghost predicate Valid()
      reads this
    {
      Inv(Snapshot())
    }

    constructor ()
      ensures Valid() && Snapshot() == Initial()
    {
      arg := None;
      eventSet := false;
      stopSet := false;
      phase := AwaitEvent;
    }

    /** `__call__(*args, **kwargs)`: pushes the call's arguments, unchanged, as one event. */
    method Call(args: seq<V>, kwargs: map<string, V>)
      requires Valid()
      modifies this
      ensures Valid() && Snapshot() == PushState(old(Snapshot()), Event(args, kwargs))
      ensures arg == Some(Event(args, kwargs)) && eventSet
    {
      Push(Event(args, kwargs));
    }

    /** `_push(e)`: replaces whatever the slot held by `e` and sets the event flag. */
    method Push(e: Event<V>)
      requires Valid()
      modifies this
      ensures Valid() && Snapshot() == PushState(old(Snapshot()), e)
      ensures arg == Some(e) && eventSet && stopSet == old(stopSet) && phase == old(phase)
    {
      arg := Some(e);
      eventSet := true;
    }

    /**
     * `stop()`: sets the stop flag and the event flag.  A second stop changes
     * nothing while the event flag is still set; after a take has cleared it,
     * a second stop raises it again.
     */
    method Stop()
      requires Valid()
      modifies this
      ensures Valid() && Snapshot() == StopState(old(Snapshot()))
      ensures stopSet && eventSet && arg == old(arg) && phase == old(phase)
      ensures old(stopSet) && old(eventSet) ==> Snapshot() == old(Snapshot())
    {
      stopSet := true;
      eventSet := true;
    }

    /**
     * One step of the `run` loop as written; `called` is the event `fn` is
     * called with in this step, if it is called at all.
     */
    method Step() returns (called: Option<Event<V>>)
      requires Valid()
      modifies this
      ensures Valid() && StepResult(Snapshot(), called) == StepState(AsWritten, old(Snapshot()))
      ensures old(phase) == AwaitEvent && !old(eventSet) ==> Snapshot() == old(Snapshot()) && called == None
      ensures old(phase) == Settle ==> called == None && phase == (if stopSet then Returned else Take)
      ensures called.Some? <==> old(phase) == Take
      ensures called.Some? ==> called == old(arg) && !eventSet && phase == AwaitEvent
    {
      called := None;
      if phase == AwaitEvent {
        if eventSet {
          phase := Settle;
        }
      } else if phase == Settle {
        if stopSet {
          phase := Returned;
        } else {
          phase := Take;
        }
      } else if phase == Take {
        called := arg;
        eventSet := false;
        phase := AwaitEvent;
      }
    }
  }
}
