/**
 * LongPressWithTimeoutDetection (my_action.py): a polling loop that captures
 * the screen and runs the target node's recognition until the target shows a
 * box of positive size, pressing the fallback key after every miss, or until
 * the total timeout has passed. Clock readings are in milliseconds;
 * `readings[0]` is `start_time` and `readings[i]` the reading of pass i.
 */
module Detection {
  import opened Wrappers
  import opened Effects

  /** A recognition box. */
  datatype Box = Box(x: int, y: int, w: int, h: int)

  /** What `run_recognition` returns: nothing, or a result whose box may be missing. */
  datatype Recognition = NoResult | Recognized(box: Option<Box>)

  /** A result counts only when it is there, has a box, and the box has positive width and height. */
  predicate Hit(r: Recognition) {
    r.Recognized? && r.box.Some? && r.box.value.w > 0 && r.box.value.h > 0
  }

  /** The key pressed after a miss (`post_click_key(69)`, the E key), whatever `interrupt_node` names. */
  const FallbackKey: int := 69

  /** The action's parameters, with the defaults `params.get` supplies; `interrupt_node` is only logged. */
  datatype WatchArgs = WatchArgs(checkIntervalMs: Option<int>, totalTimeoutMs: Option<int>,
                                 targetNode: Option<string>, interruptNode: Option<string>) {
    function Interval(): int { checkIntervalMs.GetOr(5000) }
    function Timeout(): int { totalTimeoutMs.GetOr(180000) }
    function Target(): string { targetNode.GetOr("again_for_win") }
    function Interrupt(): string { interruptNode.GetOr("autoBattle_for_win") }
  }

  /** How the loop ended: the target was seen, the time ran out, or a call raised. */
  datatype Verdict = Detected | TimedOut | Errored

  /** The calls of the passes from some pass on, how the loop ended, and how many passes began. */
  datatype Polled = Polled(events: seq<Event>, verdict: Verdict, loops: nat)

  /** The calls of a pass that misses: capture, recognition, fallback key, pause. */
  function MissBlock(w: WatchArgs): seq<Event> {
    [Screencap, Recognize(w.Target()), PostClickKey(FallbackKey), Sleep(w.Interval())]
  }

  /** The calls of the pass that sees the target. */
  function HitBlock(w: WatchArgs, node: string): seq<Event> {
    [Screencap, Recognize(w.Target()), OverrideNext(node, [w.Target()])]
  }

  /** The readings reach the timeout, and there is a recognition result for every reading after the start. */
  predicate Driven(w: WatchArgs, readings: seq<int>, results: seq<Recognition>) {
    ClockRunsOut(readings, w.Timeout()) && |readings| <= |results| + 1
  }

  /** The calls of one pass, and how it ends the loop (`None`: the loop goes on). */
  datatype Pass = Pass(events: seq<Event>, end: Option<Verdict>)

  /**
   * One pass, `elapsed` milliseconds after the start, with the trace at
   * position n. It first checks the clock, then captures and recognizes; a hit
   * overrides the next node of `node` with the target and ends the loop; a miss
   * presses the fallback key, whose failure is swallowed, and sleeps for the
   * check interval. Only a miss whose calls all went through lets the loop go on.
   */
  function RunPass(w: WatchArgs, node: string, elapsed: int, result: Recognition, faults: set<nat>, n: nat): (p: Pass)
    ensures p.end.None? ==> p.events == MissBlock(w)
    // the loop goes on exactly after a miss before the timeout whose capture, recognition and
    // pause went through, whatever the fallback press at position n + 2 raises
    ensures p.end.None? <==>
              && elapsed < w.Timeout() && !Hit(result)
              && !Raises(faults, n, Screencap) && !Raises(faults, n + 1, Recognize(w.Target()))
              && !Raises(faults, n + 3, Sleep(w.Interval()))
    ensures p.end == Some(TimedOut) <==> elapsed >= w.Timeout()
    ensures p.end == Some(Detected) ==> Hit(result) && p.events == HitBlock(w, node)
    ensures p.end == Some(Detected) <==>
              && elapsed < w.Timeout() && Hit(result)
              && !Raises(faults, n, Screencap) && !Raises(faults, n + 1, Recognize(w.Target()))
              && !Raises(faults, n + 2, OverrideNext(node, [w.Target()]))
  {
    if elapsed >= w.Timeout() then Pass([], Some(TimedOut))
    else if Raises(faults, n, Screencap) then Pass([Screencap], Some(Errored))
    else if Raises(faults, n + 1, Recognize(w.Target())) then Pass([Screencap, Recognize(w.Target())], Some(Errored))
    else if Hit(result) then
      Pass(HitBlock(w, node), Some(if Raises(faults, n + 2, OverrideNext(node, [w.Target()])) then Errored else Detected))
    else Pass(MissBlock(w), if Raises(faults, n + 3, Sleep(w.Interval())) then Some(Errored) else None)
  }

  /** The passes from pass i on, when the trace is at position n. */
  function Poll(w: WatchArgs, node: string, readings: seq<int>, results: seq<Recognition>, faults: set<nat>,
                i: nat, n: nat): Polled
    requires Driven(w, readings, results) && 1 <= i < |readings|
    decreases |readings| - i
  {
    var pass := RunPass(w, node, readings[i] - readings[0], results[i - 1], faults, n);
    if pass.end.Some? then Polled(pass.events, pass.end.value, 1)
    else
      var rest := Poll(w, node, readings, results, faults, i + 1, n + 4);
      Polled(MissBlock(w) + rest.events, rest.verdict, rest.loops + 1)
  }

  /** `k` misses in a row. */
  function Repeat(block: seq<Event>, k: nat): seq<Event> {
    if k == 0 then [] else block + Repeat(block, k - 1)
  }

  /** One more miss in front of k misses and a tail. */
  lemma RepeatPrepend(block: seq<Event>, k: nat, tail: seq<Event>)
    ensures block + (Repeat(block, k) + tail) == Repeat(block, k + 1) + tail
  {
    assert Repeat(block, k + 1) == block + Repeat(block, k);
  }

  /**
   * LongPressWithTimeoutDetection.run. `params.get` runs before the `try`, so
   * parameters that are JSON but not an object let the error escape.
   */
  function DetectionEffect(arg: Arg<WatchArgs>, node: string, readings: seq<int>, results: seq<Recognition>,
                           faults: set<nat>, n: nat): Effect
    requires arg.Parsed? ==> Driven(arg.value, readings, results)
  {
    match arg
    case Unreadable => Effect([], Failure)
    case NotObject => Effect([], Uncaught)
    case Parsed(w) =>
      var p := Poll(w, node, readings, results, faults, 1, n);
      Effect(p.events, if p.verdict == Detected then Success else Failure)
  }

  /** One pass of the loop, making its calls on the host. */
  method PollOnce(host: Host, w: WatchArgs, node: string, elapsed: int, result: Recognition) returns (end: Option<Verdict>)
    modifies host
    ensures host.trace == old(host.trace) + RunPass(w, node, elapsed, result, host.faults, |old(host.trace)|).events
    ensures end == RunPass(w, node, elapsed, result, host.faults, |old(host.trace)|).end
  {
    if elapsed >= w.Timeout() {
      return Some(TimedOut);
    }
    var ok := host.Call(Screencap);
    if !ok {
      return Some(Errored);
    }
    ok := host.Call(Recognize(w.Target()));
    if !ok {
      return Some(Errored);
    }
    if Hit(result) {
      ok := host.Call(OverrideNext(node, [w.Target()]));
      return Some(if ok then Detected else Errored);
    }
    var _ := host.Call(PostClickKey(FallbackKey));
    ok := host.Call(Sleep(w.Interval()));
    return if ok then None else Some(Errored);
  }

  /** The `while True` loop, from the first pass on; `loops` is the source's `loop_count`. */
  method PollLoop(host: Host, w: WatchArgs, node: string, readings: seq<int>, results: seq<Recognition>)
    returns (verdict: Verdict, loops: nat)
    requires Driven(w, readings, results)
    modifies host
    ensures host.trace == old(host.trace) + Poll(w, node, readings, results, host.faults, 1, |old(host.trace)|).events
    ensures verdict == Poll(w, node, readings, results, host.faults, 1, |old(host.trace)|).verdict
    ensures loops == Poll(w, node, readings, results, host.faults, 1, |old(host.trace)|).loops
  {
    ghost var t0 := host.trace;
    ghost var total := Poll(w, node, readings, results, host.faults, 1, |t0|);
    ghost var sofar: seq<Event> := [];
    var start := readings[0];
    var i := 1;
    loops := 0;
    while true
      invariant 1 <= i < |readings| && loops == i - 1
      invariant host.trace == t0 + sofar
      invariant var rest := Poll(w, node, readings, results, host.faults, i, |host.trace|);
        total == Polled(sofar + rest.events, rest.verdict, loops + rest.loops)
      decreases |readings| - i
    {
      ghost var before := host.trace;
      ghost var here := Poll(w, node, readings, results, host.faults, i, |before|);
      ghost var pass := RunPass(w, node, readings[i] - readings[0], results[i - 1], host.faults, |before|);
      loops := loops + 1;
      var elapsed := readings[i] - start;
      var end := PollOnce(host, w, node, elapsed, results[i - 1]);
      assert host.trace == before + pass.events;
      if end.Some? {
        assert here == Polled(pass.events, end.value, 1);
        Reassociate(t0, sofar, pass.events);
        return end.value, loops;
      }
      ghost var rest := Poll(w, node, readings, results, host.faults, i + 1, |host.trace|);
      assert here == Polled(MissBlock(w) + rest.events, rest.verdict, rest.loops + 1);
      Reassociate(sofar, MissBlock(w), rest.events);
      sofar := sofar + MissBlock(w);
      i := i + 1;
    }
  }

  /** LongPressWithTimeoutDetection.run; `loops` is 0 when the loop is not reached. */
  method LongPressWithTimeoutDetection(host: Host, node: string, readings: seq<int>, results: seq<Recognition>,
                                       arg: Arg<WatchArgs>) returns (r: Outcome, loops: nat)
    requires arg.Parsed? ==> Driven(arg.value, readings, results)
    modifies host
    ensures host.trace == old(host.trace) + DetectionEffect(arg, node, readings, results, host.faults, |old(host.trace)|).events
    ensures r == DetectionEffect(arg, node, readings, results, host.faults, |old(host.trace)|).outcome
    ensures loops == if arg.Parsed? then Poll(arg.value, node, readings, results, host.faults, 1, |old(host.trace)|).loops else 0
  {
    if arg.Unreadable? { return Failure, 0; }
    if arg.NotObject? { return Uncaught, 0; }
    var verdict;
    verdict, loops := PollLoop(host, arg.value, node, readings, results);
    r := if verdict == Detected then Success else Failure;
  }

  /** The passes from i up to, not including, pass m miss, before the timeout. */
  predicate MissesBefore(w: WatchArgs, readings: seq<int>, results: seq<Recognition>, i: nat, m: nat)
    requires 1 <= i && m <= |readings| && m <= |results| + 1
  {
    forall j :: i <= j < m ==> readings[j] - readings[0] < w.Timeout() && !Hit(results[j - 1])
  }

  /**
   * How a poll that does not fail on a call is made up: every pass before the
   * last is a miss whose reading is short of the timeout; a timeout ends the
   * loop at the first reading that reaches it, with no capture; a detection
   * ends it at a pass that saw the target, with one `override_next` to the
   * target and no fallback press or sleep.
   */
  lemma {:induction false} PollShape(w: WatchArgs, node: string, readings: seq<int>, results: seq<Recognition>,
                                     faults: set<nat>, i: nat, n: nat)
    requires Driven(w, readings, results) && 1 <= i < |readings|
    ensures var p := Poll(w, node, readings, results, faults, i, n);
      p.verdict != Errored ==>
        && p.loops >= 1 && i + p.loops - 1 < |readings|
        && MissesBefore(w, readings, results, i, i + p.loops - 1)
        && (p.verdict == TimedOut ==>
              p.events == Repeat(MissBlock(w), p.loops - 1)
              && readings[i + p.loops - 1] - readings[0] >= w.Timeout())
        && (p.verdict == Detected ==>
              p.events == Repeat(MissBlock(w), p.loops - 1) + HitBlock(w, node)
              && readings[i + p.loops - 1] - readings[0] < w.Timeout()
              && Hit(results[i + p.loops - 2]))
  {
    PollMisses(w, node, readings, results, faults, i, n);
    PollEnds(w, node, readings, results, faults, i, n);
  }

  /** Every pass before the last is a miss whose reading is short of the timeout. */
  lemma {:induction false} PollMisses(w: WatchArgs, node: string, readings: seq<int>, results: seq<Recognition>,
                                      faults: set<nat>, i: nat, n: nat)
    requires Driven(w, readings, results) && 1 <= i < |readings|
    ensures var p := Poll(w, node, readings, results, faults, i, n);
      && p.loops >= 1 && i + p.loops - 1 < |readings|
      && MissesBefore(w, readings, results, i, i + p.loops - 1)
    decreases |readings| - i
  {
    var p := Poll(w, node, readings, results, faults, i, n);
    var pass := RunPass(w, node, readings[i] - readings[0], results[i - 1], faults, n);
    if pass.end.None? {
      PollMisses(w, node, readings, results, faults, i + 1, n + 4);
      var rest := Poll(w, node, readings, results, faults, i + 1, n + 4);
      assert p.loops == rest.loops + 1;
      assert readings[i] - readings[0] < w.Timeout() && !Hit(results[i - 1]);
    }
  }

  /** How the last pass ends the poll: what it records, its reading and its result. */
  lemma {:induction false} PollEnds(w: WatchArgs, node: string, readings: seq<int>, results: seq<Recognition>,
                                    faults: set<nat>, i: nat, n: nat)
    requires Driven(w, readings, results) && 1 <= i < |readings|
    ensures var p := Poll(w, node, readings, results, faults, i, n);
      && p.loops >= 1 && i + p.loops - 1 < |readings|
      && (p.verdict == TimedOut ==>
            p.events == Repeat(MissBlock(w), p.loops - 1)
            && readings[i + p.loops - 1] - readings[0] >= w.Timeout())
      && (p.verdict == Detected ==>
            p.events == Repeat(MissBlock(w), p.loops - 1) + HitBlock(w, node)
            && readings[i + p.loops - 1] - readings[0] < w.Timeout()
            && Hit(results[i + p.loops - 2]))
    decreases |readings| - i
  {
    var p := Poll(w, node, readings, results, faults, i, n);
    var pass := RunPass(w, node, readings[i] - readings[0], results[i - 1], faults, n);
    if pass.end.None? {
      assert pass.events == MissBlock(w);
      PollEnds(w, node, readings, results, faults, i + 1, n + 4);
      var rest := Poll(w, node, readings, results, faults, i + 1, n + 4);
      assert p == Polled(MissBlock(w) + rest.events, rest.verdict, rest.loops + 1);
      assert i + p.loops - 1 == (i + 1) + rest.loops - 1;
      if rest.verdict == TimedOut {
        RepeatPrepend(MissBlock(w), rest.loops - 1, []);
      } else if rest.verdict == Detected {
        assert i + p.loops - 2 == (i + 1) + rest.loops - 2;
        RepeatPrepend(MissBlock(w), rest.loops - 1, HitBlock(w, node));
      }
    } else {
      assert p == Polled(pass.events, pass.end.value, 1);
      assert Repeat(MissBlock(w), 0) == [];
    }
  }

  /** The number of fallback presses is the number of misses: every pass but the last. */
  lemma {:induction false} FallbacksEqualMisses(w: WatchArgs, node: string, readings: seq<int>,
                                                results: seq<Recognition>, faults: set<nat>, i: nat, n: nat)
    requires Driven(w, readings, results) && 1 <= i < |readings|
    ensures var p := Poll(w, node, readings, results, faults, i, n);
      p.verdict != Errored ==> multiset(p.events)[PostClickKey(FallbackKey)] == p.loops - 1
    decreases |readings| - i
  {
    var pass := RunPass(w, node, readings[i] - readings[0], results[i - 1], faults, n);
    if pass.end.None? {
      FallbacksEqualMisses(w, node, readings, results, faults, i + 1, n + 4);
      var rest := Poll(w, node, readings, results, faults, i + 1, n + 4);
      assert multiset(MissBlock(w) + rest.events) == multiset(MissBlock(w)) + multiset(rest.events);
    }
  }

  /** A detection overrides the next node exactly once. */
  lemma {:induction false} DetectionOverridesOnce(w: WatchArgs, node: string, readings: seq<int>,
                                                  results: seq<Recognition>, faults: set<nat>, i: nat, n: nat)
    requires Driven(w, readings, results) && 1 <= i < |readings|
    ensures var p := Poll(w, node, readings, results, faults, i, n);
      p.verdict == Detected ==> multiset(p.events)[OverrideNext(node, [w.Target()])] == 1
    decreases |readings| - i
  {
    var pass := RunPass(w, node, readings[i] - readings[0], results[i - 1], faults, n);
    if pass.end.None? {
      DetectionOverridesOnce(w, node, readings, results, faults, i + 1, n + 4);
      var rest := Poll(w, node, readings, results, faults, i + 1, n + 4);
      assert multiset(MissBlock(w) + rest.events) == multiset(MissBlock(w)) + multiset(rest.events);
    } else if pass.end == Some(Detected) {
      assert multiset(pass.events) == multiset{Screencap, Recognize(w.Target()), OverrideNext(node, [w.Target()])};
    }
  }

  /**
   * The three kinds of miss (no result, no box, an empty box) are not told
   * apart: two result sequences that agree on which passes hit give the same
   * poll.
   */
  lemma {:induction false} MissKindsAlike(w: WatchArgs, node: string, readings: seq<int>,
                                          results1: seq<Recognition>, results2: seq<Recognition>,
                                          faults: set<nat>, i: nat, n: nat)
    requires Driven(w, readings, results1) && Driven(w, readings, results2) && 1 <= i < |readings|
    requires |results1| == |results2| && forall k :: 0 <= k < |results1| ==> (Hit(results1[k]) <==> Hit(results2[k]))
    ensures Poll(w, node, readings, results1, faults, i, n) == Poll(w, node, readings, results2, faults, i, n)
    decreases |readings| - i
  {
    var pass1 := RunPass(w, node, readings[i] - readings[0], results1[i - 1], faults, n);
    var pass2 := RunPass(w, node, readings[i] - readings[0], results2[i - 1], faults, n);
    assert pass1 == pass2;
    if pass1.end.None? {
      MissKindsAlike(w, node, readings, results1, results2, faults, i + 1, n + 4);
    }
  }

  /**
   * With no failing calls, a check interval that is not negative and no result
   * that hits, the loop always ends by timing out.
   */
  lemma {:induction false} NoHitTimesOut(w: WatchArgs, node: string, readings: seq<int>, results: seq<Recognition>,
                                         i: nat, n: nat)
    requires Driven(w, readings, results) && 1 <= i < |readings|
    requires w.Interval() >= 0
    requires forall k :: 0 <= k < |results| ==> !Hit(results[k])
    ensures Poll(w, node, readings, results, {}, i, n).verdict == TimedOut
    decreases |readings| - i
  {
    if readings[i] - readings[0] < w.Timeout() {
      NoHitTimesOut(w, node, readings, results, i + 1, n + 4);
    }
  }

  /**
   * With no raising call, misses at passes i to j - 1 and a hit at pass j, all
   * short of the timeout, the loop detects the target at pass j, after
   * j - i + 1 passes that press the fallback key once per miss.
   */
  lemma {:induction false} HitDetects(w: WatchArgs, node: string, readings: seq<int>, results: seq<Recognition>,
                                      i: nat, n: nat, j: nat)
    requires Driven(w, readings, results) && 1 <= i <= j < |readings|
    requires w.Interval() >= 0
    requires forall k :: i <= k <= j ==> readings[k] - readings[0] < w.Timeout()
    requires forall k :: i - 1 <= k < j - 1 ==> !Hit(results[k])
    requires Hit(results[j - 1])
    ensures var p := Poll(w, node, readings, results, {}, i, n);
      && p.verdict == Detected && p.loops == j - i + 1
      && p.events == Repeat(MissBlock(w), j - i) + HitBlock(w, node)
    decreases |readings| - i
  {
    var p := Poll(w, node, readings, results, {}, i, n);
    var pass := RunPass(w, node, readings[i] - readings[0], results[i - 1], {}, n);
    if i < j {
      assert !Hit(results[i - 1]);
      assert pass.end.None?;
      HitDetects(w, node, readings, results, i + 1, n + 4, j);
      var rest := Poll(w, node, readings, results, {}, i + 1, n + 4);
      assert p == Polled(MissBlock(w) + rest.events, rest.verdict, rest.loops + 1);
      RepeatPrepend(MissBlock(w), j - i - 1, HitBlock(w, node));
    } else {
      assert pass.end == Some(Detected);
      assert p == Polled(pass.events, Detected, 1);
      assert Repeat(MissBlock(w), 0) == [];
    }
  }

  /**
   * Three misses of the three kinds at 0, 1000 and 2000 ms, then the reading
   * at 3000 ms reaches a 3000 ms timeout: four passes begin and three fallback
   * presses are made.
   */
  lemma ThreeMissesThenTimeout(node: string)
    ensures var p := Poll(ScenarioArgs(), node, ScenarioReadings(), ScenarioResults(), {}, 1, 0);
      p.verdict == TimedOut && p.loops == 4 && multiset(p.events)[PostClickKey(FallbackKey)] == 3
  {
    var w, readings, results := ScenarioArgs(), ScenarioReadings(), ScenarioResults();
    NoHitTimesOut(w, node, readings, results, 1, 0);
    PollShape(w, node, readings, results, {}, 1, 0);
    FallbacksEqualMisses(w, node, readings, results, {}, 1, 0);
    var p := Poll(w, node, readings, results, {}, 1, 0);
    assert readings[1] - readings[0] < 3000 && readings[2] - readings[0] < 3000 && readings[3] - readings[0] < 3000;
    assert p.loops == 4;
  }

  /** In the same run, a failing first fallback press changes nothing: its error is swallowed. */
  lemma FallbackFailureSwallowed(node: string)
    ensures Poll(ScenarioArgs(), node, ScenarioReadings(), ScenarioResults(), {2}, 1, 0)
         == Poll(ScenarioArgs(), node, ScenarioReadings(), ScenarioResults(), {}, 1, 0)
  {
    var w, readings, results := ScenarioArgs(), ScenarioReadings(), ScenarioResults();
    assert RunPass(w, node, 0, results[0], {2}, 0) == RunPass(w, node, 0, results[0], {}, 0);
    FaultsBehindIgnored(w, node, readings, results, {2}, {}, 2, 4);
  }

  /** Faults at positions the trace has already passed do not change the rest of the poll. */
  lemma {:induction false} FaultsBehindIgnored(w: WatchArgs, node: string, readings: seq<int>, results: seq<Recognition>,
                                               faults1: set<nat>, faults2: set<nat>, i: nat, n: nat)
    requires Driven(w, readings, results) && 1 <= i < |readings|
    requires forall j :: j >= n ==> (j in faults1 <==> j in faults2)
    ensures Poll(w, node, readings, results, faults1, i, n) == Poll(w, node, readings, results, faults2, i, n)
    decreases |readings| - i
  {
    var pass1 := RunPass(w, node, readings[i] - readings[0], results[i - 1], faults1, n);
    assert pass1 == RunPass(w, node, readings[i] - readings[0], results[i - 1], faults2, n);
    if pass1.end.None? {
      FaultsBehindIgnored(w, node, readings, results, faults1, faults2, i + 1, n + 4);
    }
  }

  function ScenarioArgs(): WatchArgs { WatchArgs(Some(1000), Some(3000), None, None) }
  function ScenarioReadings(): seq<int> { [0, 0, 1000, 2000, 3000] }
  function ScenarioResults(): seq<Recognition> {
    [NoResult, Recognized(None), Recognized(Some(Box(10, 10, 0, 5))), NoResult]
  }
}
