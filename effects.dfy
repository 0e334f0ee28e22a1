/**
 * The outside world the actions talk to, reduced to a trace of calls: the
 * PostMessage input helper bound to the game window, the MaaFramework
 * controller and context, and `time.sleep`. Every call is recorded when it is
 * made; whether it raises is decided by a fixed set of trace positions (a
 * dead window, a controller error, a bad key type, ...), and `time.sleep`
 * raises on a negative length as Python's does.
 */
module Effects {
  import opened Wrappers
  import opened Json

  datatype Event =
    /** input_helper.key_down(code, activate) */
    | KeyDown(code: int, activate: bool)
    /** input_helper.key_up(code) */
    | KeyUp(code: int)
    /** input_helper.long_press_key(code, duration) */
    | LongPressCall(code: int, ms: int)
    /** input_helper.press_multiple_keys(codes, duration) */
    | PressManyCall(codes: seq<int>, ms: int)
    /** time.sleep, in milliseconds */
    | Sleep(ms: int)
    /** controller.post_key_down(key), with the key exactly as the parameters gave it */
    | PostKeyDown(key: Value)
    /** controller.post_key_up(key) */
    | PostKeyUp(key: Value)
    /** controller.post_click_key(code).wait() */
    | PostClickKey(code: int)
    /** controller.post_screencap().wait(), then reading the cached image */
    | Screencap
    /** context.run_recognition(target, image) */
    | Recognize(target: string)
    /** context.override_next(node, next) */
    | OverrideNext(node: string, next: seq<string>)

  /** The call recorded at trace position `at` raises. */
  predicate Raises(faults: set<nat>, at: nat, e: Event) {
    at in faults || (e.Sleep? && e.ms < 0)
  }

  /** What `run` did: returned True, returned False, or let an exception escape. */
  datatype Outcome = Success | Failure | Uncaught

  /**
   * `custom_action_param` as `run` finds it: decoded into the action's
   * parameter record; neither a string nor a dict, or a string that is not
   * JSON (both answered with False); or JSON that is not an object, whose
   * `params.get` raises AttributeError.
   */
  datatype Arg<T> = Parsed(value: T) | Unreadable | NotObject

  /**
   * `time.time()` as the successive readings a loop takes, in milliseconds.
   * They end at or past the limit, so a loop that stops there stops within them.
   */
  predicate ClockRunsOut(readings: seq<int>, limit: int) {
    |readings| >= 2 && readings[|readings| - 1] - readings[0] >= limit
  }

  /** The calls an action makes, starting at some trace position, and how it ends. */
  datatype Effect = Effect(events: seq<Event>, outcome: Outcome)

  /* ---- a sequence of calls inside one `try` block ---- */

  /** Index of the first call of `plan` that raises when the plan starts at trace position n; |plan| if none does. */
  function FirstRaise(plan: seq<Event>, faults: set<nat>, n: nat): (k: nat)
    ensures k <= |plan|
    decreases |plan|
  {
    if plan == [] then 0
    else if Raises(faults, n, plan[0]) then 0
    else 1 + FirstRaise(plan[1..], faults, n + 1)
  }

  /** No call before the first raise raises, and the call at it does. */
  lemma {:induction false} FirstRaiseIsFirst(plan: seq<Event>, faults: set<nat>, n: nat)
    ensures var k := FirstRaise(plan, faults, n);
      && (forall j :: 0 <= j < k ==> !Raises(faults, n + j, plan[j]))
      && (k < |plan| ==> Raises(faults, n + k, plan[k]))
    decreases |plan|
  {
    if plan != [] && !Raises(faults, n, plan[0]) {
      FirstRaiseIsFirst(plan[1..], faults, n + 1);
      var k := FirstRaise(plan, faults, n);
      forall j | 0 <= j < k
        ensures !Raises(faults, n + j, plan[j])
      {
        if j > 0 {
          assert plan[j] == plan[1..][j - 1];
        }
      }
    }
  }

  /** No call of the plan raises. */
  predicate Completes(plan: seq<Event>, faults: set<nat>, n: nat) {
    FirstRaise(plan, faults, n) == |plan|
  }

  /** The calls actually made: the plan up to and including the first one that raises. */
  function Attempted(plan: seq<Event>, faults: set<nat>, n: nat): seq<Event> {
    var k := FirstRaise(plan, faults, n);
    if k < |plan| then plan[..k + 1] else plan
  }

  /**
   * The calls made are a prefix of the plan: all of it when no call raises,
   * otherwise the calls up to one that raises, none of the earlier ones raising.
   */
  lemma AttemptedShape(plan: seq<Event>, faults: set<nat>, n: nat)
    ensures var r := Attempted(plan, faults, n);
      && r <= plan
      && (Completes(plan, faults, n) <==> r == plan && forall j :: 0 <= j < |r| ==> !Raises(faults, n + j, r[j]))
      && (!Completes(plan, faults, n) ==> |r| > 0 && Raises(faults, n + |r| - 1, r[|r| - 1])
                                          && forall j :: 0 <= j < |r| - 1 ==> !Raises(faults, n + j, r[j]))
  {
    FirstRaiseIsFirst(plan, faults, n);
    var k := FirstRaise(plan, faults, n);
    if k < |plan| {
      var r := plan[..k + 1];
      assert Attempted(plan, faults, n) == r;
      assert forall j :: 0 <= j < |r| ==> r[j] == plan[j];
    }
  }

  /** When no call raises, every call of the plan is made. */
  lemma AttemptedAll(plan: seq<Event>, faults: set<nat>, n: nat)
    requires Completes(plan, faults, n)
    ensures Attempted(plan, faults, n) == plan
  {
  }

  /** When some call raises, the calls made are the plan up to that call, which is the last one made. */
  lemma AttemptedFails(plan: seq<Event>, faults: set<nat>, n: nat)
    requires !Completes(plan, faults, n)
    ensures var r := Attempted(plan, faults, n);
      0 < |r| <= |plan| && r[..|r| - 1] == plan[..|r| - 1] && r <= plan
  {
    var k := FirstRaise(plan, faults, n);
    assert Attempted(plan, faults, n) == plan[..k + 1];
    assert plan[..k + 1][..k] == plan[..k];
  }

  lemma FirstRaiseUnique(plan: seq<Event>, faults: set<nat>, n: nat, k: nat)
    requires k <= |plan|
    requires forall j :: 0 <= j < k ==> !Raises(faults, n + j, plan[j])
    requires k < |plan| ==> Raises(faults, n + k, plan[k])
    ensures FirstRaise(plan, faults, n) == k
    decreases k
  {
    if k > 0 {
      assert !Raises(faults, n + 0, plan[0]);
      forall j | 0 <= j < k - 1
        ensures !Raises(faults, n + 1 + j, plan[1..][j])
      {
        assert plan[1..][j] == plan[j + 1];
      }
      if k - 1 < |plan[1..]| {
        assert plan[1..][k - 1] == plan[k];
      }
      FirstRaiseUnique(plan[1..], faults, n + 1, k - 1);
    } else if plan != [] {
      assert Raises(faults, n + 0, plan[0]);
    }
  }

  /**
   * A plan with no sleep of negative length, started at a trace position from
   * which no call is made to fail, runs to its end.
   */
  lemma CompletesWhenFree(plan: seq<Event>, faults: set<nat>, n: nat)
    requires forall j :: n <= j < n + |plan| ==> j !in faults
    requires forall e :: e in plan && e.Sleep? ==> e.ms >= 0
    ensures Completes(plan, faults, n) && Attempted(plan, faults, n) == plan
  {
    forall j | 0 <= j < |plan|
      ensures !Raises(faults, n + j, plan[j])
    {
      assert plan[j] in plan;
    }
    FirstRaiseUnique(plan, faults, n, |plan|);
  }

  /** A call that raises keeps the plan from completing. */
  lemma RaiseBlocks(plan: seq<Event>, faults: set<nat>, n: nat, j: nat)
    requires j < |plan| && Raises(faults, n + j, plan[j])
    ensures !Completes(plan, faults, n)
  {
    FirstRaiseIsFirst(plan, faults, n);
  }

  /** A plan run after a completed one starts where that one ended. */
  lemma AttemptedAppend(p: seq<Event>, q: seq<Event>, faults: set<nat>, n: nat)
    ensures Completes(p + q, faults, n) <==> Completes(p, faults, n) && Completes(q, faults, n + |p|)
    ensures Attempted(p + q, faults, n)
            == if Completes(p, faults, n) then p + Attempted(q, faults, n + |p|) else Attempted(p, faults, n)
  {
    var kp := FirstRaise(p, faults, n);
    var kq := FirstRaise(q, faults, n + |p|);
    FirstRaiseIsFirst(p, faults, n);
    FirstRaiseIsFirst(q, faults, n + |p|);
    if kp < |p| {
      FirstRaiseUnique(p + q, faults, n, kp);
      assert (p + q)[..kp + 1] == p[..kp + 1];
    } else {
      assert forall j :: |p| <= j < |p| + kq ==> (p + q)[j] == q[j - |p|];
      FirstRaiseUnique(p + q, faults, n, |p| + kq);
      if kq < |q| {
        assert (p + q)[..|p| + kq + 1] == p + q[..kq + 1];
      }
    }
  }

  /** Three blocks of calls run one after another in one `try`: where the first raise falls. */
  lemma AttemptedThree(a: seq<Event>, b: seq<Event>, c: seq<Event>, faults: set<nat>, n: nat)
    ensures !Completes(a, faults, n) ==>
              Attempted(a + b + c, faults, n) == Attempted(a, faults, n) && !Completes(a + b + c, faults, n)
    ensures Completes(a, faults, n) && !Completes(b, faults, n + |a|) ==>
              Attempted(a + b + c, faults, n) == a + Attempted(b, faults, n + |a|) && !Completes(a + b + c, faults, n)
    ensures Completes(a, faults, n) && Completes(b, faults, n + |a|) ==>
              Attempted(a + b + c, faults, n) == a + b + Attempted(c, faults, n + |a| + |b|)
              && (Completes(a + b + c, faults, n) <==> Completes(c, faults, n + |a| + |b|))
  {
    AttemptedAppend(a + b, c, faults, n);
    AttemptedAppend(a, b, faults, n);
  }

  /** A call that does not raise after a completed prefix extends it. */
  lemma CompletesSnoc(p: seq<Event>, e: Event, faults: set<nat>, n: nat)
    requires Completes(p, faults, n) && !Raises(faults, n + |p|, e)
    ensures Completes(p + [e], faults, n)
  {
    AttemptedAppend(p, [e], faults, n);
    FirstRaiseUnique([e], faults, n + |p|, 1);
  }

  /** A call that raises after a completed prefix ends the block there, whatever was still to come. */
  lemma AttemptedStops(p: seq<Event>, e: Event, rest: seq<Event>, faults: set<nat>, n: nat)
    requires Completes(p, faults, n) && Raises(faults, n + |p|, e)
    ensures Attempted(p + [e] + rest, faults, n) == p + [e]
    ensures !Completes(p + [e] + rest, faults, n)
  {
    assert p + [e] + rest == p + ([e] + rest);
    AttemptedAppend(p, [e] + rest, faults, n);
    FirstRaiseUnique([e] + rest, faults, n + |p|, 0);
  }

  /** A trace that extends an earlier one is that one followed by the calls made since. */
  lemma SplitAt(before: seq<Event>, after: seq<Event>)
    requires before <= after
    ensures after == before + after[|before|..]
  {
    assert after[..|before|] == before;
  }

  /** Regrouping a trace split in three, which the solver does not always find on its own. */
  lemma Reassociate(a: seq<Event>, b: seq<Event>, c: seq<Event>)
    ensures a + (b + c) == a + b + c
  {
  }

  /**
   * Everything outside the core: the input helper, the controller and the
   * clock's sleep. `trace` holds every call made so far, in order.
   */
  class Host {
    var trace: seq<Event>
    const faults: set<nat>

    constructor (faults: set<nat>)
      ensures trace == [] && this.faults == faults
    {
      trace := [];
      this.faults := faults;
    }

    /** One call; `ok` is false when it raised. */
    method Call(e: Event) returns (ok: bool)
      modifies this
      ensures trace == old(trace) + [e]
      ensures ok == !Raises(faults, |old(trace)|, e)
    {
      ok := !Raises(faults, |trace|, e);
      trace := trace + [e];
    }

    /**
     * One call inside a `try` block that began at trace position n0 and whose
     * calls, if none raises, are `plan`: when the call raises, what the block
     * did is exactly Attempted(plan).
     */
    method Step(e: Event, ghost plan: seq<Event>, ghost n0: nat) returns (ok: bool)
      requires n0 <= |trace| && Completes(trace[n0..], faults, n0)
      requires trace[n0..] + [e] <= plan
      modifies this
      ensures trace == old(trace) + [e]
      ensures ok == !Raises(faults, |old(trace)|, e)
      ensures ok ==> Completes(trace[n0..], faults, n0)
      ensures !ok ==> trace[n0..] == Attempted(plan, faults, n0) && !Completes(plan, faults, n0)
    {
      ghost var done := trace[n0..];
      ok := Call(e);
      assert trace[n0..] == done + [e];
      if ok {
        CompletesSnoc(done, e, faults, n0);
      } else {
        var rest := plan[|done| + 1..];
        assert plan == done + [e] + rest;
        AttemptedStops(done, e, rest, faults, n0);
      }
    }

    /** The calls of `steps`, one after the other, inside the same `try` block as Step. */
    method Steps(steps: seq<Event>, ghost plan: seq<Event>, ghost n0: nat) returns (ok: bool)
      requires n0 <= |trace| && Completes(trace[n0..], faults, n0)
      requires trace[n0..] + steps <= plan
      modifies this
      ensures trace == old(trace) + Attempted(steps, faults, |old(trace)|)
      ensures ok == Completes(steps, faults, |old(trace)|)
      ensures ok ==> Completes(trace[n0..], faults, n0)
      ensures !ok ==> trace[n0..] == Attempted(plan, faults, n0) && !Completes(plan, faults, n0)
    {
      ghost var t0 := trace;
      ghost var n := |t0|;
      var i := 0;
      while i < |steps|
        invariant 0 <= i <= |steps|
        invariant trace == t0 + steps[..i]
        invariant Completes(steps[..i], faults, n)
        invariant Completes(trace[n0..], faults, n0)
      {
        NextStepFits(t0, n0, steps, i, plan);
        ok := Step(steps[i], plan, n0);
        StepsNext(steps, i, faults, n);
        if !ok {
          return;
        }
        i := i + 1;
      }
      assert steps[..i] == steps;
      ok := true;
    }
  }

  /** The calls recorded since n0, followed by the next step, still follow the plan. */
  lemma NextStepFits(t0: seq<Event>, n0: nat, steps: seq<Event>, i: nat, plan: seq<Event>)
    requires n0 <= |t0| && i < |steps| && t0[n0..] + steps <= plan
    ensures (t0 + steps[..i])[n0..] + [steps[i]] <= plan
  {
    assert (t0 + steps[..i])[n0..] + [steps[i]] == t0[n0..] + steps[..i + 1];
  }

  /** One more step of a run of calls that has gone through so far: it goes through, or it is where the run stops. */
  lemma StepsNext(steps: seq<Event>, i: nat, faults: set<nat>, n: nat)
    requires i < |steps| && Completes(steps[..i], faults, n)
    ensures steps[..i] + [steps[i]] == steps[..i + 1]
    ensures !Raises(faults, n + i, steps[i]) ==> Completes(steps[..i + 1], faults, n)
    ensures Raises(faults, n + i, steps[i]) ==>
              Attempted(steps, faults, n) == steps[..i + 1] && !Completes(steps, faults, n)
  {
    var before := steps[..i];
    assert before + [steps[i]] == steps[..i + 1];
    if Raises(faults, n + i, steps[i]) {
      assert before + [steps[i]] + steps[i + 1..] == steps;
      AttemptedStops(before, steps[i], steps[i + 1..], faults, n);
    } else {
      CompletesSnoc(before, steps[i], faults, n);
    }
  }

  /* ---- which keys a trace holds down ---- */

  /**
   * Replays the input helper's key events against the keys still held, most
   * recent last: a key-down pushes its code, a key-up must release the most
   * recently pressed key still held. None when some key-up breaks that rule.
   */
  function Unwind(events: seq<Event>, held: seq<int>): Option<seq<int>>
    decreases |events|
  {
    if events == [] then Some(held)
    else match events[0]
      case KeyDown(c, _) => Unwind(events[1..], held + [c])
      case KeyUp(c) =>
        if held != [] && held[|held| - 1] == c then Unwind(events[1..], held[..|held| - 1]) else None
      case _ => Unwind(events[1..], held)
  }

  /** Every key pressed is released, the last pressed first. */
  predicate ReleasedLifo(events: seq<Event>) {
    Unwind(events, []) == Some([])
  }

  lemma {:induction false} UnwindAppend(a: seq<Event>, b: seq<Event>, held: seq<int>)
    ensures Unwind(a + b, held) == match Unwind(a, held) case None => None case Some(h) => Unwind(b, h)
    decreases |a|
  {
    if a != [] {
      assert (a + b)[1..] == a[1..] + b;
      match a[0]
      case KeyDown(c, _) => UnwindAppend(a[1..], b, held + [c]);
      case KeyUp(c) =>
        if held != [] && held[|held| - 1] == c {
          UnwindAppend(a[1..], b, held[..|held| - 1]);
        }
      case _ => UnwindAppend(a[1..], b, held);
    } else {
      assert a + b == b;
    }
  }

  /** The controller key-downs of a trace, in order. */
  function PostedDowns(events: seq<Event>): seq<Value> {
    if events == [] then []
    else (if events[0].PostKeyDown? then [events[0].key] else []) + PostedDowns(events[1..])
  }

  /** The controller key-ups of a trace, in order. */
  function PostedUps(events: seq<Event>): seq<Value> {
    if events == [] then []
    else (if events[0].PostKeyUp? then [events[0].key] else []) + PostedUps(events[1..])
  }

  lemma {:induction false} PostedAppend(a: seq<Event>, b: seq<Event>)
    ensures PostedDowns(a + b) == PostedDowns(a) + PostedDowns(b)
    ensures PostedUps(a + b) == PostedUps(a) + PostedUps(b)
  {
    if a != [] {
      assert (a + b)[1..] == a[1..] + b;
      PostedAppend(a[1..], b);
    } else {
      assert a + b == b;
    }
  }

  /** The controller call for one key: its key down, or its key up. */
  function Post(key: Value, down: bool): Event {
    if down then PostKeyDown(key) else PostKeyUp(key)
  }

  /** `for key in keys: controller.post_key_down(key)`, or `post_key_up` when `down` is false. */
  function Posts(keys: seq<Value>, down: bool): (r: seq<Event>)
    ensures |r| == |keys|
  {
    if keys == [] then [] else Posts(keys[..|keys| - 1], down) + [Post(keys[|keys| - 1], down)]
  }

  /** The k-th call posts the k-th key. */
  lemma {:induction false} PostsAt(keys: seq<Value>, down: bool)
    ensures forall k :: 0 <= k < |keys| ==> Posts(keys, down)[k] == Post(keys[k], down)
  {
    if keys != [] {
      PostsAt(keys[..|keys| - 1], down);
    }
  }

  /** Posting downs for some keys posts exactly those keys, in order, and no key-up; and the other way round. */
  lemma {:induction false} PostedKeys(keys: seq<Value>)
    ensures PostedDowns(Posts(keys, true)) == keys && PostedUps(Posts(keys, true)) == []
    ensures PostedUps(Posts(keys, false)) == keys && PostedDowns(Posts(keys, false)) == []
  {
    if keys != [] {
      var init := keys[..|keys| - 1];
      var last := keys[|keys| - 1];
      PostedKeys(init);
      PostedAppend(Posts(init, true), [PostKeyDown(last)]);
      PostedAppend(Posts(init, false), [PostKeyUp(last)]);
      assert keys == init + [last];
    }
  }
}
