/**
 * The PostMessage gestures of actions.py: RunWithShift, LongPressKey,
 * PressMultipleKeys and RunWithJump. Each `run` is a method that takes the Host
 * that records the input helper's calls; what it records and what it returns
 * is fixed by an effect function of the parameters, the dodge-key setting,
 * the window list, the keyboard layout, the clock and the failing calls.
 */
module Actions {
  import opened Wrappers
  import opened Json
  import opened WindowResolver
  import opened KeyCodes
  import opened Effects
  import opened Config
  import opened JumpSchedule

  /**
   * The two conversions the input helper offers: `char_to_vk` for one
   * character and `get_direction_vk`, each None where it raises. Both
   * actions that use `char_to_vk` catch its error and return False.
   */
  datatype Keyboard = Keyboard(charToVk: char -> Option<int>, directionVk: Value -> Option<int>)

  /* ---- parameters, with the defaults `params.get` supplies ---- */

  /** RunWithShift's parameters; absent ones are None. Times are in milliseconds. */
  datatype ShiftArgs = ShiftArgs(direction: Option<Value>, durationMs: Option<int>, dodgeDelayMs: Option<int>) {
    function Direction(): Value { direction.GetOr(Str("w")) }
    function Duration(): int { durationMs.GetOr(2000) }
    function DodgeDelay(): int { dodgeDelayMs.GetOr(50) }
  }

  /** LongPressKey's parameters; `key` has no default, so an absent key is null. */
  datatype KeyArgs = KeyArgs(key: Option<Value>, durationMs: Option<int>) {
    function Key(): Value { key.GetOr(Null) }
    function Duration(): int { durationMs.GetOr(1000) }
  }

  /** PressMultipleKeys' parameters. */
  datatype KeysArgs = KeysArgs(keys: Option<Value>, durationMs: Option<int>) {
    function Keys(): Value { keys.GetOr(Array([])) }
    function Duration(): int { durationMs.GetOr(1000) }
  }

  /** RunWithJump's parameters. */
  datatype JumpArgs = JumpArgs(direction: Option<Value>, durationMs: Option<int>, dodgeDelayMs: Option<int>,
                               intervalMs: Option<int>, pressMs: Option<int>) {
    function Direction(): Value { direction.GetOr(Str("w")) }
    function Duration(): int { durationMs.GetOr(3000) }
    function DodgeDelay(): int { dodgeDelayMs.GetOr(50) }
    function Interval(): int { intervalMs.GetOr(500) }
    function Press(): int { pressMs.GetOr(100) }
  }

  /* ---- RunWithShift ---- */

  /** Direction key down (activating the window), an optional pause, dodge key down. */
  function RunHead(dir: int, dodge: int, delayMs: int): seq<Event> {
    [KeyDown(dir, true)] + (if delayMs > 0 then [Sleep(delayMs)] else []) + [KeyDown(dodge, false)]
  }

  /** The calls of RunWithShift's `try` block when none of them raises. */
  function ShiftPlan(dir: int, dodge: int, delayMs: int, durationMs: int): seq<Event> {
    RunHead(dir, dodge, delayMs) + [Sleep(durationMs), KeyUp(dodge), KeyUp(dir)]
  }

  /**
   * RunWithShift.run, starting at trace position n with `dodge` the configured
   * dodge key. The dodge key is formatted as hexadecimal before the `try`, so a
   * setting that is not an int lets the error escape. There is no cleanup: a
   * raising call ends the action with False and whatever keys it holds.
   */
  function RunWithShiftEffect(arg: Arg<ShiftArgs>, dodge: Value, windows: seq<Window>, kb: Keyboard,
                              faults: set<nat>, n: nat): Effect
  {
    match arg
    case Unreadable => Effect([], Failure)
    case NotObject => Effect([], Uncaught)
    case Parsed(a) =>
      if AsInt(dodge).None? then Effect([], Uncaught)
      else if Resolve(windows) == 0 then Effect([], Failure)
      else match kb.directionVk(a.Direction())
        case None => Effect([], Failure)
        case Some(dir) =>
          var plan := ShiftPlan(dir, AsInt(dodge).value, a.DodgeDelay(), a.Duration());
          Effect(Attempted(plan, faults, n), if Completes(plan, faults, n) then Success else Failure)
  }

  method RunWithShift(host: Host, config: RuntimeConfig, windows: seq<Window>, kb: Keyboard, arg: Arg<ShiftArgs>)
    returns (r: Outcome)
    modifies host
    ensures host.trace == old(host.trace)
              + RunWithShiftEffect(arg, config.DodgeKey(), windows, kb, host.faults, |old(host.trace)|).events
    ensures r == RunWithShiftEffect(arg, config.DodgeKey(), windows, kb, host.faults, |old(host.trace)|).outcome
  {
    if arg.Unreadable? { return Failure; }
    if arg.NotObject? { return Uncaught; }
    var a := arg.value;
    var dodge := AsInt(config.DodgeKey());
    if dodge.None? { return Uncaught; }
    var hwnd := Resolve(windows);
    if hwnd == 0 { return Failure; }
    var dir := kb.directionVk(a.Direction());
    if dir.None? { return Failure; }
    var plan := ShiftPlan(dir.value, dodge.value, a.DodgeDelay(), a.Duration());
    var ok := host.Steps(plan, plan, |host.trace|);
    r := if ok then Success else Failure;
  }

  /**
   * RunWithShift succeeds exactly when the parameters are readable, the dodge
   * key is an int, a window and a direction key are found and no call raises;
   * it then presses the direction key, then the dodge key, holds for the
   * duration and releases the dodge key before the direction key.
   */
  lemma ShiftSucceeds(arg: Arg<ShiftArgs>, dodge: Value, windows: seq<Window>, kb: Keyboard, faults: set<nat>, n: nat)
    ensures var e := RunWithShiftEffect(arg, dodge, windows, kb, faults, n);
      e.outcome == Success <==>
        (arg.Parsed? && AsInt(dodge).Some? && Resolve(windows) != 0 && kb.directionVk(arg.value.Direction()).Some?
         && Completes(ShiftPlan(kb.directionVk(arg.value.Direction()).value, AsInt(dodge).value,
                                arg.value.DodgeDelay(), arg.value.Duration()), faults, n))
    ensures var e := RunWithShiftEffect(arg, dodge, windows, kb, faults, n);
      e.outcome == Success ==>
        var dir := kb.directionVk(arg.value.Direction()).value;
        var d := AsInt(dodge).value;
        && e.events == ShiftPlan(dir, d, arg.value.DodgeDelay(), arg.value.Duration())
        && ReleasedLifo(e.events)
        && e.events[0] == KeyDown(dir, true)
        && e.events[|e.events| - 3] == Sleep(arg.value.Duration())
        && e.events[|e.events| - 2] == KeyUp(d)
        && e.events[|e.events| - 1] == KeyUp(dir)
  {
    if arg.Parsed? && AsInt(dodge).Some? && Resolve(windows) != 0 && kb.directionVk(arg.value.Direction()).Some? {
      var a := arg.value;
      ShiftPlanReleases(kb.directionVk(a.Direction()).value, AsInt(dodge).value, a.DodgeDelay(), a.Duration());
    }
  }

  /** With both keys held, the pause, the dodge release and the direction release leave nothing held. */
  lemma ShiftPlanReleases(dir: int, dodge: int, delayMs: int, durationMs: int)
    ensures ReleasedLifo(ShiftPlan(dir, dodge, delayMs, durationMs))
  {
    var head := RunHead(dir, dodge, delayMs);
    var tail := [Sleep(durationMs), KeyUp(dodge), KeyUp(dir)];
    HeadHoldsBoth(dir, dodge, delayMs);
    UnwindAppend(head, tail, []);
    ReleaseBoth(dir, dodge);
    assert tail[1..] == [KeyUp(dodge), KeyUp(dir)];
  }

  /** After the head of a run the direction key and then the dodge key are held. */
  lemma HeadHoldsBoth(dir: int, dodge: int, delayMs: int)
    ensures Unwind(RunHead(dir, dodge, delayMs), []) == Some([dir, dodge])
  {
    var last := [KeyDown(dodge, false)];
    assert last[1..] == [] && [dir] + [dodge] == [dir, dodge];
    assert Unwind(last, [dir]) == Some([dir, dodge]);
    var rest := if delayMs > 0 then [Sleep(delayMs)] + last else last;
    assert Unwind(rest, [dir]) == Some([dir, dodge]) by {
      if delayMs > 0 {
        assert rest[1..] == last;
      }
    }
    var head := RunHead(dir, dodge, delayMs);
    assert head == [KeyDown(dir, true)] + rest;
    assert head[1..] == rest && [] + [dir] == [dir];
  }

  /**
   * With no failing calls, a run that reaches its keys succeeds exactly when the
   * duration is not negative: a negative hold time makes `time.sleep` raise.
   */
  lemma ShiftWithoutFaults(a: ShiftArgs, dodge: int, windows: seq<Window>, kb: Keyboard, n: nat)
    requires Resolve(windows) != 0 && kb.directionVk(a.Direction()).Some?
    ensures RunWithShiftEffect(Parsed(a), Int(dodge), windows, kb, {}, n).outcome == Success <==> a.Duration() >= 0
  {
    var dir := kb.directionVk(a.Direction()).value;
    var plan := ShiftPlan(dir, dodge, a.DodgeDelay(), a.Duration());
    var head := RunHead(dir, dodge, a.DodgeDelay());
    if a.Duration() >= 0 {
      CompletesWhenFree(plan, {}, n);
    } else {
      assert plan[|head|] == Sleep(a.Duration());
      RaiseBlocks(plan, {}, n, |head|);
    }
  }

  /**
   * RunWithShift releases nothing when it fails: if the hold time is negative
   * and no call fails, the action returns False with the direction and dodge
   * keys still down.
   */
  lemma ShiftFailureLeavesKeysHeld(a: ShiftArgs, dodge: int, windows: seq<Window>, kb: Keyboard, n: nat)
    requires Resolve(windows) != 0 && kb.directionVk(a.Direction()).Some?
    requires a.Duration() < 0
    ensures var e := RunWithShiftEffect(Parsed(a), Int(dodge), windows, kb, {}, n);
      e.outcome == Failure && Unwind(e.events, []) == Some([kb.directionVk(a.Direction()).value, dodge])
  {
    var dir := kb.directionVk(a.Direction()).value;
    var head := RunHead(dir, dodge, a.DodgeDelay());
    var stop := Sleep(a.Duration());
    var rest := [KeyUp(dodge), KeyUp(dir)];
    var plan := ShiftPlan(dir, dodge, a.DodgeDelay(), a.Duration());
    CompletesWhenFree(head, {}, n);
    assert plan == head + [stop] + rest;
    AttemptedStops(head, stop, rest, {}, n);
    assert RunWithShiftEffect(Parsed(a), Int(dodge), windows, kb, {}, n) == Effect(head + [stop], Failure);
    HeadHoldsBoth(dir, dodge, a.DodgeDelay());
    UnwindAppend(head, [stop], []);
  }

  /* ---- LongPressKey ---- */

  /**
   * LongPressKey.run: a falsy key is refused before the window lookup; a key
   * that is neither one character nor an int is refused after it; otherwise
   * one `long_press_key` call.
   */
  function LongPressKeyEffect(arg: Arg<KeyArgs>, windows: seq<Window>, kb: Keyboard, faults: set<nat>, n: nat): Effect {
    match arg
    case Unreadable => Effect([], Failure)
    case NotObject => Effect([], Uncaught)
    case Parsed(a) =>
      if !Truthy(a.Key()) || Resolve(windows) == 0 then Effect([], Failure)
      else match SingleKey(a.Key(), kb.charToVk)
        case None => Effect([], Failure)
        case Some(code) =>
          var call := LongPressCall(code, a.Duration());
          Effect([call], if Raises(faults, n, call) then Failure else Success)
  }

  method LongPressKey(host: Host, windows: seq<Window>, kb: Keyboard, arg: Arg<KeyArgs>) returns (r: Outcome)
    modifies host
    ensures host.trace == old(host.trace) + LongPressKeyEffect(arg, windows, kb, host.faults, |old(host.trace)|).events
    ensures r == LongPressKeyEffect(arg, windows, kb, host.faults, |old(host.trace)|).outcome
  {
    if arg.Unreadable? { return Failure; }
    if arg.NotObject? { return Uncaught; }
    var a := arg.value;
    if !Truthy(a.Key()) { return Failure; }
    var hwnd := Resolve(windows);
    if hwnd == 0 { return Failure; }
    var code := SingleKey(a.Key(), kb.charToVk);
    if code.None? { return Failure; }
    var ok := host.Call(LongPressCall(code.value, a.Duration()));
    r := if ok then Success else Failure;
  }

  /**
   * LongPressKey calls the input helper only with a truthy key that converts,
   * after a window is found, and then exactly once with the converted code and
   * the duration; a key that does not convert leaves no calls.
   */
  lemma LongPressKeyValidates(a: KeyArgs, windows: seq<Window>, kb: Keyboard, faults: set<nat>, n: nat)
    ensures var e := LongPressKeyEffect(Parsed(a), windows, kb, faults, n);
      e.events != [] <==> Truthy(a.Key()) && Resolve(windows) != 0 && SingleKey(a.Key(), kb.charToVk).Some?
    ensures var e := LongPressKeyEffect(Parsed(a), windows, kb, faults, n);
      e.events != [] ==> e.events == [LongPressCall(SingleKey(a.Key(), kb.charToVk).value, a.Duration())]
    ensures var e := LongPressKeyEffect(Parsed(a), windows, kb, faults, n);
      e.events == [] ==> e.outcome == Failure
  {
  }

  /* ---- PressMultipleKeys ---- */

  /**
   * PressMultipleKeys.run. `len(keys)` is logged before the `try`, so a truthy
   * value with no length (a number, true) lets the error escape. The keys are
   * converted one by one; the first that does not convert ends the action with
   * False before any key is sent.
   */
  function PressMultipleKeysEffect(arg: Arg<KeysArgs>, windows: seq<Window>, kb: Keyboard,
                                   faults: set<nat>, n: nat): Effect
  {
    match arg
    case Unreadable => Effect([], Failure)
    case NotObject => Effect([], Uncaught)
    case Parsed(a) =>
      if !Truthy(a.Keys()) then Effect([], Failure)
      else match Iterated(a.Keys())
        case None => Effect([], Uncaught)
        case Some(items) =>
          if Resolve(windows) == 0 then Effect([], Failure)
          else match ComboKeys(items, kb.charToVk)
            case None => Effect([], Failure)
            case Some(codes) =>
              var call := PressManyCall(codes, a.Duration());
              Effect([call], if Raises(faults, n, call) then Failure else Success)
  }

  method PressMultipleKeys(host: Host, windows: seq<Window>, kb: Keyboard, arg: Arg<KeysArgs>) returns (r: Outcome)
    modifies host
    ensures host.trace == old(host.trace) + PressMultipleKeysEffect(arg, windows, kb, host.faults, |old(host.trace)|).events
    ensures r == PressMultipleKeysEffect(arg, windows, kb, host.faults, |old(host.trace)|).outcome
  {
    if arg.Unreadable? { return Failure; }
    if arg.NotObject? { return Uncaught; }
    var a := arg.value;
    if !Truthy(a.Keys()) { return Failure; }
    var iterated := Iterated(a.Keys());
    if iterated.None? { return Uncaught; }
    var items := iterated.value;
    var hwnd := Resolve(windows);
    if hwnd == 0 { return Failure; }
    var codes: seq<int> := [];
    var i := 0;
    while i < |items|
      invariant 0 <= i <= |items| && |codes| == i
      invariant forall k :: 0 <= k < i ==> ComboKey(items[k], kb.charToVk) == Some(codes[k])
    {
      var vk := ComboKey(items[i], kb.charToVk);
      if vk.None? {
        return Failure;
      }
      codes := codes + [vk.value];
      i := i + 1;
    }
    var converted := ComboKeys(items, kb.charToVk);
    assert converted.Some?;
    assert converted.value == codes;
    var ok := host.Call(PressManyCall(codes, a.Duration()));
    r := if ok then Success else Failure;
  }

  /**
   * PressMultipleKeys sends keys only when every item converts: then it makes
   * one `press_multiple_keys` call whose codes are the items' codes in list
   * order; when some item does not convert it makes no call at all.
   */
  lemma PressMultipleKeysAllOrNothing(a: KeysArgs, windows: seq<Window>, kb: Keyboard, faults: set<nat>, n: nat)
    requires Truthy(a.Keys()) && Iterated(a.Keys()).Some? && Resolve(windows) != 0
    ensures var items := Iterated(a.Keys()).value;
      var e := PressMultipleKeysEffect(Parsed(a), windows, kb, faults, n);
      && ((exists k :: 0 <= k < |items| && ComboKey(items[k], kb.charToVk).None?) ==> e == Effect([], Failure))
      && ((forall k :: 0 <= k < |items| ==> ComboKey(items[k], kb.charToVk).Some?) ==>
            |e.events| == 1 && e.events[0].PressManyCall? && e.events[0].ms == a.Duration()
            && |e.events[0].codes| == |items|
            && forall k :: 0 <= k < |items| ==> e.events[0].codes[k] == ComboKey(items[k], kb.charToVk).value)
  {
  }

  /**
   * `keys` given as an object iterates over its dict keys: a name the text
   * repeats is converted and pressed once.
   */
  lemma RepeatedKeyNamePressedOnce(v1: Value, v2: Value, durationMs: Option<int>, windows: seq<Window>,
                                   kb: Keyboard, faults: set<nat>, n: nat)
    requires Resolve(windows) != 0
    ensures var a := KeysArgs(Some(Object([("w", v1), ("w", v2)])), durationMs);
      PressMultipleKeysEffect(Parsed(a), windows, kb, faults, n).events ==
        if kb.charToVk('w').Some? then [PressManyCall([kb.charToVk('w').value], a.Duration())] else []
  {
    RepeatedNameOnce(v1, v2);
    assert ComboKey(Str("w"), kb.charToVk) == kb.charToVk('w');
    var codes := ComboKeys([Str("w")], kb.charToVk);
    if kb.charToVk('w').Some? {
      assert codes.Some? && |codes.value| == 1 && codes.value[0] == kb.charToVk('w').value;
      assert codes.value == [kb.charToVk('w').value];
    } else {
      assert codes.None?;
    }
  }

  /** Without a game window no gesture sends a key or returns True. */
  lemma NoWindowNoKeys(windows: seq<Window>, kb: Keyboard, dodge: Value, faults: set<nat>, n: nat,
                       shift: Arg<ShiftArgs>, press: Arg<KeyArgs>, many: Arg<KeysArgs>,
                       jump: Arg<JumpArgs>, readings: seq<int>)
    requires Resolve(windows) == 0
    requires jump.Parsed? ==> ClockRunsOut(readings, jump.value.Duration())
    ensures RunWithShiftEffect(shift, dodge, windows, kb, faults, n).events == []
    ensures RunWithShiftEffect(shift, dodge, windows, kb, faults, n).outcome != Success
    ensures LongPressKeyEffect(press, windows, kb, faults, n) .events == []
    ensures LongPressKeyEffect(press, windows, kb, faults, n).outcome != Success
    ensures PressMultipleKeysEffect(many, windows, kb, faults, n).events == []
    ensures PressMultipleKeysEffect(many, windows, kb, faults, n).outcome != Success
    ensures RunWithJumpEffect(jump, dodge, windows, kb, readings, faults, n).events == []
    ensures RunWithJumpEffect(jump, dodge, windows, kb, readings, faults, n).outcome != Success
  {
  }

  /* ---- RunWithJump ---- */

  /** The calls of RunWithJump's `try` block when none of them raises. */
  function JumpPlan(dir: int, dodge: int, delayMs: int, readings: seq<int>, durationMs: int,
                    intervalMs: int, pressMs: int): seq<Event>
    requires ClockRunsOut(readings, durationMs)
  {
    RunHead(dir, dodge, delayMs) + LoopEvents(JumpLoop(readings, durationMs, intervalMs), pressMs)
      + [KeyUp(dodge), KeyUp(dir)]
  }

  /** The releases the `except` block attempts, stopping at the first that raises. */
  function JumpCleanup(dir: int, dodge: int): seq<Event> {
    [KeyUp(VkSpace), KeyUp(dodge), KeyUp(dir)]
  }

  /**
   * The `try` block of RunWithJump once the direction key is known, with its
   * `except` block: when a call raises, the releases of space, the dodge key
   * and the direction key are attempted in that order, giving up at the first
   * release that raises, and the action returns False.
   */
  function JumpAttempt(dir: int, dodge: int, a: JumpArgs, readings: seq<int>, faults: set<nat>, n: nat): Effect
    requires ClockRunsOut(readings, a.Duration())
  {
    var plan := JumpPlan(dir, dodge, a.DodgeDelay(), readings, a.Duration(), a.Interval(), a.Press());
    var main := Attempted(plan, faults, n);
    if Completes(plan, faults, n) then Effect(main, Success)
    else Effect(main + Attempted(JumpCleanup(dir, dodge), faults, n + |main|), Failure)
  }

  /**
   * RunWithJump.run. As in RunWithShift the dodge key is formatted before the
   * `try`. When `get_direction_vk` itself raises, the direction key is unbound,
   * so the `except` block releases only space and the dodge key before the
   * third release fails on the missing name.
   */
  function RunWithJumpEffect(arg: Arg<JumpArgs>, dodge: Value, windows: seq<Window>, kb: Keyboard,
                             readings: seq<int>, faults: set<nat>, n: nat): Effect
    requires arg.Parsed? ==> ClockRunsOut(readings, arg.value.Duration())
  {
    match arg
    case Unreadable => Effect([], Failure)
    case NotObject => Effect([], Uncaught)
    case Parsed(a) =>
      if AsInt(dodge).None? then Effect([], Uncaught)
      else if Resolve(windows) == 0 then Effect([], Failure)
      else match kb.directionVk(a.Direction())
        case None => Effect(Attempted([KeyUp(VkSpace), KeyUp(AsInt(dodge).value)], faults, n), Failure)
        case Some(dir) => JumpAttempt(dir, AsInt(dodge).value, a, readings, faults, n)
  }

  /** The calls of the `try` block of RunWithJump: head, jump loop, releases. */
  method JumpBody(host: Host, dir: int, dodge: int, delayMs: int, readings: seq<int>, durationMs: int,
                  intervalMs: int, pressMs: int) returns (ok: bool)
    requires ClockRunsOut(readings, durationMs)
    modifies host
    ensures host.trace == old(host.trace)
              + Attempted(JumpPlan(dir, dodge, delayMs, readings, durationMs, intervalMs, pressMs), host.faults, |old(host.trace)|)
    ensures ok == Completes(JumpPlan(dir, dodge, delayMs, readings, durationMs, intervalMs, pressMs), host.faults, |old(host.trace)|)
  {
    ghost var t0 := host.trace;
    ghost var n0 := |t0|;
    ghost var faults := host.faults;
    var head := RunHead(dir, dodge, delayMs);
    ghost var body := LoopEvents(JumpLoop(readings, durationMs, intervalMs), pressMs);
    var tail := [KeyUp(dodge), KeyUp(dir)];
    ghost var plan := JumpPlan(dir, dodge, delayMs, readings, durationMs, intervalMs, pressMs);
    assert plan == head + body + tail;
    AttemptedThree(head, body, tail, faults, n0);
    assert host.trace[n0..] == [];
    ok := host.Steps(head, head, n0);
    if !ok {
      assert host.trace == t0 + Attempted(plan, faults, n0);
      return;
    }
    ok := JumpPasses(host, readings, durationMs, intervalMs, pressMs);
    if !ok {
      Reassociate(t0, head, Attempted(body, faults, n0 + |head|));
      assert host.trace == t0 + Attempted(plan, faults, n0);
      return;
    }
    ghost var mid := host.trace;
    assert Completes(head, faults, n0) && Completes(body, faults, n0 + |head|);
    assert mid == t0 + (head + body) by {
      Reassociate(t0, head, body);
    }
    assert |mid| == n0 + |head| + |body|;
    assert mid[|mid|..] == [];
    ok := host.Steps(tail, tail, |mid|);
    ghost var last := Attempted(tail, faults, |mid|);
    assert host.trace == mid + last;
    assert Attempted(plan, faults, n0) == (head + body) + last;
    assert ok == Completes(plan, faults, n0);
    Reassociate(t0, head + body, last);
    assert host.trace == t0 + Attempted(plan, faults, n0);
  }

  /** A pass short of the duration: its calls come first, then those of the passes after it. */
  lemma PassEvents(readings: seq<int>, i: nat, due: int, durationMs: int, intervalMs: int, pressMs: int)
    requires ClockRunsOut(readings, durationMs) && 1 <= i < |readings|
    requires readings[i] - readings[0] < durationMs
    ensures var now := readings[i];
      var rest := Schedule(readings, i + 1, if now >= due then now + intervalMs else due, durationMs, intervalMs);
      LoopEvents(Schedule(readings, i, due, durationMs, intervalMs), pressMs)
      == (if now >= due then [KeyDown(VkSpace, false), Sleep(pressMs), KeyUp(VkSpace)] else [Sleep(IdleSleepMs)])
         + LoopEvents(rest, pressMs)
  {
    var now := readings[i];
    var t := Tick(now, due);
    var rest := Schedule(readings, i + 1, if now >= due then now + intervalMs else due, durationMs, intervalMs);
    assert Schedule(readings, i, due, durationMs, intervalMs) == [t] + rest;
    assert ([t] + rest)[1..] == rest;
  }

  /** The `while True` loop of RunWithJump: one pass per clock reading until the duration is over. */
  method JumpPasses(host: Host, readings: seq<int>, durationMs: int, intervalMs: int, pressMs: int) returns (ok: bool)
    requires ClockRunsOut(readings, durationMs)
    modifies host
    ensures host.trace == old(host.trace)
              + Attempted(LoopEvents(JumpLoop(readings, durationMs, intervalMs), pressMs), host.faults, |old(host.trace)|)
    ensures ok == Completes(LoopEvents(JumpLoop(readings, durationMs, intervalMs), pressMs), host.faults, |old(host.trace)|)
  {
    ghost var t0 := host.trace;
    ghost var n0 := |t0|;
    ghost var all := LoopEvents(JumpLoop(readings, durationMs, intervalMs), pressMs);
    var start := readings[0];
    var next := start + intervalMs;
    var i := 1;
    ghost var sofar: seq<Event> := [];
    while true
      invariant 1 <= i < |readings|
      invariant host.trace == t0 + sofar
      invariant all == sofar + LoopEvents(Schedule(readings, i, next, durationMs, intervalMs), pressMs)
      invariant Completes(sofar, host.faults, n0)
      decreases |readings| - i
    {
      var now := readings[i];
      if now - start >= durationMs {
        break;
      }
      var due := if now >= next then now + intervalMs else next;
      ghost var rest := Schedule(readings, i + 1, due, durationMs, intervalMs);
      var steps := if now >= next then [KeyDown(VkSpace, false), Sleep(pressMs), KeyUp(VkSpace)] else [Sleep(IdleSleepMs)];
      PassEvents(readings, i, next, durationMs, intervalMs, pressMs);
      Reassociate(sofar, steps, LoopEvents(rest, pressMs));
      assert host.trace[n0..] == sofar;
      ghost var before := host.trace;
      ok := host.Steps(steps, all, n0);
      if !ok {
        Reassociate(t0, sofar, Attempted(steps, host.faults, |before|));
        assert host.trace == t0 + host.trace[n0..];
        return;
      }
      Reassociate(t0, sofar, steps);
      sofar := sofar + steps;
      next := due;
      i := i + 1;
    }
    assert sofar == all;
    AttemptedAll(all, host.faults, n0);
    ok := true;
  }

  /** The `try` block of RunWithJump and its `except` block, once the direction key is known. */
  method JumpAttemptCalls(host: Host, dir: int, dodge: int, a: JumpArgs, readings: seq<int>) returns (r: Outcome)
    requires ClockRunsOut(readings, a.Duration())
    modifies host
    ensures host.trace == old(host.trace) + JumpAttempt(dir, dodge, a, readings, host.faults, |old(host.trace)|).events
    ensures r == JumpAttempt(dir, dodge, a, readings, host.faults, |old(host.trace)|).outcome
  {
    ghost var t0 := host.trace;
    ghost var plan := JumpPlan(dir, dodge, a.DodgeDelay(), readings, a.Duration(), a.Interval(), a.Press());
    var ok := JumpBody(host, dir, dodge, a.DodgeDelay(), readings, a.Duration(), a.Interval(), a.Press());
    ghost var main := Attempted(plan, host.faults, |t0|);
    ghost var effect := JumpAttempt(dir, dodge, a, readings, host.faults, |t0|);
    if ok {
      assert effect == Effect(main, Success);
      return Success;
    }
    var cleanup := JumpCleanup(dir, dodge);
    ghost var released := Attempted(cleanup, host.faults, |t0| + |main|);
    assert effect == Effect(main + released, Failure);
    assert host.trace[|host.trace|..] == [];
    assert |host.trace| == |t0| + |main|;
    var _ := host.Steps(cleanup, cleanup, |host.trace|);
    Reassociate(t0, main, released);
    r := Failure;
  }

  method RunWithJump(host: Host, config: RuntimeConfig, windows: seq<Window>, kb: Keyboard, readings: seq<int>,
                     arg: Arg<JumpArgs>) returns (r: Outcome)
    requires arg.Parsed? ==> ClockRunsOut(readings, arg.value.Duration())
    modifies host
    ensures host.trace == old(host.trace)
              + RunWithJumpEffect(arg, config.DodgeKey(), windows, kb, readings, host.faults, |old(host.trace)|).events
    ensures r == RunWithJumpEffect(arg, config.DodgeKey(), windows, kb, readings, host.faults, |old(host.trace)|).outcome
  {
    if arg.Unreadable? { return Failure; }
    if arg.NotObject? { return Uncaught; }
    var a := arg.value;
    var dodge := AsInt(config.DodgeKey());
    if dodge.None? { return Uncaught; }
    var hwnd := Resolve(windows);
    if hwnd == 0 { return Failure; }
    var dir := kb.directionVk(a.Direction());
    if dir.None? {
      var released := [KeyUp(VkSpace), KeyUp(dodge.value)];
      assert host.trace[|host.trace|..] == [];
      var _ := host.Steps(released, released, |host.trace|);
      return Failure;
    }
    r := JumpAttemptCalls(host, dir.value, dodge.value, a, readings);
  }

  /**
   * A successful RunWithJump presses the direction key, then the dodge key,
   * taps space once per jump of the schedule, and releases the dodge key and
   * then the direction key, leaving no key held.
   */
  lemma JumpSucceeds(a: JumpArgs, dodge: int, windows: seq<Window>, kb: Keyboard, readings: seq<int>,
                     faults: set<nat>, n: nat)
    requires ClockRunsOut(readings, a.Duration())
    ensures var e := RunWithJumpEffect(Parsed(a), Int(dodge), windows, kb, readings, faults, n);
      e.outcome == Success ==>
        var dir := kb.directionVk(a.Direction()).value;
        && e.events == JumpPlan(dir, dodge, a.DodgeDelay(), readings, a.Duration(), a.Interval(), a.Press())
        && ReleasedLifo(e.events)
        && e.events[0] == KeyDown(dir, true)
        && e.events[|e.events| - 2] == KeyUp(dodge)
        && e.events[|e.events| - 1] == KeyUp(dir)
  {
    var e := RunWithJumpEffect(Parsed(a), Int(dodge), windows, kb, readings, faults, n);
    if e.outcome == Success {
      var dir := kb.directionVk(a.Direction()).value;
      var plan := JumpPlan(dir, dodge, a.DodgeDelay(), readings, a.Duration(), a.Interval(), a.Press());
      assert e.events == plan;
      JumpPlanReleases(dir, dodge, a.DodgeDelay(), readings, a.Duration(), a.Interval(), a.Press());
    }
  }

  /** The calls of a RunWithJump that completes press and release every key in last-in first-out order. */
  lemma JumpPlanReleases(dir: int, dodge: int, delayMs: int, readings: seq<int>, durationMs: int,
                         intervalMs: int, pressMs: int)
    requires ClockRunsOut(readings, durationMs)
    ensures ReleasedLifo(JumpPlan(dir, dodge, delayMs, readings, durationMs, intervalMs, pressMs))
  {
    var head := RunHead(dir, dodge, delayMs);
    var body := LoopEvents(JumpLoop(readings, durationMs, intervalMs), pressMs);
    var tail := [KeyUp(dodge), KeyUp(dir)];
    HeadHoldsBoth(dir, dodge, delayMs);
    LoopReleasesSpace(JumpLoop(readings, durationMs, intervalMs), pressMs, [dir, dodge]);
    UnwindAppend(head, body, []);
    UnwindAppend(head + body, tail, []);
    ReleaseBoth(dir, dodge);
  }

  /** Releasing the dodge key and then the direction key leaves nothing held. */
  lemma ReleaseBoth(dir: int, dodge: int)
    ensures Unwind([KeyUp(dodge), KeyUp(dir)], [dir, dodge]) == Some([])
  {
    var both := [dir, dodge];
    assert both[..1] == [dir] && [dir][..0] == [];
    assert Unwind([KeyUp(dir)], [dir]) == Some([]);
  }

  /**
   * With no failing calls and a jump press time that is not negative, a
   * RunWithJump that finds its window and direction key succeeds.
   */
  lemma JumpWithoutFaults(a: JumpArgs, dodge: int, windows: seq<Window>, kb: Keyboard, readings: seq<int>, n: nat)
    requires ClockRunsOut(readings, a.Duration())
    requires Resolve(windows) != 0 && kb.directionVk(a.Direction()).Some?
    requires a.Press() >= 0
    ensures RunWithJumpEffect(Parsed(a), Int(dodge), windows, kb, readings, {}, n).outcome == Success
  {
    var dir := kb.directionVk(a.Direction()).value;
    var loop := JumpLoop(readings, a.Duration(), a.Interval());
    var plan := JumpPlan(dir, dodge, a.DodgeDelay(), readings, a.Duration(), a.Interval(), a.Press());
    LoopSleepsNonNegative(loop, a.Press());
    CompletesWhenFree(plan, {}, n);
  }

  /** The loop sleeps only for the idle pause and the jump press time. */
  lemma {:induction false} LoopSleepsNonNegative(s: seq<Tick>, pressMs: int)
    requires pressMs >= 0
    ensures forall e :: e in LoopEvents(s, pressMs) && e.Sleep? ==> e.ms >= 0
  {
    if s != [] {
      LoopSleepsNonNegative(s[1..], pressMs);
      assert LoopEvents(s, pressMs) == TickEvents(s[0], pressMs) + LoopEvents(s[1..], pressMs);
    }
  }

  /**
   * When a call in RunWithJump's `try` raises, the action returns False after
   * attempting the releases of space, the dodge key and the direction key,
   * in that order; when none of those releases raises, they are the last
   * three calls.
   */
  lemma JumpFailureReleases(a: JumpArgs, dodge: int, windows: seq<Window>, kb: Keyboard, readings: seq<int>,
                            faults: set<nat>, n: nat)
    requires ClockRunsOut(readings, a.Duration())
    requires Resolve(windows) != 0 && kb.directionVk(a.Direction()).Some?
    ensures var dir := kb.directionVk(a.Direction()).value;
      var plan := JumpPlan(dir, dodge, a.DodgeDelay(), readings, a.Duration(), a.Interval(), a.Press());
      var main := Attempted(plan, faults, n);
      var e := RunWithJumpEffect(Parsed(a), Int(dodge), windows, kb, readings, faults, n);
      && (e.outcome == Failure <==> !Completes(plan, faults, n))
      && (e.outcome == Failure && (forall j :: n + |main| <= j < n + |main| + 3 ==> j !in faults) ==>
            |e.events| >= 4
            && e.events[..|e.events| - 3] == main
            && e.events[|e.events| - 3..] == [KeyUp(VkSpace), KeyUp(dodge), KeyUp(dir)])
  {
    var dir := kb.directionVk(a.Direction()).value;
    var plan := JumpPlan(dir, dodge, a.DodgeDelay(), readings, a.Duration(), a.Interval(), a.Press());
    var main := Attempted(plan, faults, n);
    var cleanup := JumpCleanup(dir, dodge);
    if !Completes(plan, faults, n) && (forall j :: n + |main| <= j < n + |main| + 3 ==> j !in faults) {
      CompletesWhenFree(cleanup, faults, n + |main|);
    }
  }
}
