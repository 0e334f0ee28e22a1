/**
 * The controller actions of my_action.py: SetDodgeKey, which writes the
 * dodge-key setting and refreshes the capture, LongPressMultipleKeys, which
 * holds a list of keys together, and SequentialLongPress, which presses keys
 * one after the other, holds them, and releases them in press order.
 */
module MyAction {
  import opened Wrappers
  import opened Json
  import opened WindowResolver
  import opened KeyCodes
  import opened Effects
  import opened Config
  import opened JumpSchedule
  import opened Actions

  /* ---- SetDodgeKey ---- */

  /** SetDodgeKey's parameters; an absent key means Shift. */
  datatype DodgeArgs = DodgeArgs(dodgeKey: Option<Value>) {
    function Key(): Value { dodgeKey.GetOr(Int(VkShift)) }
  }

  /** The settings after SetDodgeKey: the key is stored as given, before anything checks it. */
  function SettingsAfter(settings: map<string, Value>, arg: Arg<DodgeArgs>): map<string, Value> {
    if arg.Parsed? then settings[DodgeSetting := arg.value.Key()] else settings
  }

  /**
   * SetDodgeKey.run. Everything, reading the parameters included, is inside
   * the `try`; formatting a key that is not an int as hexadecimal raises after
   * the write, and then no capture is made.
   */
  function SetDodgeKeyEffect(arg: Arg<DodgeArgs>, faults: set<nat>, n: nat): Effect {
    if !arg.Parsed? || AsInt(arg.value.Key()).None? then Effect([], Failure)
    else Effect([Screencap], if Raises(faults, n, Screencap) then Failure else Success)
  }

  method SetDodgeKey(host: Host, config: RuntimeConfig, arg: Arg<DodgeArgs>) returns (r: Outcome)
    modifies host, config
    ensures config.settings == SettingsAfter(old(config.settings), arg)
    ensures host.trace == old(host.trace) + SetDodgeKeyEffect(arg, host.faults, |old(host.trace)|).events
    ensures r == SetDodgeKeyEffect(arg, host.faults, |old(host.trace)|).outcome
  {
    if !arg.Parsed? {
      return Failure;
    }
    var key := arg.value.Key();
    config.settings := config.settings[DodgeSetting := key];
    if AsInt(key).None? {
      return Failure;
    }
    var ok := host.Call(Screencap);
    r := if ok then Success else Failure;
  }

  /**
   * SetDodgeKey stores the given key, or Shift when none is given, as the
   * dodge key, and leaves every other setting as it was; parameters it cannot
   * read store nothing.
   */
  lemma SetDodgeKeyStores(settings: map<string, Value>, arg: Arg<DodgeArgs>)
    ensures var after := SettingsAfter(settings, arg);
      && (arg.Parsed? ==> DodgeSetting in after && DodgeKeyIn(after) == arg.value.Key())
      && (arg == Parsed(DodgeArgs(None)) ==> DodgeKeyIn(after) == Int(VkShift))
      && (!arg.Parsed? ==> after == settings)
      && (forall k :: k != DodgeSetting ==> (k in after <==> k in settings))
      && (forall k :: k in settings && k != DodgeSetting ==> after[k] == settings[k])
  {
  }

  /**
   * SetDodgeKey never lets an error escape, makes at most one call, a capture,
   * and returns True exactly when it stored an int key and that capture went
   * through.
   */
  lemma SetDodgeKeyCaptures(arg: Arg<DodgeArgs>, faults: set<nat>, n: nat)
    ensures var e := SetDodgeKeyEffect(arg, faults, n);
      && e.outcome != Uncaught
      && |e.events| <= 1
      && (forall k :: 0 <= k < |e.events| ==> e.events[k] == Screencap)
      && (e.events == [] <==> !arg.Parsed? || AsInt(arg.value.Key()).None?)
      && (e.outcome == Success <==> arg.Parsed? && AsInt(arg.value.Key()).Some? && !Raises(faults, n, Screencap))
  {
  }

  /**
   * The stored key is the one the gestures use. A key that is not an int makes
   * SetDodgeKey fail yet stays stored, and then RunWithShift and RunWithJump let
   * the formatting error escape before any call. An int key is the dodge key a
   * successful RunWithShift or RunWithJump releases just before the direction key.
   */
  lemma StoredDodgeKeyReachesGestures(settings: map<string, Value>, d: DodgeArgs, shift: ShiftArgs, jump: JumpArgs,
                                      windows: seq<Window>, kb: Keyboard, readings: seq<int>, faults: set<nat>, n: nat)
    requires ClockRunsOut(readings, jump.Duration())
    ensures var key := DodgeKeyIn(SettingsAfter(settings, Parsed(d)));
      AsInt(d.Key()).None? ==>
        && SetDodgeKeyEffect(Parsed(d), faults, n).outcome == Failure
        && RunWithShiftEffect(Parsed(shift), key, windows, kb, faults, n) == Effect([], Uncaught)
        && RunWithJumpEffect(Parsed(jump), key, windows, kb, readings, faults, n) == Effect([], Uncaught)
    ensures var key := DodgeKeyIn(SettingsAfter(settings, Parsed(d)));
      var e := RunWithShiftEffect(Parsed(shift), key, windows, kb, faults, n);
      e.outcome == Success ==> AsInt(d.Key()).Some? && e.events[|e.events| - 2] == KeyUp(AsInt(d.Key()).value)
    ensures var key := DodgeKeyIn(SettingsAfter(settings, Parsed(d)));
      var e := RunWithJumpEffect(Parsed(jump), key, windows, kb, readings, faults, n);
      e.outcome == Success ==> AsInt(d.Key()).Some? && e.events[|e.events| - 2] == KeyUp(AsInt(d.Key()).value)
  {
    var key := DodgeKeyIn(SettingsAfter(settings, Parsed(d)));
    assert key == d.Key();
    ShiftSucceeds(Parsed(shift), key, windows, kb, faults, n);
    if AsInt(key).Some? {
      var v := AsInt(key).value;
      assert RunWithJumpEffect(Parsed(jump), key, windows, kb, readings, faults, n)
          == RunWithJumpEffect(Parsed(jump), Int(v), windows, kb, readings, faults, n);
      JumpSucceeds(jump, v, windows, kb, readings, faults, n);
    }
  }

  /* ---- LongPressMultipleKeys ---- */

  /** LongPressMultipleKeys' parameters. */
  datatype HoldArgs = HoldArgs(keys: Option<Value>, durationMs: Option<int>) {
    function Keys(): Value { keys.GetOr(Array([])) }
    function Duration(): int { durationMs.GetOr(1000) }
  }

  /** `keys` must be a non-empty list. */
  predicate HoldAccepts(a: HoldArgs) {
    a.Keys().Array? && a.Keys().items != []
  }

  /** Every key down in list order, one hold, every key up in the same order. */
  function HoldPlan(keys: seq<Value>, durationMs: int): seq<Event> {
    Posts(keys, true) + [Sleep(durationMs)] + Posts(keys, false)
  }

  /**
   * LongPressMultipleKeys.run. `params.get` is outside any `try`. The `try`
   * block has no cleanup: a raising call ends the action with whatever keys
   * are down.
   */
  function LongPressMultipleKeysEffect(arg: Arg<HoldArgs>, faults: set<nat>, n: nat): Effect {
    match arg
    case Unreadable => Effect([], Failure)
    case NotObject => Effect([], Uncaught)
    case Parsed(a) =>
      if !HoldAccepts(a) then Effect([], Failure)
      else
        var plan := HoldPlan(a.Keys().items, a.Duration());
        Effect(Attempted(plan, faults, n), if Completes(plan, faults, n) then Success else Failure)
  }

  method LongPressMultipleKeys(host: Host, arg: Arg<HoldArgs>) returns (r: Outcome)
    modifies host
    ensures host.trace == old(host.trace) + LongPressMultipleKeysEffect(arg, host.faults, |old(host.trace)|).events
    ensures r == LongPressMultipleKeysEffect(arg, host.faults, |old(host.trace)|).outcome
  {
    if arg.Unreadable? {
      return Failure;
    }
    if arg.NotObject? {
      return Uncaught;
    }
    var a := arg.value;
    if !(a.Keys().Array? && a.Keys().items != []) {
      return Failure;
    }
    var plan := HoldPlan(a.Keys().items, a.Duration());
    assert host.trace[|host.trace|..] == [];
    var ok := host.Steps(plan, plan, |host.trace|);
    r := if ok then Success else Failure;
  }

  /**
   * LongPressMultipleKeys succeeds exactly when `keys` is a non-empty list and
   * no call raises; it then posts every key down in list order, holds once,
   * and posts every key up in the same order.
   */
  lemma HoldSucceeds(arg: Arg<HoldArgs>, faults: set<nat>, n: nat)
    ensures var e := LongPressMultipleKeysEffect(arg, faults, n);
      e.outcome == Success <==>
        arg.Parsed? && HoldAccepts(arg.value) && Completes(HoldPlan(arg.value.Keys().items, arg.value.Duration()), faults, n)
    ensures var e := LongPressMultipleKeysEffect(arg, faults, n);
      e.outcome == Success ==>
        var keys := arg.value.Keys().items;
        && e.events == HoldPlan(keys, arg.value.Duration())
        && PostedDowns(e.events) == keys && PostedUps(e.events) == keys
        && e.events[|keys|] == Sleep(arg.value.Duration())
  {
    if arg.Parsed? && HoldAccepts(arg.value) {
      var keys := arg.value.Keys().items;
      var plan := HoldPlan(keys, arg.value.Duration());
      AttemptedShape(plan, faults, n);
      PostedAppend(Posts(keys, true), [Sleep(arg.value.Duration())]);
      PostedAppend(Posts(keys, true) + [Sleep(arg.value.Duration())], Posts(keys, false));
      PostedKeys(keys);
    }
  }

  /**
   * A rejected key list makes no call. Otherwise a failure makes the plan's
   * calls up to the one that raised and nothing after it: no key is released
   * that the plan would not have released at that point.
   */
  lemma HoldFailureStops(arg: Arg<HoldArgs>, faults: set<nat>, n: nat)
    ensures arg.Parsed? && !HoldAccepts(arg.value) ==> LongPressMultipleKeysEffect(arg, faults, n) == Effect([], Failure)
    ensures var e := LongPressMultipleKeysEffect(arg, faults, n);
      arg.Parsed? && HoldAccepts(arg.value) && e.outcome == Failure ==>
        && e.events <= HoldPlan(arg.value.Keys().items, arg.value.Duration())
        && |e.events| > 0
        && Raises(faults, n + |e.events| - 1, e.events[|e.events| - 1])
  {
    if arg.Parsed? && HoldAccepts(arg.value) {
      AttemptedShape(HoldPlan(arg.value.Keys().items, arg.value.Duration()), faults, n);
    }
  }

  /** With no failing call and a hold that is not negative, a non-empty list of keys is always held and released. */
  lemma HoldWithoutFaults(a: HoldArgs, n: nat)
    requires HoldAccepts(a) && a.Duration() >= 0
    ensures LongPressMultipleKeysEffect(Parsed(a), {}, n).outcome == Success
  {
    var keys := a.Keys().items;
    var plan := HoldPlan(keys, a.Duration());
    PostsAt(keys, true);
    PostsAt(keys, false);
    forall e | e in plan && e.Sleep?
      ensures e.ms >= 0
    {
      assert e in Posts(keys, true) + [Sleep(a.Duration())] + Posts(keys, false);
    }
    CompletesWhenFree(plan, {}, n);
  }

  /* ---- SequentialLongPress ---- */

  /** An item of `key_sequence`: an object, with its key and delay if present, or anything else. */
  datatype Entry = Entry(key: Option<Value>, delayMs: Option<int>) | NotAnObject {
    function Key(): Value requires Entry? { key.GetOr(Null) }
    function Delay(): int requires Entry? { delayMs.GetOr(0) }
  }

  /** `key_sequence`: a list of items, or a value of another kind. */
  datatype KeySequence = Entries(entries: seq<Entry>) | NotAList

  /** SequentialLongPress' parameters. */
  datatype SequenceArgs = SequenceArgs(keySequence: Option<KeySequence>, holdMs: Option<int>) {
    function Sequence(): KeySequence { keySequence.GetOr(Entries([])) }
    function Hold(): int { holdMs.GetOr(1000) }
  }

  predicate AllObjects(entries: seq<Entry>) {
    forall j :: 0 <= j < |entries| ==> entries[j].Entry?
  }

  /** How many items, from the first, are objects: `.get` raises on the first one that is not. */
  function ObjectCount(entries: seq<Entry>): (k: nat)
    ensures k <= |entries|
    ensures forall j :: 0 <= j < k ==> entries[j].Entry?
    ensures k < |entries| ==> entries[k].NotAnObject?
  {
    if entries == [] || entries[0].NotAnObject? then 0 else 1 + ObjectCount(entries[1..])
  }

  /** One item's calls: its delay, only when positive, then its key down. */
  function EntryCalls(e: Entry): seq<Event>
    requires e.Entry?
  {
    (if e.Delay() > 0 then [Sleep(e.Delay())] else []) + [PostKeyDown(e.Key())]
  }

  /** The press loop's calls over items that are all objects. */
  function PressCalls(entries: seq<Entry>): seq<Event>
    requires AllObjects(entries)
  {
    if entries == [] then [] else PressCalls(entries[..|entries| - 1]) + EntryCalls(entries[|entries| - 1])
  }

  /** The keys of items that are all objects, in order. */
  function KeysOf(entries: seq<Entry>): seq<Value>
    requires AllObjects(entries)
  {
    if entries == [] then [] else KeysOf(entries[..|entries| - 1]) + [entries[|entries| - 1].Key()]
  }

  /**
   * The calls of the `try` block when none raises: the press loop up to the
   * first item that is not an object; if there is none, the hold and then a
   * key up for every key, in press order.
   */
  function SequencePlan(entries: seq<Entry>, holdMs: int): seq<Event> {
    var k := ObjectCount(entries);
    PressCalls(entries[..k]) + (if k == |entries| then [Sleep(holdMs)] + Posts(KeysOf(entries), false) else [])
  }

  /** `pressed_keys`: the keys whose key down returned, which leaves out a last call that raised. */
  function Pressed(calls: seq<Event>, completed: bool): seq<Value> {
    PostedDowns(if completed || calls == [] then calls else calls[..|calls| - 1])
  }

  /**
   * SequentialLongPress.run. `params.get` is outside any `try`. When the `try`
   * block fails, or stops at an item that is not an object, every pressed key
   * is released in press order, each release in its own `try`, so every one
   * is attempted whatever the others do.
   */
  function SequentialLongPressEffect(arg: Arg<SequenceArgs>, faults: set<nat>, n: nat): Effect {
    match arg
    case Unreadable => Effect([], Failure)
    case NotObject => Effect([], Uncaught)
    case Parsed(a) =>
      match a.Sequence()
      case NotAList => Effect([], Failure)
      case Entries(entries) =>
        if entries == [] then Effect([], Failure)
        else
          var plan := SequencePlan(entries, a.Hold());
          var main := Attempted(plan, faults, n);
          var done := Completes(plan, faults, n);
          if done && ObjectCount(entries) == |entries| then Effect(main, Success)
          else Effect(main + Posts(Pressed(main, done), false), Failure)
  }

  lemma {:induction false} PressDownsAreKeys(entries: seq<Entry>)
    requires AllObjects(entries)
    ensures PostedDowns(PressCalls(entries)) == KeysOf(entries)
  {
    if entries != [] {
      var init := entries[..|entries| - 1];
      var e := entries[|entries| - 1];
      PressDownsAreKeys(init);
      PostedAppend(PressCalls(init), EntryCalls(e));
      if e.Delay() > 0 {
        PostedAppend([Sleep(e.Delay())], [PostKeyDown(e.Key())]);
      }
    }
  }

  lemma {:induction false} PressUpsAbsent(entries: seq<Entry>)
    requires AllObjects(entries)
    ensures PostedUps(PressCalls(entries)) == []
  {
    if entries != [] {
      var init := entries[..|entries| - 1];
      var e := entries[|entries| - 1];
      PressUpsAbsent(init);
      PostedAppend(PressCalls(init), EntryCalls(e));
      if e.Delay() > 0 {
        PostedAppend([Sleep(e.Delay())], [PostKeyDown(e.Key())]);
      }
    }
  }

  lemma {:induction false} PressCallsPrefix(entries: seq<Entry>, i: nat)
    requires AllObjects(entries) && i <= |entries|
    ensures PressCalls(entries[..i]) <= PressCalls(entries)
    decreases |entries|
  {
    if i < |entries| {
      var init := entries[..|entries| - 1];
      assert init[..i] == entries[..i];
      PressCallsPrefix(init, i);
    } else {
      assert entries[..i] == entries;
    }
  }

  lemma {:induction false} NoDowns(s: seq<Event>)
    requires forall j :: 0 <= j < |s| ==> !s[j].PostKeyDown?
    ensures PostedDowns(s) == []
  {
    if s != [] {
      NoDowns(s[1..]);
    }
  }

  /** The hold and any prefix of the releases press no key. */
  lemma NoDownsAfterPresses(holdMs: int, keys: seq<Value>, x: nat)
    requires x <= 1 + |keys|
    ensures PostedDowns(([Sleep(holdMs)] + Posts(keys, false))[..x]) == []
  {
    var rest := ([Sleep(holdMs)] + Posts(keys, false))[..x];
    PostsAt(keys, false);
    forall j | 0 <= j < |rest|
      ensures !rest[j].PostKeyDown?
    {
      if j > 0 {
        assert rest[j] == Posts(keys, false)[j - 1];
      }
    }
    NoDowns(rest);
  }

  /** Once the press loop is over, the later calls of the plan press nothing. */
  lemma DownsStopAfterPresses(entries: seq<Entry>, holdMs: int, m: nat)
    requires AllObjects(entries)
    requires |PressCalls(entries)| <= m <= |SequencePlan(entries, holdMs)|
    ensures PostedDowns(SequencePlan(entries, holdMs)[..m]) == KeysOf(entries)
  {
    var presses := PressCalls(entries);
    var k := ObjectCount(entries);
    assert k == |entries| && entries[..k] == entries;
    var tail := [Sleep(holdMs)] + Posts(KeysOf(entries), false);
    var plan := SequencePlan(entries, holdMs);
    assert plan == presses + tail;
    var rest := tail[..m - |presses|];
    assert plan[..m] == presses + rest;
    NoDownsAfterPresses(holdMs, KeysOf(entries), m - |presses|);
    PostedAppend(presses, rest);
    PressDownsAreKeys(entries);
  }

  /** With every item an object, the plan is the presses, the hold and a release for each key. */
  lemma WholePlan(entries: seq<Entry>, holdMs: int)
    requires AllObjects(entries)
    ensures SequencePlan(entries, holdMs) == PressCalls(entries) + ([Sleep(holdMs)] + Posts(KeysOf(entries), false))
  {
    assert ObjectCount(entries) == |entries| && entries[..|entries|] == entries;
  }

  /** A failure after the press loop leaves every key pressed. */
  lemma ReleaseFailurePressed(entries: seq<Entry>, holdMs: int, faults: set<nat>, n: nat)
    requires AllObjects(entries)
    requires var plan := SequencePlan(entries, holdMs);
      !Completes(plan, faults, n) && |Attempted(plan, faults, n)| > |PressCalls(entries)|
    ensures Pressed(Attempted(SequencePlan(entries, holdMs), faults, n), false) == KeysOf(entries)
  {
    var plan := SequencePlan(entries, holdMs);
    var calls := Attempted(plan, faults, n);
    AttemptedFails(plan, faults, n);
    DownsStopAfterPresses(entries, holdMs, |calls| - 1);
  }

  /** One more object item: its calls follow the earlier ones, its key follows theirs, and the plan begins with them all. */
  lemma PressStep(entries: seq<Entry>, holdMs: int, i: nat)
    requires i < ObjectCount(entries)
    ensures AllObjects(entries[..i]) && AllObjects(entries[..i + 1])
    ensures PressCalls(entries[..i + 1]) == PressCalls(entries[..i]) + EntryCalls(entries[i])
    ensures KeysOf(entries[..i + 1]) == KeysOf(entries[..i]) + [entries[i].Key()]
    ensures PressCalls(entries[..i + 1]) <= SequencePlan(entries, holdMs)
  {
    var k := ObjectCount(entries);
    var next := entries[..i + 1];
    assert next[..i] == entries[..i];
    assert entries[..k][..i + 1] == next;
    PressCallsPrefix(entries[..k], i + 1);
  }

  /** One item of the press loop: its delay, only when positive, then its key down. */
  method PressEntry(host: Host, e: Entry, ghost plan: seq<Event>, ghost n0: nat) returns (ok: bool)
    requires e.Entry?
    requires n0 <= |host.trace| && Completes(host.trace[n0..], host.faults, n0)
    requires host.trace[n0..] + EntryCalls(e) <= plan
    modifies host
    ensures old(host.trace) <= host.trace
    ensures ok ==> host.trace == old(host.trace) + EntryCalls(e) && Completes(host.trace[n0..], host.faults, n0)
    ensures !ok ==> && host.trace[n0..] == Attempted(plan, host.faults, n0) && !Completes(plan, host.faults, n0)
                    && Pressed(host.trace[n0..], false) == PostedDowns(old(host.trace)[n0..])
  {
    ghost var done := host.trace[n0..];
    if e.Delay() > 0 {
      ok := host.Step(Sleep(e.Delay()), plan, n0);
      if !ok {
        ghost var calls := host.trace[n0..];
        assert calls == done + [Sleep(e.Delay())];
        assert calls[..|calls| - 1] == done;
        return;
      }
    }
    ghost var before := host.trace[n0..];
    ok := host.Step(PostKeyDown(e.Key()), plan, n0);
    ghost var calls := host.trace[n0..];
    assert calls == before + [PostKeyDown(e.Key())];
    if !ok {
      assert calls[..|calls| - 1] == before;
      if e.Delay() > 0 {
        assert before == done + [Sleep(e.Delay())];
        PostedAppend(done, [Sleep(e.Delay())]);
        assert PostedDowns([Sleep(e.Delay())]) == [];
      }
    }
  }

  /** The press loop of SequentialLongPress, inside the `try` block that starts where it starts. */
  method PressInOrder(host: Host, entries: seq<Entry>, ghost holdMs: int) returns (pressed: seq<Value>, ok: bool)
    modifies host
    ensures old(host.trace) <= host.trace
    ensures ok ==> && AllObjects(entries)
                   && host.trace == old(host.trace) + PressCalls(entries)
                   && Completes(PressCalls(entries), host.faults, |old(host.trace)|)
                   && pressed == KeysOf(entries)
    ensures !ok ==>
      var plan := SequencePlan(entries, holdMs);
      var n0 := |old(host.trace)|;
      && host.trace[n0..] == Attempted(plan, host.faults, n0)
      && pressed == Pressed(Attempted(plan, host.faults, n0), Completes(plan, host.faults, n0))
      && !(Completes(plan, host.faults, n0) && ObjectCount(entries) == |entries|)
  {
    ghost var t0 := host.trace;
    ghost var n0 := |t0|;
    ghost var plan := SequencePlan(entries, holdMs);
    ghost var k := ObjectCount(entries);
    ghost var objects := entries[..k];
    pressed := [];
    var i := 0;
    while i < |entries|
      invariant 0 <= i <= k
      invariant host.trace == t0 + PressCalls(entries[..i])
      invariant Completes(host.trace[n0..], host.faults, n0)
      invariant pressed == KeysOf(entries[..i])
    {
      var e := entries[i];
      if e.NotAnObject? {
        assert i == k && entries[..i] == objects && plan == PressCalls(objects);
        AttemptedAll(plan, host.faults, n0);
        PressDownsAreKeys(objects);
        return pressed, false;
      }
      PressStep(entries, holdMs, i);
      PressDownsAreKeys(entries[..i]);
      ok := PressEntry(host, e, plan, n0);
      if !ok {
        return pressed, false;
      }
      pressed := pressed + [e.Key()];
      i := i + 1;
    }
    assert entries[..i] == entries;
    ok := true;
  }

  /** The hold and the release loop of SequentialLongPress, once every key is pressed. */
  method HoldAndRelease(host: Host, entries: seq<Entry>, holdMs: int, pressed: seq<Value>, ghost n0: nat)
    returns (ok: bool)
    requires AllObjects(entries) && pressed == KeysOf(entries)
    requires n0 <= |host.trace| && host.trace[n0..] == PressCalls(entries)
    requires Completes(PressCalls(entries), host.faults, n0)
    modifies host
    ensures old(host.trace) <= host.trace
    ensures ok ==> host.trace[n0..] == SequencePlan(entries, holdMs) && Completes(SequencePlan(entries, holdMs), host.faults, n0)
    ensures !ok ==> && host.trace[n0..] == Attempted(SequencePlan(entries, holdMs), host.faults, n0)
                    && !Completes(SequencePlan(entries, holdMs), host.faults, n0)
                    && Pressed(host.trace[n0..], false) == pressed
  {
    ghost var plan := SequencePlan(entries, holdMs);
    var steps := [Sleep(holdMs)] + Posts(pressed, false);
    WholePlan(entries, holdMs);
    ghost var t := host.trace;
    ok := host.Steps(steps, plan, n0);
    if ok {
      AttemptedAll(steps, host.faults, |t|);
      assert host.trace[n0..] == t[n0..] + steps;
    } else {
      AttemptedFails(steps, host.faults, |t|);
      assert |host.trace| > |t|;
      ReleaseFailurePressed(entries, holdMs, host.faults, n0);
    }
  }

  /** The `except` block's releases: every pressed key, each in its own `try`. */
  method ReleaseAll(host: Host, pressed: seq<Value>)
    modifies host
    ensures host.trace == old(host.trace) + Posts(pressed, false)
  {
    ghost var t0 := host.trace;
    var i := 0;
    while i < |pressed|
      invariant 0 <= i <= |pressed|
      invariant host.trace == t0 + Posts(pressed[..i], false)
    {
      var _ := host.Call(PostKeyUp(pressed[i]));
      assert pressed[..i + 1][..i] == pressed[..i];
      i := i + 1;
    }
    assert pressed[..i] == pressed;
  }

  method SequentialLongPress(host: Host, arg: Arg<SequenceArgs>) returns (r: Outcome)
    modifies host
    ensures host.trace == old(host.trace) + SequentialLongPressEffect(arg, host.faults, |old(host.trace)|).events
    ensures r == SequentialLongPressEffect(arg, host.faults, |old(host.trace)|).outcome
  {
    if arg.Unreadable? {
      return Failure;
    }
    if arg.NotObject? {
      return Uncaught;
    }
    var a := arg.value;
    if a.Sequence().NotAList? || a.Sequence().entries == [] {
      return Failure;
    }
    var entries := a.Sequence().entries;
    var hold := a.Hold();
    ghost var t0 := host.trace;
    ghost var n0 := |t0|;
    ghost var plan := SequencePlan(entries, hold);
    ghost var main := Attempted(plan, host.faults, n0);
    var pressed, ok := PressInOrder(host, entries, hold);
    if ok {
      ok := HoldAndRelease(host, entries, hold, pressed, n0);
      if ok {
        AttemptedAll(plan, host.faults, n0);
        SplitAt(t0, host.trace);
        return Success;
      }
    }
    SplitAt(t0, host.trace);
    assert pressed == Pressed(main, Completes(plan, host.faults, n0));
    ReleaseAll(host, pressed);
    r := Failure;
  }

  /** The keys whose key down returned, in call order: what `pressed_keys` holds, read off the calls and the failures. */
  function SucceededDowns(calls: seq<Event>, faults: set<nat>, n: nat): seq<Value>
    decreases |calls|
  {
    if calls == [] then []
    else (if calls[0].PostKeyDown? && !Raises(faults, n, calls[0]) then [calls[0].key] else [])
         + SucceededDowns(calls[1..], faults, n + 1)
  }

  lemma {:induction false} SucceededAppend(a: seq<Event>, b: seq<Event>, faults: set<nat>, n: nat)
    ensures SucceededDowns(a + b, faults, n) == SucceededDowns(a, faults, n) + SucceededDowns(b, faults, n + |a|)
    decreases |a|
  {
    if a != [] {
      assert (a + b)[1..] == a[1..] + b;
      SucceededAppend(a[1..], b, faults, n + 1);
    } else {
      assert a + b == b;
    }
  }

  lemma {:induction false} SucceededWhenNoneRaises(s: seq<Event>, faults: set<nat>, n: nat)
    requires forall j :: 0 <= j < |s| ==> !Raises(faults, n + j, s[j])
    ensures SucceededDowns(s, faults, n) == PostedDowns(s)
    decreases |s|
  {
    if s != [] {
      assert !Raises(faults, n + 0, s[0]);
      forall j | 0 <= j < |s[1..]|
        ensures !Raises(faults, n + 1 + j, s[1..][j])
      {
        assert s[1..][j] == s[1 + j];
      }
      SucceededWhenNoneRaises(s[1..], faults, n + 1);
    }
  }

  /**
   * The keys the cleanup releases are the keys whose key down returned: a key
   * down that raised is left out, and so are the calls never made.
   */
  lemma PressedAreSucceeded(plan: seq<Event>, faults: set<nat>, n: nat)
    ensures var calls := Attempted(plan, faults, n);
      Pressed(calls, Completes(plan, faults, n)) == SucceededDowns(calls, faults, n)
  {
    var calls := Attempted(plan, faults, n);
    AttemptedShape(plan, faults, n);
    if Completes(plan, faults, n) {
      SucceededWhenNoneRaises(calls, faults, n);
    } else {
      var init := calls[..|calls| - 1];
      var last := calls[|calls| - 1];
      assert calls == init + [last];
      SucceededAppend(init, [last], faults, n);
      forall j | 0 <= j < |init|
        ensures !Raises(faults, n + j, init[j])
      {
      }
      SucceededWhenNoneRaises(init, faults, n);
    }
  }

  /**
   * SequentialLongPress returns True exactly when the parameters hold a
   * non-empty list of objects and no call of the `try` block raises; it then
   * presses every key in list order, holds, and releases them in the same order.
   */
  lemma SequenceSucceeds(arg: Arg<SequenceArgs>, faults: set<nat>, n: nat)
    ensures var eff := SequentialLongPressEffect(arg, faults, n);
      eff.outcome == Success <==>
        && arg.Parsed? && arg.value.Sequence().Entries? && arg.value.Sequence().entries != []
        && AllObjects(arg.value.Sequence().entries)
        && Completes(SequencePlan(arg.value.Sequence().entries, arg.value.Hold()), faults, n)
    ensures var eff := SequentialLongPressEffect(arg, faults, n);
      eff.outcome == Success ==>
        var entries := arg.value.Sequence().entries;
        && eff.events == PressCalls(entries) + [Sleep(arg.value.Hold())] + Posts(KeysOf(entries), false)
        && PostedDowns(eff.events) == KeysOf(entries)
        && PostedUps(eff.events) == KeysOf(entries)
  {
    if arg.Parsed? && arg.value.Sequence().Entries? && arg.value.Sequence().entries != [] {
      var entries := arg.value.Sequence().entries;
      var hold := arg.value.Hold();
      var plan := SequencePlan(entries, hold);
      if AllObjects(entries) {
        assert ObjectCount(entries) == |entries| && entries[..|entries|] == entries;
        if Completes(plan, faults, n) {
          var keys := KeysOf(entries);
          assert Attempted(plan, faults, n) == plan;
          assert plan == PressCalls(entries) + ([Sleep(hold)] + Posts(keys, false));
          PressDownsAreKeys(entries);
          PostedKeys(keys);
          PostedAppend(PressCalls(entries), [Sleep(hold)] + Posts(keys, false));
          PostedAppend([Sleep(hold)], Posts(keys, false));
          PressUpsAbsent(entries);
        }
      }
    }
  }

  /**
   * When SequentialLongPress fails inside the `try` block, the calls made are
   * followed by one key up for each key whose key down returned, in press
   * order, and nothing else, whatever those key ups raise.
   */
  lemma SequenceFailureReleases(arg: Arg<SequenceArgs>, faults: set<nat>, n: nat)
    requires arg.Parsed? && arg.value.Sequence().Entries? && arg.value.Sequence().entries != []
    requires var entries := arg.value.Sequence().entries;
      !(AllObjects(entries) && Completes(SequencePlan(entries, arg.value.Hold()), faults, n))
    ensures var eff := SequentialLongPressEffect(arg, faults, n);
      var main := Attempted(SequencePlan(arg.value.Sequence().entries, arg.value.Hold()), faults, n);
      var pressed := SucceededDowns(main, faults, n);
      && eff.outcome == Failure
      && |main| <= |eff.events| && eff.events[..|main|] == main
      && eff.events[|main|..] == Posts(pressed, false)
      && PostedUps(eff.events[|main|..]) == pressed
      && PostedDowns(eff.events[|main|..]) == []
  {
    var entries := arg.value.Sequence().entries;
    var plan := SequencePlan(entries, arg.value.Hold());
    var main := Attempted(plan, faults, n);
    var eff := SequentialLongPressEffect(arg, faults, n);
    if AllObjects(entries) {
      assert ObjectCount(entries) == |entries|;
    }
    PressedAreSucceeded(plan, faults, n);
    var pressed := SucceededDowns(main, faults, n);
    assert eff.events == main + Posts(pressed, false);
    assert eff.events[..|main|] == main;
    assert eff.events[|main|..] == Posts(pressed, false);
    PostedKeys(pressed);
  }

  /** A delay produces a sleep only when it is positive, and every positive delay produces its sleep. */
  lemma {:induction false} DelaysOnlyWhenPositive(entries: seq<Entry>)
    requires AllObjects(entries)
    ensures forall e :: e in PressCalls(entries) && e.Sleep? ==> e.ms > 0
    ensures forall j :: 0 <= j < |entries| && entries[j].Delay() > 0 ==> Sleep(entries[j].Delay()) in PressCalls(entries)
  {
    if entries != [] {
      var init := entries[..|entries| - 1];
      var last := entries[|entries| - 1];
      DelaysOnlyWhenPositive(init);
      assert PressCalls(entries) == PressCalls(init) + EntryCalls(last);
      forall j | 0 <= j < |entries| && entries[j].Delay() > 0
        ensures Sleep(entries[j].Delay()) in PressCalls(entries)
      {
        if j < |init| {
          assert entries[j] == init[j];
        } else {
          assert EntryCalls(last)[0] == Sleep(last.Delay());
        }
      }
    }
  }

  /** A list that does not run to its end gives the calls made, then the releases of the keys pressed. */
  lemma FailedSequenceEffect(a: SequenceArgs, faults: set<nat>, n: nat)
    requires a.Sequence().Entries? && a.Sequence().entries != []
    requires !Completes(SequencePlan(a.Sequence().entries, a.Hold()), faults, n)
    ensures var main := Attempted(SequencePlan(a.Sequence().entries, a.Hold()), faults, n);
      SequentialLongPressEffect(Parsed(a), faults, n) == Effect(main + Posts(Pressed(main, false), false), Failure)
  {
  }

  /** The items of the scenario below: two keys, 'A' and 'D' as codes, with no delay. */
  function TwoKeys(): seq<Entry> {
    [Entry(Some(Int(65)), None), Entry(Some(Int(68)), None)]
  }

  lemma TwoKeysPlan()
    ensures SequencePlan(TwoKeys(), 0)
            == [PostKeyDown(Int(65)), PostKeyDown(Int(68)), Sleep(0), PostKeyUp(Int(65)), PostKeyUp(Int(68))]
  {
    var entries := TwoKeys();
    assert ObjectCount(entries) == 2 && entries[..2] == entries;
    assert entries[..1] == [entries[0]];
    assert PressCalls(entries) == [PostKeyDown(Int(65)), PostKeyDown(Int(68))];
    assert KeysOf(entries) == [Int(65), Int(68)];
    assert Posts([Int(65), Int(68)], false) == [PostKeyUp(Int(65)), PostKeyUp(Int(68))];
  }

  lemma TwoKeysFirstReleaseRaises()
    ensures var plan := SequencePlan(TwoKeys(), 0);
      && Attempted(plan, {3}, 0) == plan[..4] && !Completes(plan, {3}, 0)
      && Pressed(plan[..4], false) == [Int(65), Int(68)]
  {
    var plan := SequencePlan(TwoKeys(), 0);
    TwoKeysPlan();
    FirstRaiseUnique(plan, {3}, 0, 3);
    var held := plan[..4][..3];
    assert held == [PostKeyDown(Int(65))] + ([PostKeyDown(Int(68))] + [Sleep(0)]);
    PostedAppend([PostKeyDown(Int(68))], [Sleep(0)]);
    PostedAppend([PostKeyDown(Int(65))], [PostKeyDown(Int(68))] + [Sleep(0)]);
  }

  /**
   * Two keys with no delay and a zero hold, where the first key up raises:
   * the cleanup releases both keys again, the first one a second time.
   */
  lemma ReleaseFailureReleasesAgain()
    ensures SequentialLongPressEffect(Parsed(SequenceArgs(Some(Entries(TwoKeys())), Some(0))), {3}, 0)
            == Effect([PostKeyDown(Int(65)), PostKeyDown(Int(68)), Sleep(0),
                       PostKeyUp(Int(65)), PostKeyUp(Int(65)), PostKeyUp(Int(68))], Failure)
  {
    var a := SequenceArgs(Some(Entries(TwoKeys())), Some(0));
    var plan := SequencePlan(TwoKeys(), 0);
    TwoKeysPlan();
    TwoKeysFirstReleaseRaises();
    FailedSequenceEffect(a, {3}, 0);
    assert plan[..4] == [PostKeyDown(Int(65)), PostKeyDown(Int(68)), Sleep(0), PostKeyUp(Int(65))];
    assert Posts([Int(65), Int(68)], false) == [PostKeyUp(Int(65)), PostKeyUp(Int(68))];
  }

  /**
   * An item that is not an object ends the presses: the keys before it are
   * released, the keys after it are never pressed, and the action fails.
   */
  lemma NonObjectStopsPresses()
    ensures var a := SequenceArgs(Some(Entries([Entry(Some(Int(65)), Some(50)), NotAnObject, Entry(Some(Int(68)), None)])), None);
      SequentialLongPressEffect(Parsed(a), {}, 0)
      == Effect([Sleep(50), PostKeyDown(Int(65)), PostKeyUp(Int(65))], Failure)
  {
    var entries := [Entry(Some(Int(65)), Some(50)), NotAnObject, Entry(Some(Int(68)), None)];
    assert ObjectCount(entries) == 1;
    assert entries[..1] == [entries[0]];
    var plan := SequencePlan(entries, 1000);
    assert plan == [Sleep(50), PostKeyDown(Int(65))];
    CompletesWhenFree(plan, {}, 0);
  }
}
