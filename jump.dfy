/**
 * The jump loop of RunWithJump, separated from its key events: which passes
 * of `while True` jump, driven by clock readings in milliseconds.
 * `readings[0]` is `start_time`, taken once the dodge key is down;
 * `readings[i]` is `current_time` in the i-th pass of the loop.
 */
module JumpSchedule {
  import opened Wrappers
  import opened Effects
  import opened KeyCodes

  /** A pass of the loop that did not stop: the reading and the jump instant due at that point. */
  datatype Tick = Tick(now: int, due: int) {
    /** `current_time >= next_jump_time` */
    predicate Jumps() {
      now >= due
    }
  }

  /** The sleep of a pass that does not jump (`time.sleep(0.01)`). */
  const IdleSleepMs: int := 10

  /**
   * The passes of the loop from pass i on, when the next jump is due at `due`.
   * The loop stops at the first reading at least `durationMs` past the start;
   * a pass jumps when its reading has reached the due instant, and the next jump
   * is then due `intervalMs` after that reading.
   */
  function Schedule(readings: seq<int>, i: nat, due: int, durationMs: int, intervalMs: int): (s: seq<Tick>)
    requires ClockRunsOut(readings, durationMs) && 1 <= i < |readings|
    ensures i + |s| < |readings|
    decreases |readings| - i
  {
    var now := readings[i];
    if now - readings[0] >= durationMs then []
    else [Tick(now, due)] + Schedule(readings, i + 1, if now >= due then now + intervalMs else due, durationMs, intervalMs)
  }

  /**
   * The passes are the readings from pass i on that are still short of the
   * duration, the first reading after them is not, the first pass sees the due
   * instant it was given, and each pass hands the next one the due instant it
   * leaves behind.
   */
  lemma {:induction false} ScheduleShape(readings: seq<int>, i: nat, due: int, durationMs: int, intervalMs: int)
    requires ClockRunsOut(readings, durationMs) && 1 <= i < |readings|
    ensures var s := Schedule(readings, i, due, durationMs, intervalMs);
      && (forall k :: 0 <= k < |s| ==> s[k].now == readings[i + k] && s[k].now - readings[0] < durationMs)
      && readings[i + |s|] - readings[0] >= durationMs
      && (|s| > 0 ==> s[0].due == due)
      && (forall k :: 0 <= k < |s| - 1 ==> s[k + 1].due == if s[k].Jumps() then s[k].now + intervalMs else s[k].due)
    decreases |readings| - i
  {
    var now := readings[i];
    if now - readings[0] < durationMs {
      var next := if now >= due then now + intervalMs else due;
      ScheduleShape(readings, i + 1, next, durationMs, intervalMs);
      var rest := Schedule(readings, i + 1, next, durationMs, intervalMs);
      var s := Schedule(readings, i, due, durationMs, intervalMs);
      assert s == [Tick(now, due)] + rest;
      assert forall k :: 1 <= k < |s| ==> s[k] == rest[k - 1];
    }
  }

  /** The loop as RunWithJump enters it: the first jump is due one interval after the start. */
  function JumpLoop(readings: seq<int>, durationMs: int, intervalMs: int): seq<Tick>
    requires ClockRunsOut(readings, durationMs)
  {
    Schedule(readings, 1, readings[0] + intervalMs, durationMs, intervalMs)
  }

  /** The calls of one pass: a space tap when it jumps, a short sleep otherwise. */
  function TickEvents(t: Tick, pressMs: int): seq<Event> {
    if t.Jumps() then [KeyDown(VkSpace, false), Sleep(pressMs), KeyUp(VkSpace)] else [Sleep(IdleSleepMs)]
  }

  function LoopEvents(s: seq<Tick>, pressMs: int): seq<Event> {
    if s == [] then [] else TickEvents(s[0], pressMs) + LoopEvents(s[1..], pressMs)
  }

  /** The number of passes that jump. */
  function JumpCount(s: seq<Tick>): nat {
    if s == [] then 0 else (if s[0].Jumps() then 1 else 0) + JumpCount(s[1..])
  }

  /**
   * Every space press of the loop is released before the next one and before
   * the loop ends, so the keys held before the loop are held, unchanged, after it;
   * the loop presses and releases space once per jump.
   */
  lemma {:induction false} LoopReleasesSpace(s: seq<Tick>, pressMs: int, held: seq<int>)
    ensures Unwind(LoopEvents(s, pressMs), held) == Some(held)
    ensures multiset(LoopEvents(s, pressMs))[KeyDown(VkSpace, false)] == JumpCount(s)
    ensures multiset(LoopEvents(s, pressMs))[KeyUp(VkSpace)] == JumpCount(s)
  {
    if s != [] {
      var first := TickEvents(s[0], pressMs);
      LoopReleasesSpace(s[1..], pressMs, held);
      UnwindAppend(first, LoopEvents(s[1..], pressMs), held);
      if s[0].Jumps() {
        var pressed := held + [VkSpace];
        assert pressed[..|pressed| - 1] == held;
        assert Unwind([KeyUp(VkSpace)], pressed) == Some(held);
        assert Unwind([Sleep(pressMs), KeyUp(VkSpace)], pressed) == Some(held);
      }
    }
  }

  /** The first jump comes no earlier than one interval after the start. */
  lemma {:induction false} FirstJumpAfterInterval(readings: seq<int>, durationMs: int, intervalMs: int, k: nat)
    requires ClockRunsOut(readings, durationMs)
    requires k < |JumpLoop(readings, durationMs, intervalMs)|
    requires JumpLoop(readings, durationMs, intervalMs)[k].Jumps()
    requires forall j :: 0 <= j < k ==> !JumpLoop(readings, durationMs, intervalMs)[j].Jumps()
    ensures JumpLoop(readings, durationMs, intervalMs)[k].now >= readings[0] + intervalMs
  {
    var s := JumpLoop(readings, durationMs, intervalMs);
    ScheduleShape(readings, 1, readings[0] + intervalMs, durationMs, intervalMs);
    DueUnchangedWithoutJump(s, intervalMs, 0, k);
  }

  /** Between two consecutive jumps there is at least one interval, measured from the earlier jump's reading. */
  lemma {:induction false} JumpsAtLeastIntervalApart(readings: seq<int>, durationMs: int, intervalMs: int, k1: nat, k2: nat)
    requires ClockRunsOut(readings, durationMs)
    requires k1 < k2 < |JumpLoop(readings, durationMs, intervalMs)|
    requires JumpLoop(readings, durationMs, intervalMs)[k1].Jumps() && JumpLoop(readings, durationMs, intervalMs)[k2].Jumps()
    requires forall j :: k1 < j < k2 ==> !JumpLoop(readings, durationMs, intervalMs)[j].Jumps()
    ensures JumpLoop(readings, durationMs, intervalMs)[k2].now >= JumpLoop(readings, durationMs, intervalMs)[k1].now + intervalMs
  {
    var s := JumpLoop(readings, durationMs, intervalMs);
    ScheduleShape(readings, 1, readings[0] + intervalMs, durationMs, intervalMs);
    DueUnchangedWithoutJump(s, intervalMs, k1 + 1, k2);
  }

  /** Passes that do not jump leave the due instant where it was. */
  lemma {:induction false} DueUnchangedWithoutJump(s: seq<Tick>, intervalMs: int, from: nat, to: nat)
    requires from <= to < |s|
    requires forall k :: 0 <= k < |s| - 1 ==> s[k + 1].due == if s[k].Jumps() then s[k].now + intervalMs else s[k].due
    requires forall j :: from <= j < to ==> !s[j].Jumps()
    ensures s[to].due == s[from].due
    decreases (to as int) - (from as int)
  {
    if from < to {
      DueUnchangedWithoutJump(s, intervalMs, from + 1, to);
    }
  }
}
