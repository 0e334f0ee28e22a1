# MadAssistantDuet custom actions in Dafny

This project models the custom actions that the MadAssistantDuet agent registers with MaaFramework for the game *Duet Night Abyss*. They come from two Python files, `agent/postmessage/actions.py` and `agent/my_action.py`.

**The window search.** `GameWindowAction._get_window_handle` chooses the game window from the windows the OS enumerates. It is modelled as a pure function over a list of window records. An exact title match, ignoring letter case as `FindWindow` does, is tried first, keyword by keyword. Failing that, it takes the first visible window whose title contains a keyword. Failing both, the handle is 0.

**The key-name conversion.** LongPressKey and PressMultipleKeys turn key identifiers into Windows virtual-key codes. A one-character string goes through `char_to_vk`, which is a parameter here; a character it raises on is caught, and the action returns False with no call. An int passes unchanged. In PressMultipleKeys, "shift", "ctrl", "alt" and "space" map to fixed codes, in any letter case.

**The gestures.** RunWithShift, LongPressKey, PressMultipleKeys and RunWithJump drive the PostMessage input helper. LongPressMultipleKeys, SequentialLongPress and SetDodgeKey drive the MaaFramework controller.

The outside world is a `Host` object:
- Its `trace` records every call made: key downs and ups, sleeps, captures, recognitions, fallback clicks and next-node overrides.
- Its fixed set `faults` names the trace positions whose call raises. `time.sleep` also raises on a negative length.

Each action is a method that takes the host. Its `ensures` ties the calls it makes and the value it returns to an effect function of its inputs. The inputs are:
- the decoded parameters;
- the dodge-key setting;
- the window list;
- the key conversions;
- the clock readings;
- the recognition results;
- the failing positions.

Lemmas about these effect functions state the ordering, cleanup and validation properties.

**The shared settings.** SetDodgeKey writes the dodge key into the settings object, `RuntimeConfig`. RunWithShift and RunWithJump read it back, with Shift (0x10) as the default.

**The loops.** Both loops are driven by a sequence of integer-millisecond clock readings:
- RunWithJump's jump scheduler;
- LongPressWithTimeoutDetection's polling loop, which also takes a sequence of recognition results.

Each loop is a `while` method proved against a recursive specification.

Modules:
- `Wrappers`: Option.
- `Json`: decoded parameter values, with Python truthiness and the dict keys `json.loads` keeps.
- `Text`: letter case of names and titles.
- `WindowResolver`: the window search.
- `KeyCodes`: the key-name conversion.
- `Effects`: events, `try`-block semantics and the `Host` class.
- `Config`: the settings object.
- `JumpSchedule`: the jump schedule.
- `Actions`: the gestures of `actions.py`.
- `Detection`: the polling loop.
- `MyAction`: the actions of `my_action.py`.

## Model

| member | source | states |
|---|---|---|
| Text.EqualIgnoringCaseLowers | agent/postmessage/actions.py:50 | Two titles compare equal ignoring case exactly when their lowered forms are equal. |
| Json.DictKeys | agent/postmessage/actions.py:338 | The dict `json.loads` builds has every member name of the text as a key, no other key, and no key twice. |
| Json.DistinctNamesKept | agent/postmessage/actions.py:338 | When no name repeats, the dict keys are the member names in the order of the text. |
| Json.RepeatedNameOnce | agent/postmessage/actions.py:338 | An object giving "w" twice has the one key "w", which `for` visits once. |
| Json.Truthy | agent/postmessage/actions.py:283 | Python's truth test: null, false, zero, the empty string and empty containers are false. |
| Json.AsInt | agent/postmessage/actions.py:302 | `isinstance(v, int)`, with bool counting as int (True is 1, False is 0). |
| Json.Iterated | agent/postmessage/actions.py:371 | What `for` visits: a list's items; a string's characters; an object's dict keys, once each in dict order. Any other value raises. |
| WindowResolver.FirstTitled | agent/postmessage/actions.py:49-51 | The position found holds the first window whose title equals the keyword ignoring letter case; every earlier window's title differs from it. |
| WindowResolver.FindWindow | agent/postmessage/actions.py:50 | The handle of the first window whose title matches ignoring letter case, or 0. |
| WindowResolver.FirstExact | agent/postmessage/actions.py:49-53 | The keyword found is the first, in keyword order, with a live exact match; every earlier keyword has none. |
| WindowResolver.FirstCandidate | agent/postmessage/actions.py:56-71 | The window found is the first in enumeration order that is visible and contains a keyword; no earlier window is. |
| WindowResolver.ResolveWith | agent/postmessage/actions.py:35-78 | An exact match, ignoring case, for the earliest keyword that has one wins. Otherwise the result is the first visible window containing a keyword, never an invisible one. Otherwise 0. |
| WindowResolver.ExactMatchBeatsSubstring | agent/postmessage/actions.py:49-53 | A window titled exactly "Duet Night Abyss" is chosen over an earlier window that only contains the name. |
| WindowResolver.Resolve | agent/postmessage/actions.py:35-78 | The window search with the game's two title keywords, "二重螺旋" first. |
| WindowResolver.ExactMatchIgnoresCase | agent/postmessage/actions.py:49-53 | A window titled "duet night abyss" is found by the exact search, although the case-sensitive substring search would skip it. |
| WindowResolver.SubstringSkipsInvisible | agent/postmessage/actions.py:56-71 | Without an exact title, an invisible window containing a keyword is skipped and the visible one is chosen. |
| Text.AsciiLower | agent/postmessage/actions.py:377 | Lowering keeps the length and lowers each character. |
| KeyCodes.NamedKey | agent/postmessage/actions.py:376-388 | After lowering, "shift", "ctrl", "alt" and "space" give VK_SHIFT, VK_CONTROL, VK_MENU and VK_SPACE; other names give nothing. |
| KeyCodes.SingleKey | agent/postmessage/actions.py:300-306 | LongPressKey's conversion: a one-character string through `char_to_vk`, an int as it is, anything else refused; a character `char_to_vk` raises on is refused too. |
| KeyCodes.ComboKey | agent/postmessage/actions.py:372-393 | PressMultipleKeys' conversion of one item: as LongPressKey's, plus the four key names. |
| KeyCodes.ComboKeys | agent/postmessage/actions.py:370-394 | The code list exists exactly when every item converts. It then has one code per item, in list order. |
| KeyCodes.ComboKeyExtendsSingleKey | agent/postmessage/actions.py:300-306 | Every key LongPressKey accepts converts the same way in PressMultipleKeys; a string of another length is refused by LongPressKey. |
| Text.AsciiLowerIdempotent | agent/postmessage/actions.py:377 | Lowering twice is lowering once. |
| KeyCodes.ComboKeyCaseInsensitive | agent/postmessage/actions.py:376-388 | A key name converts exactly as its lower-case form does. |
| KeyCodes.NamedKeyExamples | agent/postmessage/actions.py:378-385 | "Shift", "CTRL" and "Space" give VK_SHIFT, VK_CONTROL and VK_SPACE. |
| KeyCodes.RefusedKeyExamples | agent/postmessage/actions.py:386-393 | "up", "" and a float are refused; a boolean passes as an int. |
| Config.DodgeKeyIn | agent/postmessage/actions.py:185 | The configured dodge key, or VK_SHIFT when none is set. |
| Actions.RunWithShiftEffect | agent/postmessage/actions.py:160-247 | Unreadable parameters give False. Non-object parameters or a non-int dodge key let the error escape with no call. No window or no direction key gives False with no call. Otherwise the shift plan is made up to its first raise, with True when it completes. |
| Actions.RunWithShift | agent/postmessage/actions.py:160-247 | The calls made and the value returned are those of RunWithShiftEffect, with the dodge key read from the settings. |
| Actions.ShiftSucceeds | agent/postmessage/actions.py:185-243 | Success holds exactly when the parameters are readable, the dodge key is an int, a window and a direction key are found, and no planned call raises. The calls are then the whole plan: they start with the direction down, end with the hold, dodge up and direction up, and release in last-in first-out order. |
| Actions.ShiftPlanReleases | agent/postmessage/actions.py:217-238 | A completed RunWithShift releases its keys in last-in first-out order and leaves none held. |
| Actions.HeadHoldsBoth | agent/postmessage/actions.py:217-226 | After the head of a gesture, the direction key and then the dodge key are held. |
| Actions.ShiftWithoutFaults | agent/postmessage/actions.py:217-243 | With no failing call, RunWithShift succeeds exactly when the duration is not negative. |
| Actions.ShiftFailureLeavesKeysHeld | agent/postmessage/actions.py:245-247 | RunWithShift has no cleanup: a failing sleep returns False with both keys still down. |
| Actions.LongPressKeyEffect | agent/postmessage/actions.py:261-316 | A falsy key or no window gives False with no call. A key that is neither one character nor an int, or a character `char_to_vk` raises on, gives False with no call. Otherwise one `long_press_key` call, with True unless it raises. |
| Actions.LongPressKey | agent/postmessage/actions.py:261-316 | The calls made and the value returned are those of LongPressKeyEffect. |
| Actions.LongPressKeyValidates | agent/postmessage/actions.py:283-312 | A falsy key, a missing window or an unconvertible key makes no call. Otherwise exactly one `long_press_key` call is made, with the converted code and the duration. |
| Actions.PressMultipleKeysEffect | agent/postmessage/actions.py:330-405 | Falsy keys give False. Keys `for` cannot visit let the error escape. No window or an item that does not convert gives False with no call. Otherwise one `press_multiple_keys` call with all the codes. |
| Actions.PressMultipleKeys | agent/postmessage/actions.py:330-405 | The calls made and the value returned are those of PressMultipleKeysEffect. |
| Actions.PressMultipleKeysAllOrNothing | agent/postmessage/actions.py:370-401 | Exactly one `press_multiple_keys` call is made, with the items' codes in order, when every item converts; otherwise no call is made. |
| Actions.RepeatedKeyNamePressedOnce | agent/postmessage/actions.py:371-398 | Keys given as an object that names "w" twice make one `press_multiple_keys` call, with the one code of "w"; no call at all when `char_to_vk` raises on "w". |
| Actions.NoWindowNoKeys | agent/postmessage/actions.py:200-205 | Without a game window, none of the four gestures makes a call or returns True. |
| Actions.JumpBody | agent/postmessage/actions.py:479-531 | The `try` block's calls are the jump plan up to its first raise, and the result says whether it completed. |
| Actions.PassEvents | agent/postmessage/actions.py:505-523 | A pass short of the duration taps space when the jump is due and otherwise sleeps 10 ms; then come the later passes. |
| Actions.JumpPasses | agent/postmessage/actions.py:491-524 | The `while True` loop makes the calls of the jump schedule up to the first raise. |
| Actions.JumpAttemptCalls | agent/postmessage/actions.py:478-547 | The `try` and `except` blocks make the calls and return the value of JumpAttempt. |
| Actions.RunWithJumpEffect | agent/postmessage/actions.py:424-547 | As RunWithShiftEffect up to the window. A direction that does not map gives the two cleanup releases before the unbound name ends them, and False. Otherwise the jump attempt. |
| Actions.RunWithJump | agent/postmessage/actions.py:424-547 | The calls made and the value returned are those of RunWithJumpEffect. |
| Actions.JumpSucceeds | agent/postmessage/actions.py:479-536 | A successful RunWithJump made the whole jump plan: it starts with the direction down, ends with dodge up and direction up, and releases in last-in first-out order. |
| Actions.JumpPlanReleases | agent/postmessage/actions.py:479-531 | A completed RunWithJump releases every key in last-in first-out order. |
| Actions.ReleaseBoth | agent/postmessage/actions.py:527-531 | Releasing the dodge key and then the direction key leaves nothing held. |
| Actions.JumpWithoutFaults | agent/postmessage/actions.py:479-536 | With no failing call and a non-negative press time, RunWithJump succeeds once it finds its window and direction key. |
| Actions.LoopSleepsNonNegative | agent/postmessage/actions.py:514-523 | With a non-negative press time, the loop never sleeps for a negative length. |
| Actions.JumpFailureReleases | agent/postmessage/actions.py:538-547 | RunWithJump fails exactly when a `try` call raises. Unless a release raises, it then ends with space up, dodge up, direction up, in that order. |
| JumpSchedule.Schedule | agent/postmessage/actions.py:495-524 | The passes end before the readings run out. |
| JumpSchedule.ScheduleShape | agent/postmessage/actions.py:495-524 | The passes are exactly the readings short of the duration. The first pass sees the initial due time, and each pass hands on `now + interval` when it jumps and the same due time otherwise. |
| JumpSchedule.LoopReleasesSpace | agent/postmessage/actions.py:505-518 | Each jump presses and releases space once, and the keys held before the loop are held unchanged after it. |
| JumpSchedule.FirstJumpAfterInterval | agent/postmessage/actions.py:492-505 | The first jump is no earlier than the start plus one interval. |
| JumpSchedule.JumpsAtLeastIntervalApart | agent/postmessage/actions.py:505-519 | Consecutive jumps are at least one interval apart. |
| JumpSchedule.DueUnchangedWithoutJump | agent/postmessage/actions.py:505-523 | Passes that do not jump leave the due time unchanged. |
| Detection.Hit | agent/my_action.py:140 | A recognition counts only when there is a result with a box of positive width and height. |
| Detection.RunPass | agent/my_action.py:118-175 | A pass ends the loop by timeout exactly when the elapsed time reached the timeout. It goes on exactly after a miss short of the timeout whose capture, recognition and sleep do not raise, whatever the fallback press raises; its calls are capture, recognition, fallback and sleep. It detects exactly after a hit short of the timeout whose capture, recognition and override do not raise, and its calls are then capture, recognition and the override. |
| Detection.Poll | agent/my_action.py:118-175 | The passes from one reading on: a pass that goes on is followed by the next pass four calls later; the first pass that ends gives the verdict; the count is the number of passes begun. |
| Detection.PollOnce | agent/my_action.py:118-175 | One pass makes the calls of RunPass and ends as it says. |
| Detection.PollLoop | agent/my_action.py:115-175 | The loop makes the calls of Poll, ends with its verdict, and `loop_count` equals the number of passes begun. |
| Detection.DetectionEffect | agent/my_action.py:83-179 | Unreadable parameters give False; non-object parameters let the error escape. Otherwise the poll's calls, with True exactly on detection. |
| Detection.LongPressWithTimeoutDetection | agent/my_action.py:83-179 | The calls made and the value returned are those of DetectionEffect, and the loop count is that of Poll. |
| Detection.PollShape | agent/my_action.py:118-175 | Every pass before the last is a miss short of the timeout. A timeout follows only misses and reaches the timeout. A detection is those misses plus one hit pass short of the timeout. |
| Detection.PollMisses | agent/my_action.py:118-175 | Every pass before the last is a miss whose reading is short of the timeout. |
| Detection.PollEnds | agent/my_action.py:118-147 | A timeout records only miss passes; a detection records them and then the hit pass, on a valid box. |
| Detection.FallbacksEqualMisses | agent/my_action.py:157-175 | The number of fallback presses (key 69) equals the number of misses, `loop_count - 1`. |
| Detection.DetectionOverridesOnce | agent/my_action.py:140-147 | A detection calls `override_next(node, [target])` exactly once. |
| Detection.MissKindsAlike | agent/my_action.py:140-155 | No result, no box and an empty box are handled alike: results that agree on which passes hit give the same poll. |
| Detection.NoHitTimesOut | agent/my_action.py:118-126 | With no failing call, a non-negative interval and no hit, the loop ends by timeout. |
| Detection.HitDetects | agent/my_action.py:118-175 | With no raising call, misses from pass i up to pass j and a hit at pass j, all before the timeout, end in a detection after j - i + 1 passes: one miss block per miss, then the hit's calls. |
| Detection.ThreeMissesThenTimeout | agent/my_action.py:118-175 | Three misses of the three kinds and a 3000 ms timeout give four passes, three fallback presses and False. |
| Detection.FallbackFailureSwallowed | agent/my_action.py:160-171 | In the three-miss scenario, a raising first fallback press leaves the loop's calls, verdict and count unchanged. |
| Detection.FaultsBehindIgnored | agent/my_action.py:118-175 | Failures at positions already passed do not affect the rest of the loop. |
| MyAction.SetDodgeKeyEffect | agent/my_action.py:22-59 | Unreadable or non-object parameters give False with no call. A non-int key gives False before the capture. Otherwise one capture, with True unless it raises. |
| MyAction.SetDodgeKey | agent/my_action.py:22-59 | Stores the key as given, or 0x10, under "dodge_key", and makes the calls of SetDodgeKeyEffect. |
| MyAction.SetDodgeKeyStores | agent/my_action.py:38-44 | The setting holds the given key, or Shift; other settings are unchanged; unreadable parameters store nothing. |
| MyAction.SetDodgeKeyCaptures | agent/my_action.py:44-59 | At most one call is made, a capture. It is made exactly when the parameters are readable and the key is an int. True is returned exactly when that capture does not raise. No error escapes. |
| MyAction.StoredDodgeKeyReachesGestures | agent/my_action.py:44 | When RunWithShift or RunWithJump succeeds after SetDodgeKey, the dodge key it releases is the int that was stored. A non-int key makes SetDodgeKey return False and both gestures let the formatting error escape with no call. |
| MyAction.LongPressMultipleKeysEffect | agent/my_action.py:189-257 | Non-object parameters let the error escape. Unreadable parameters, or keys that are empty or not a list, give False with no call. Otherwise the hold plan up to its first raise, with True when it completes. |
| MyAction.LongPressMultipleKeys | agent/my_action.py:189-257 | The calls made and the value returned are those of LongPressMultipleKeysEffect. |
| MyAction.HoldSucceeds | agent/my_action.py:212-253 | Success holds exactly when `keys` is a non-empty list and no planned call raises. Then the calls are all downs in list order, one sleep of the duration, then all ups in the same order. |
| MyAction.HoldFailureStops | agent/my_action.py:212-257 | An empty or non-list `keys` makes no call and returns False. A failure after that stops at the call that raised, a prefix of the plan, with no release. |
| MyAction.HoldWithoutFaults | agent/my_action.py:218-253 | With no failing call and a non-negative hold, a non-empty key list always succeeds. |
| MyAction.ObjectCount | agent/my_action.py:304-305 | The items before the count are objects, and the item at the count is not. |
| MyAction.PressDownsAreKeys | agent/my_action.py:304-314 | The press loop posts key downs for exactly the items' keys, in order. |
| MyAction.PressUpsAbsent | agent/my_action.py:304-314 | The press loop posts no key up. |
| MyAction.PressCallsPrefix | agent/my_action.py:304-314 | The calls for the first items are a prefix of the calls for all of them. |
| MyAction.DownsStopAfterPresses | agent/my_action.py:316-324 | After the press loop, the hold and the releases post no key down. |
| MyAction.NoDownsAfterPresses | agent/my_action.py:318-324 | The hold and any prefix of the releases post no key down. |
| MyAction.WholePlan | agent/my_action.py:300-329 | With every item an object, the plan is presses, then the hold, then one release per key. |
| MyAction.ReleaseFailurePressed | agent/my_action.py:316-324 | A failure in the hold or the releases leaves every key counted as pressed. |
| MyAction.PressStep | agent/my_action.py:304-314 | Each item's calls, the delay then the key down, follow the earlier ones and begin the plan. |
| MyAction.PressEntry | agent/my_action.py:305-314 | One item: a sleep only for a positive delay, then its key down. When a call raises, `pressed_keys` keeps only the earlier keys. |
| MyAction.PressInOrder | agent/my_action.py:300-314 | The press loop makes the planned calls up to the first raise or the first item that is not an object, and `pressed_keys` holds the keys whose down returned. |
| MyAction.HoldAndRelease | agent/my_action.py:316-329 | The hold and the release loop complete the plan, or stop at its first raise. |
| MyAction.ReleaseAll | agent/my_action.py:331-340 | The `except` block posts one key up per pressed key, in press order, whatever those calls raise. |
| MyAction.SequentialLongPressEffect | agent/my_action.py:267-340 | Non-object parameters let the error escape. Unreadable parameters, or a sequence that is empty or not a list, give False with no call. Otherwise the plan up to its first raise or first non-object entry. If that run completes, True; else the pressed keys are released and False. |
| MyAction.SequentialLongPress | agent/my_action.py:267-340 | The calls made and the value returned are those of SequentialLongPressEffect. |
| MyAction.SucceededAppend | agent/my_action.py:313-314 | The keys whose down returned, over two runs of calls, are those of each run, in order. |
| MyAction.SucceededWhenNoneRaises | agent/my_action.py:313-314 | When no call raises, those keys are all the posted downs. |
| MyAction.PressedAreSucceeded | agent/my_action.py:313-314 | `pressed_keys` holds exactly the keys whose key down returned, in call order. |
| MyAction.SequenceSucceeds | agent/my_action.py:290-329 | True exactly for a non-empty list of objects whose calls all go through. Then: presses in list order, the hold, and releases in the same order, with every pressed key released once. |
| MyAction.SequenceFailureReleases | agent/my_action.py:331-340 | On an exception, the action returns False. After the calls made come one key up per key whose down returned, in press order, and nothing else. |
| MyAction.DelaysOnlyWhenPositive | agent/my_action.py:308-310 | A delay produces a sleep only when it is positive, and every positive delay produces its sleep. |
| MyAction.FailedSequenceEffect | agent/my_action.py:331-340 | A `try` block that does not complete yields the calls made, then the releases of the pressed keys, and False. |
| MyAction.TwoKeysPlan | agent/my_action.py:304-324 | Two keys with no delay and a zero hold give: both downs, the hold, both ups. |
| MyAction.TwoKeysFirstReleaseRaises | agent/my_action.py:322-324 | When the first key up raises, both keys count as pressed. |
| MyAction.ReleaseFailureReleasesAgain | agent/my_action.py:322-340 | A raising first release is followed by the cleanup releasing both keys again, the first one a second time. |
| MyAction.NonObjectStopsPresses | agent/my_action.py:304-305 | An item that is not an object stops the presses. The keys before it are released, later keys are never pressed, and False is returned. |

## Left out

- WindowResolver.FirstTitled: titles are compared ignoring the case of ASCII letters only. The Win32 comparison also folds the letters of other alphabets; the game's keywords are ASCII letters and CJK characters, which have no case.
- JSON decoding of `custom_action_param`, and the `str`/`dict` type test. The parameters arrive decoded as a record with absent fields as `None`, as `Unreadable` (answered with False), or as `NotObject`, whose `params.get` raises.
- Logging, `debug_controller_attributes`, and the `.wait()` on controller jobs: they make no key events.
- The win32 window calls, `FindWindow`, `IsWindow`, `IsWindowVisible`, `GetWindowText` and `EnumWindows`. They are replaced by a list of window records; a handle from an exact match is taken as live.
- The input helper's internals. `char_to_vk` and `get_direction_vk` are parameters; a character `char_to_vk` cannot map, or a direction `get_direction_vk` cannot map, counts as raising. `long_press_key` and `press_multiple_keys` are single recorded calls, and their internal key events are not modelled.
- Real time. `time.time` becomes a sequence of integer-millisecond readings, and `time.sleep` takes integer milliseconds. Fractional seconds and non-numeric durations or delays are not modelled.
- Actions.RunWithJump, Actions.JumpBody, Actions.JumpPasses: require clock readings that reach the duration, because a clock that never does would loop forever.
- Detection.LongPressWithTimeoutDetection, Detection.PollLoop: require clock readings that reach the timeout, for the same reason. `loop_count` is returned rather than logged.
- Detection.RunPass: `interrupt_node` is only logged; the fallback is always key 69, as in the code.
- The recognition results are an input sequence, one per pass; the captured image is not modelled.
- `main.GAME_CONFIG` is not defined in `agent/main.py` and is not part of this model. The settings it holds are the `RuntimeConfig` object, shared explicitly by the actions that use it.
- `MyCustomAction` (always True), the `*Action` registration subclasses of `agent/my_action.py`, `agent/main.py` (process start-up) and `tools/test_spec.py` (prints paths) are not part of this model.
- MyAction.LongPressMultipleKeys: its two `for` loops and the sleep are one sequence of planned calls, made by a single `Host.Steps` call.
- In the code, PressMultipleKeys accepts only one-character strings, ints and the four key names; direction names such as "up" are refused. The code gives RunWithShift and LongPressMultipleKeys no release on failure, while RunWithJump and SequentialLongPress do release.
- In the code, the detection loop counts the pass that finds the timeout. Three misses followed by a timeout therefore give a `loop_count` of 4.
