/**
 * The process-wide settings dictionary (`main.GAME_CONFIG`), written by
 * SetDodgeKey and read by RunWithShift and RunWithJump. Its one setting is the
 * dodge key, stored exactly as the parameters gave it.
 */
module Config {
  import opened Json
  import opened KeyCodes

  /** The name the dodge key is stored under. */
  const DodgeSetting: string := "dodge_key"

  /** `GAME_CONFIG.get("dodge_key", win32con.VK_SHIFT)` on given settings. */
  function DodgeKeyIn(settings: map<string, Value>): Value {
    if DodgeSetting in settings then settings[DodgeSetting] else Int(VkShift)
  }

  class RuntimeConfig {
    var settings: map<string, Value>

    /** An empty configuration, as at process start. */
    constructor ()
      ensures settings == map[]
    {
      settings := map[];
    }

    /** The dodge key the gestures read. */
    function DodgeKey(): Value
      reads this
    {
      DodgeKeyIn(settings)
    }
  }
}
