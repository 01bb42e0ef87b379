/** What the service reads from the secure settings: the enabled flag and the
    flattened name of the default live lock screen. The settings provider
    itself is outside the model; its answers are given as inputs. */
module Settings {
  import opened Types

  /** TextUtils.isEmpty: a null or zero-length string. */
  predicate IsEmpty(s: Option<string>)
  {
    s.None? || |s.value| == 0
  }

  /** `CMSettings.Secure.getInt(resolver, LIVE_LOCK_SCREEN_ENABLED, 0) == 1`.
      `setting` is None when the setting is missing or not a number, in which
      case getInt yields its default 0. */
  function EnabledFromSetting(setting: Option<int>): (enabled: bool)
    ensures enabled <==> setting == Some(1)
  {
    (match setting
     case Some(v) => v
     case None => 0) == 1
  }

  /** getDefaultLiveLockScreenInternal: `setting` is the string stored under
      DEFAULT_LIVE_LOCK_SCREEN_COMPONENT and `unflatten` stands for
      ComponentName.unflattenFromString (which may itself give null). */
  function DefaultLiveLockScreen(setting: Option<string>, unflatten: string -> Option<ComponentName>)
    : (r: Option<LiveLockScreenInfo>)
    ensures r.None? <==> IsEmpty(setting)
    ensures !IsEmpty(setting) ==> r == Some(BuildInfo(unflatten(setting.value)))
  {
    if !IsEmpty(setting) then Some(BuildInfo(unflatten(setting.value))) else None
  }
}
