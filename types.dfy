/** The values the live-lock-screen service passes around: a nullable reference
    becomes an Option, a LiveLockScreenInfo is an immutable value compared
    structurally, and a Handler message carries a code and a payload. */
module Types {

  /** A Java reference that may be null. */
  datatype Option<T> = None | Some(value: T)

  /** android.content.ComponentName: a package and a class inside it. */
  datatype ComponentName = ComponentName(packageName: string, className: string)

  /** Priority a LiveLockScreenInfo.Builder gives when none is set. */
  const PRIORITY_DEFAULT: int := 0

  /** cyanogenmod.app.LiveLockScreenInfo; equality is structural, standing in
      for Objects.equals on two infos. */
  datatype LiveLockScreenInfo = LiveLockScreenInfo(component: Option<ComponentName>, priority: int)

  /** `new LiveLockScreenInfo.Builder().setComponent(component).build()` */
  function BuildInfo(component: Option<ComponentName>): LiveLockScreenInfo
  {
    LiveLockScreenInfo(component, PRIORITY_DEFAULT)
  }

  /** WorkerHandler.MSG_UPDATE_CURRENT, the only message code the worker knows. */
  const MSG_UPDATE_CURRENT: int := 1000

  /** An android.os.Message as the worker sees it: its `what` code and its `obj`. */
  datatype Message = Message(what: int, obj: Option<LiveLockScreenInfo>)

  /** The message updateDefaultLiveLockScreen obtains for `info`. */
  function UpdateMessage(info: Option<LiveLockScreenInfo>): Message
  {
    Message(MSG_UPDATE_CURRENT, info)
  }
}
