/** LiveLockScreenManagerService as an object: the two fields the source
    assigns, the worker Handler's message queue as a sequence the methods
    append to and consume from, and a ghost log of the values handed to
    notifyChangeListeners. Every method is proved to move the object's state
    as the corresponding function of module ServiceModel moves a ServiceState. */
module Service {
  import opened Types
  import opened Settings
  import opened ServiceModel

  class LiveLockScreenManagerService {
    /** mCurrentLiveLockScreen */
    var current: Option<LiveLockScreenInfo>
    /** mLiveLockScreenEnabled */
    var enabled: bool
    /** Messages posted to the worker Handler and not yet handled, oldest first. */
    var queue: seq<Message>
    /** Every value passed to notifyChangeListeners, oldest first. */
    ghost var notifications: seq<Option<LiveLockScreenInfo>>

    ghost function State(): ServiceState
      reads this
    {
      ServiceState(current, enabled, notifications)
    }

    constructor ()
      ensures State() == Initial && queue == []
    {
      current, enabled, queue := None, false, [];
      notifications := [];
    }

    /** getCurrentLiveLockScreen: callers see the stored value only while enabled. */
    function GetCurrentLiveLockScreen(): (r: Option<LiveLockScreenInfo>)
      reads this
      ensures enabled ==> r == current
      ensures !enabled ==> r == None
    {
      Visible(enabled, current)
    }

    /** getLiveLockScreenEnabled hands out the flag as stored. */
    function GetLiveLockScreenEnabled(): (r: bool)
      reads this
      ensures r <==> enabled
    {
      enabled
    }

    /** updateDefaultLiveLockScreen only posts a message for the worker. */
    method UpdateDefaultLiveLockScreen(info: Option<LiveLockScreenInfo>)
      modifies this
      ensures queue == old(queue) + [UpdateMessage(info)]
      ensures State() == old(State())
    {
      queue := queue + [UpdateMessage(info)];
    }

    /** The delivery to listeners is not modelled; only what was sent is recorded. */
    method NotifyChangeListeners(info: Option<LiveLockScreenInfo>)
      modifies this`notifications
      ensures notifications == old(notifications) + [info]
    {
      notifications := notifications + [info];
    }

    method HandleUpdateCurrentLiveLockScreen(info: Option<LiveLockScreenInfo>)
      modifies this
      ensures State() == UpdateCurrent(old(State()), info)
      ensures queue == old(queue)
    {
      if current != info {
        current := info;
        NotifyChangeListeners(info);
      }
    }

    /** WorkerHandler.handleMessage */
    method HandleMessage(msg: Message)
      modifies this
      ensures State() == Handle(old(State()), msg)
      ensures queue == old(queue)
    {
      if msg.what == MSG_UPDATE_CURRENT {
        HandleUpdateCurrentLiveLockScreen(msg.obj);
      }
    }

    /** One turn of the worker's Looper: take the oldest message and handle it. */
    method ProcessNext()
      requires queue != []
      modifies this
      ensures queue == old(queue)[1..]
      ensures State() == Handle(old(State()), old(queue)[0])
    {
      var msg := queue[0];
      queue := queue[1..];
      HandleMessage(msg);
    }

    /** The worker running until its queue is empty. */
    method Drain()
      modifies this
      ensures queue == []
      ensures State() == Process(old(State()), old(queue))
    {
      ghost var done: seq<Message> := [];
      while queue != []
        invariant old(queue) == done + queue
        invariant State() == Process(old(State()), done)
        decreases |queue|
      {
        ghost var msg := queue[0];
        ProcessNext();
        ProcessSnoc(old(State()), done, msg);
        done := done + [msg];
      }
      assert done + queue == done;
    }

    /** SettingsObserver.onChange; `enabledSetting` is what the settings
        provider answers for LIVE_LOCK_SCREEN_ENABLED. */
    method OnChange(selfChange: bool, enabledSetting: Option<int>)
      modifies this
      ensures State() == SettingsChanged(old(State()), selfChange, enabledSetting)
      ensures queue == old(queue)
    {
      enabled := EnabledFromSetting(enabledSetting);
      if !selfChange {
        NotifyChangeListeners(GetCurrentLiveLockScreen());
      }
    }

    /** SettingsObserver.observe, without the registration with the resolver. */
    method Observe(enabledSetting: Option<int>)
      modifies this
      ensures State() == SettingsChanged(old(State()), true, enabledSetting)
      ensures queue == old(queue)
    {
      OnChange(true, enabledSetting);
    }

    /** onCreate, after the worker thread is started. */
    method OnCreate(enabledSetting: Option<int>, defaultSetting: Option<string>,
                    unflatten: string -> Option<ComponentName>)
      modifies this
      ensures State() == Created(old(State()), enabledSetting, defaultSetting, unflatten)
      ensures queue == old(queue)
    {
      Observe(enabledSetting);
      current := DefaultLiveLockScreen(defaultSetting, unflatten);
    }
  }

  /** A client: start the service with no default, post A, B, A and let the
      worker run; listeners hear A, B, A and the service ends up holding A. */
  method PostAndDrainScenario(a: LiveLockScreenInfo, b: LiveLockScreenInfo,
                              unflatten: string -> Option<ComponentName>)
    requires a != b
  {
    var service := new LiveLockScreenManagerService();
    service.OnCreate(Some(1), None, unflatten);
    assert service.notifications == [] && service.GetCurrentLiveLockScreen() == None;
    service.UpdateDefaultLiveLockScreen(Some(a));
    service.UpdateDefaultLiveLockScreen(Some(b));
    service.UpdateDefaultLiveLockScreen(Some(a));
    assert service.queue == Updates([Some(a), Some(b), Some(a)]);
    assert service.State() == ServiceState(None, true, []);
    service.Drain();
    NonAdjacentRepeatsNotify(ServiceState(None, true, []), Some(a), Some(b));
    LastPostedWins(ServiceState(None, true, []), [Some(a), Some(b), Some(a)]);
    assert service.notifications == [Some(a), Some(b), Some(a)];
    assert service.GetCurrentLiveLockScreen() == Some(a);
  }
}
