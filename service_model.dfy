/** The service's state machine on values: the stored live lock screen, the
    enabled flag and the log of values handed to notifyChangeListeners, with
    the worker's message handling, the settings observer and startup as
    functions of that state. The class in module Service is proved to follow
    these functions step by step. */
module ServiceModel {
  import opened Types
  import opened Settings

  /** mCurrentLiveLockScreen, mLiveLockScreenEnabled and the notifications
      sent so far, oldest first. */
  datatype ServiceState = ServiceState(
    current: Option<LiveLockScreenInfo>,
    enabled: bool,
    log: seq<Option<LiveLockScreenInfo>>)

  /** The fields as the Java constructor leaves them: null, false, nothing sent. */
  const Initial: ServiceState := ServiceState(None, false, [])

  /** getCurrentLiveLockScreen: the stored value, hidden while disabled. */
  function Visible(enabled: bool, current: Option<LiveLockScreenInfo>): (r: Option<LiveLockScreenInfo>)
    ensures enabled ==> r == current
    ensures !enabled ==> r == None
  {
    if enabled then current else None
  }

  /** handleUpdateCurrentLiveLockScreenLocked */
  function UpdateCurrent(s: ServiceState, info: Option<LiveLockScreenInfo>): ServiceState
  {
    if s.current == info then s else s.(current := info, log := s.log + [info])
  }

  /** WorkerHandler.handleMessage: updates are applied, anything else dropped. */
  function Handle(s: ServiceState, m: Message): ServiceState
  {
    if m.what == MSG_UPDATE_CURRENT then UpdateCurrent(s, m.obj) else s
  }

  /** The worker thread handling `msgs` one at a time, first posted first. */
  function Process(s: ServiceState, msgs: seq<Message>): ServiceState
    decreases |msgs|
  {
    if msgs == [] then s else Process(Handle(s, msgs[0]), msgs[1..])
  }

  /** SettingsObserver.onChange: the flag is re-read first, so the
      notification carries the value as gated by the NEW flag. */
  function SettingsChanged(s: ServiceState, selfChange: bool, setting: Option<int>): ServiceState
  {
    var enabled := EnabledFromSetting(setting);
    if selfChange then s.(enabled := enabled)
    else s.(enabled := enabled, log := s.log + [Visible(enabled, s.current)])
  }

  /** onCreate: observe() runs onChange(true), then the default is loaded. */
  function Created(s: ServiceState, enabledSetting: Option<int>, defaultSetting: Option<string>,
                   unflatten: string -> Option<ComponentName>): ServiceState
  {
    SettingsChanged(s, true, enabledSetting).(current := DefaultLiveLockScreen(defaultSetting, unflatten))
  }

  // ---------------------------------------------------------------------------
  // Reference definitions the fold is compared with

  /** The messages posted by updateDefaultLiveLockScreen for each of `vs`. */
  function Updates(vs: seq<Option<LiveLockScreenInfo>>): (msgs: seq<Message>)
    ensures |msgs| == |vs|
    ensures forall i :: 0 <= i < |vs| ==> msgs[i] == UpdateMessage(vs[i])
  {
    seq(|vs|, i requires 0 <= i < |vs| => UpdateMessage(vs[i]))
  }

  /** The payloads of the update messages among `msgs`, in order. */
  function UpdateValues(msgs: seq<Message>): seq<Option<LiveLockScreenInfo>>
    decreases |msgs|
  {
    if msgs == [] then []
    else if msgs[0].what == MSG_UPDATE_CURRENT then [msgs[0].obj] + UpdateValues(msgs[1..])
    else UpdateValues(msgs[1..])
  }

  /** The last of `vs`, or `otherwise` when there is none. */
  function LastOr(otherwise: Option<LiveLockScreenInfo>, vs: seq<Option<LiveLockScreenInfo>>)
    : Option<LiveLockScreenInfo>
  {
    if vs == [] then otherwise else vs[|vs| - 1]
  }

  /** The values of `vs` that differ from the one before them, the first
      compared with `prev`: one entry per adjacent distinct transition. */
  function Transitions(prev: Option<LiveLockScreenInfo>, vs: seq<Option<LiveLockScreenInfo>>)
    : (t: seq<Option<LiveLockScreenInfo>>)
    ensures |t| <= |vs|
    decreases |vs|
  {
    if vs == [] then []
    else (if vs[0] != prev then [vs[0]] else []) + Transitions(vs[0], vs[1..])
  }

  // ---------------------------------------------------------------------------
  // One message

  /** An update equal to the stored value changes nothing and notifies no one. */
  lemma EqualUpdateIsNoop(s: ServiceState, info: Option<LiveLockScreenInfo>)
    requires info == s.current
    ensures Handle(s, UpdateMessage(info)) == s
  {
  }

  /** An update that differs stores the value and notifies exactly once, with it. */
  lemma ChangedUpdateNotifiesOnce(s: ServiceState, info: Option<LiveLockScreenInfo>)
    requires info != s.current
    ensures Handle(s, UpdateMessage(info)).current == info
    ensures Handle(s, UpdateMessage(info)).enabled == s.enabled
    ensures Handle(s, UpdateMessage(info)).log == s.log + [info]
  {
  }

  /** A message with another code is dropped and the worker goes on with the next one. */
  lemma UnknownMessageSkipped(s: ServiceState, m: Message, rest: seq<Message>)
    requires m.what != MSG_UPDATE_CURRENT
    ensures Handle(s, m) == s
    ensures Process(s, [m] + rest) == Process(s, rest)
  {
    assert ([m] + rest)[1..] == rest;
  }

  // ---------------------------------------------------------------------------
  // Draining the queue

  /** Handling one more message after a prefix. */
  lemma {:induction false} ProcessSnoc(s: ServiceState, msgs: seq<Message>, m: Message)
    ensures Process(s, msgs + [m]) == Handle(Process(s, msgs), m)
    decreases |msgs|
  {
    if msgs == [] {
      assert [m][1..] == [];
    } else {
      assert (msgs + [m])[1..] == msgs[1..] + [m];
      ProcessSnoc(Handle(s, msgs[0]), msgs[1..], m);
    }
  }

  /** Whatever mix of messages is drained: the flag is untouched, the stored
      value is the last update's payload (or the old value when there was no
      update), and the log gains one entry per adjacent distinct transition
      among the update payloads; unknown messages play no part. */
  lemma {:induction false} ProcessSummary(s: ServiceState, msgs: seq<Message>)
    ensures Process(s, msgs).enabled == s.enabled
    ensures Process(s, msgs).current == LastOr(s.current, UpdateValues(msgs))
    ensures Process(s, msgs).log == s.log + Transitions(s.current, UpdateValues(msgs))
    decreases |msgs|
  {
    if msgs != [] {
      var s' := Handle(s, msgs[0]);
      ProcessSummary(s', msgs[1..]);
      if msgs[0].what == MSG_UPDATE_CURRENT {
        var v := msgs[0].obj;
        var rest := UpdateValues(msgs[1..]);
        assert UpdateValues(msgs) == [v] + rest;
        assert ([v] + rest)[1..] == rest;
        assert s'.log == s.log + (if v != s.current then [v] else []);
      }
    }
  }

  lemma {:induction false} UpdateValuesOfUpdates(vs: seq<Option<LiveLockScreenInfo>>)
    ensures UpdateValues(Updates(vs)) == vs
    decreases |vs|
  {
    if vs != [] {
      assert Updates(vs)[1..] == Updates(vs[1..]);
      UpdateValuesOfUpdates(vs[1..]);
    }
  }

  /** After draining a non-empty run of posted updates the stored value is the
      last one posted, and the flag is unchanged. */
  lemma LastPostedWins(s: ServiceState, vs: seq<Option<LiveLockScreenInfo>>)
    requires |vs| > 0
    ensures Process(s, Updates(vs)).current == vs[|vs| - 1]
    ensures Process(s, Updates(vs)).enabled == s.enabled
  {
    ProcessSummary(s, Updates(vs));
    UpdateValuesOfUpdates(vs);
  }

  /** Draining posted updates notifies once per adjacent distinct transition. */
  lemma DrainedLog(s: ServiceState, vs: seq<Option<LiveLockScreenInfo>>)
    ensures Process(s, Updates(vs)).log == s.log + Transitions(s.current, vs)
  {
    ProcessSummary(s, Updates(vs));
    UpdateValuesOfUpdates(vs);
  }

  /** Posting the last value once more is a no-op: the same state results. */
  lemma RepostIsNoop(s: ServiceState, vs: seq<Option<LiveLockScreenInfo>>, v: Option<LiveLockScreenInfo>)
    ensures Process(s, Updates(vs + [v, v])) == Process(s, Updates(vs + [v]))
  {
    assert Updates(vs + [v, v]) == Updates(vs + [v]) + [UpdateMessage(v)];
    ProcessSnoc(s, Updates(vs + [v]), UpdateMessage(v));
    LastPostedWins(s, vs + [v]);
  }

  /** No notification repeats the value before it: the first differs from the
      value stored before draining, each later one from its predecessor. */
  lemma {:induction false} TransitionsNeverRepeat(prev: Option<LiveLockScreenInfo>, vs: seq<Option<LiveLockScreenInfo>>)
    ensures |Transitions(prev, vs)| > 0 ==> Transitions(prev, vs)[0] != prev
    ensures forall i :: 0 < i < |Transitions(prev, vs)| ==> Transitions(prev, vs)[i] != Transitions(prev, vs)[i - 1]
    decreases |vs|
  {
    if vs != [] {
      TransitionsNeverRepeat(vs[0], vs[1..]);
    }
  }

  /** Nothing is notified exactly when every posted value equals the stored one. */
  lemma {:induction false} TransitionsEmptyIff(prev: Option<LiveLockScreenInfo>, vs: seq<Option<LiveLockScreenInfo>>)
    ensures Transitions(prev, vs) == [] <==> forall i :: 0 <= i < |vs| ==> vs[i] == prev
    decreases |vs|
  {
    if vs != [] {
      TransitionsEmptyIff(vs[0], vs[1..]);
      if vs[0] == prev {
        assert forall i :: 0 < i < |vs| ==> vs[i] == vs[1..][i - 1];
      }
    }
  }

  /** When something is notified, the last notification carries the last value posted. */
  lemma {:induction false} TransitionsEndAtLast(prev: Option<LiveLockScreenInfo>, vs: seq<Option<LiveLockScreenInfo>>)
    requires Transitions(prev, vs) != []
    ensures |vs| > 0 && Transitions(prev, vs)[|Transitions(prev, vs)| - 1] == vs[|vs| - 1]
    decreases |vs|
  {
    if Transitions(vs[0], vs[1..]) != [] {
      TransitionsEndAtLast(vs[0], vs[1..]);
    } else {
      TransitionsEmptyIff(vs[0], vs[1..]);
      if |vs| > 1 {
        assert vs[1..][|vs| - 2] == vs[0];
      }
    }
  }

  /** Posting A then A from a state not holding A notifies once, with A. */
  lemma RepeatedPostNotifiesOnce(s: ServiceState, a: Option<LiveLockScreenInfo>)
    requires s.current != a
    ensures Process(s, Updates([a, a])).log == s.log + [a]
  {
    DrainedLog(s, [a, a]);
    assert [a, a][1..] == [a];
  }

  /** Posting A, B, A (A != B) from a state not holding A notifies A, B, A in that order. */
  lemma NonAdjacentRepeatsNotify(s: ServiceState, a: Option<LiveLockScreenInfo>, b: Option<LiveLockScreenInfo>)
    requires a != b && s.current != a
    ensures Process(s, Updates([a, b, a])).log == s.log + [a, b, a]
  {
    DrainedLog(s, [a, b, a]);
    assert [a, b, a][1..] == [b, a];
    assert [b, a][1..] == [a];
    assert Transitions(b, [a]) == [a];
    assert Transitions(a, [b, a]) == [b, a];
  }

  // ---------------------------------------------------------------------------
  // Settings changes and startup

  /** onChange sets the flag to (setting == 1, missing meaning 0), never touches
      the stored value, and notifies exactly once, with the gated value, unless
      the change is self-originated. */
  lemma SettingsChangeEffect(s: ServiceState, selfChange: bool, setting: Option<int>)
    ensures SettingsChanged(s, selfChange, setting).enabled <==> setting == Some(1)
    ensures SettingsChanged(s, selfChange, setting).current == s.current
    ensures selfChange ==> SettingsChanged(s, selfChange, setting).log == s.log
    ensures !selfChange ==> SettingsChanged(s, selfChange, setting).log
                              == s.log + [if setting == Some(1) then s.current else None]
  {
  }

  /** An external change notifies even when nothing changed: with the feature
      enabled before and after, the listeners get the same value again. */
  lemma ExternalChangeRenotifies(s: ServiceState)
    requires s.enabled
    ensures SettingsChanged(s, false, Some(1)) == s.(log := s.log + [s.current])
  {
  }

  /** Startup sends no notification, mirrors the enabled setting and stores the
      default; with no default configured the service reports no value. */
  lemma StartupIsSilent(enabledSetting: Option<int>, defaultSetting: Option<string>,
                        unflatten: string -> Option<ComponentName>)
    ensures Created(Initial, enabledSetting, defaultSetting, unflatten).log == []
    ensures Created(Initial, enabledSetting, defaultSetting, unflatten).enabled <==> enabledSetting == Some(1)
    ensures Created(Initial, enabledSetting, defaultSetting, unflatten).current
              == DefaultLiveLockScreen(defaultSetting, unflatten)
    ensures IsEmpty(defaultSetting) ==>
              var r := Created(Initial, enabledSetting, defaultSetting, unflatten);
              Visible(r.enabled, r.current) == None
  {
  }
}
