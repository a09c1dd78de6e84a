/**
 * The two broadcast receivers that decide whether a message notification is
 * handled now or later. `SMSReceiver` starts the SMS service when the phone is
 * idle and otherwise sets an alarm one minute ahead. `MMSAlarmReceiver` checks
 * that the app and MMS notifications are enabled, decides whether the popup is
 * blocked, and when it is may post a status-bar notification and reschedule
 * itself after the configured interval.
 *
 * What a receiver does to the outside world (service starts, alarms,
 * status-bar notifications) is returned as a list of effects. The clock, the
 * call state, the blocking-app check and the MMS records on disk are inputs.
 */
module Receivers {
  import opened JavaText
  import opened Preferences

  /** The components an intent can be addressed to. */
  datatype Component = SmsReceiverService | SmsAlarmReceiver | MmsReceiverService | MmsAlarmReceiver

  /** The extras of an intent. */
  type Extras = map<string, string>

  datatype Effect =
    | StartService(service: Component, extras: Extras)
    | SetAlarm(triggerAtMillis: int, receiver: Component, action: string, extras: Extras)
    | ShowStatusBar(callStateIdle: bool, contactName: Option<string>, address: string, body: string)

  predicate IsAlarm(e: Effect) { e.SetAlarm? }

  /** The action of a rescheduling intent: a fixed prefix and the clock reading it was built at. */
  function RescheduleAction(prefix: string, stampMillis: int): string
  {
    prefix + LongToString(stampMillis)
  }

  const SMS_RESCHEDULE_PREFIX: string := "apps.droidnotify.VIEW/SMSReschedule/"
  const MMS_RESCHEDULE_PREFIX: string := "apps.droidnotify.VIEW/MMSReschedule/"

  /** The clock reading stamped into an action can be read back from it. */
  lemma RescheduleActionStamp(prefix: string, stampMillis: int)
    requires LongMin <= stampMillis <= LongMax
    ensures |RescheduleAction(prefix, stampMillis)| > |prefix|
    ensures RescheduleAction(prefix, stampMillis)[..|prefix|] == prefix
    ensures ParseLong(RescheduleAction(prefix, stampMillis)[|prefix|..]) == Some(stampMillis)
  {
    var a := RescheduleAction(prefix, stampMillis);
    LongToStringParses(stampMillis);
    assert a[|prefix|..] == LongToString(stampMillis);
  }

  // ---------------------------------------------------------------------------
  // SMSReceiver
  // ---------------------------------------------------------------------------

  const INTERVAL_ONE_MINUTE: int := 1 * 60 * 1000

  /**
   * `SMSReceiver.onReceive`. `now` and `stampMillis` are the two clock
   * readings of the non-idle branch (trigger time and action stamp); both are
   * Java longs.
   */
  function SmsReceive(callStateIdle: bool, extras: Extras, now: int, stampMillis: int): (r: seq<Effect>)
    requires LongMin <= now <= LongMax && LongMin <= stampMillis <= LongMax
    ensures |r| == 1
    ensures r[0].StartService? <==> callStateIdle
    ensures r[0].SetAlarm? <==> !callStateIdle
    ensures !r[0].ShowStatusBar? && r[0].extras == extras
    ensures r[0].StartService? ==> r[0].service == SmsReceiverService
    ensures r[0].SetAlarm? ==> r[0].receiver == SmsAlarmReceiver
    ensures r[0].SetAlarm? && now <= LongMax - INTERVAL_ONE_MINUTE ==> r[0].triggerAtMillis == now + 60000
  {
    if callStateIdle then
      [StartService(SmsReceiverService, extras)]
    else
      [SetAlarm(Wrap64(now + INTERVAL_ONE_MINUTE), SmsAlarmReceiver,
                RescheduleAction(SMS_RESCHEDULE_PREFIX, stampMillis), extras)]
  }

  /** A deferred SMS is addressed to `SMSAlarmReceiver` with an action that carries the time it was deferred at. */
  lemma SmsAlarmStamped(extras: Extras, now: int, stampMillis: int)
    requires LongMin <= now <= LongMax && LongMin <= stampMillis <= LongMax
    ensures var a := SmsReceive(false, extras, now, stampMillis)[0].action;
            && a[..|SMS_RESCHEDULE_PREFIX|] == SMS_RESCHEDULE_PREFIX
            && ParseLong(a[|SMS_RESCHEDULE_PREFIX|..]) == Some(stampMillis)
  {
    RescheduleActionStamp(SMS_RESCHEDULE_PREFIX, stampMillis);
  }

  // ---------------------------------------------------------------------------
  // MMSAlarmReceiver
  // ---------------------------------------------------------------------------

  /**
   * The preference keys and the "ignore" action value the receiver reads. They
   * are defined in `Constants`, which is not part of this model.
   */
  datatype MmsConstants = MmsConstants(
    appEnabledKey: string, mmsEnabledKey: string, inMessagingAppKey: string,
    blockingActionKey: string, statusBarWhenBlockedKey: string,
    rescheduleTimeoutKey: string, rescheduleEnabledKey: string,
    ignoreAction: string)

  /**
   * What the receiver reads from outside the preferences: the call state, the
   * blocking-app check, the MMS records on disk, and the two clock readings
   * (trigger time and action stamp).
   */
  datatype MmsEnvironment = MmsEnvironment(
    callStateIdle: bool, blockingAppRunning: bool, mmsOnDisk: seq<string>, now: int, stampMillis: int)

  /** How `onReceive` ends: normally, or with an exception that escapes it. */
  datatype Outcome = Finished | Crashed

  /** The popup waits iff a call is active, the user is in the messaging app, or a blocking app runs. */
  predicate PopupBlocked(callStateIdle: bool, inMessagingApp: bool, blockingAppRunning: bool)
  {
    !callStateIdle || inMessagingApp || blockingAppRunning
  }

  /** A stored MMS record: address, body, and a contact name when there is one. */
  datatype MmsRecord = MmsRecord(address: string, body: string, contactName: Option<string>)

  /**
   * The record read from a `|`-separated line: five fields carry no contact
   * name; otherwise the name is the seventh field. Any other shape makes the
   * source index past the end of the array (`None`).
   */
  function ParseMmsRecord(item: string): (r: Option<MmsRecord>)
    ensures var f := Split(item, '|');
            && (r.Some? <==> |f| == 5 || |f| >= 7)
            && (r.Some? ==> r.value.address == f[0] && r.value.body == f[1])
            && (r.Some? ==> (r.value.contactName.None? <==> |f| == 5))
  {
    var mmsInfo := Split(item, '|');
    if |mmsInfo| == 5 then Some(MmsRecord(mmsInfo[0], mmsInfo[1], None))
    else if |mmsInfo| >= 7 then Some(MmsRecord(mmsInfo[0], mmsInfo[1], Some(mmsInfo[6])))
    else None
  }

  /** A five-field record reads back its address and body, with no contact name. */
  lemma MmsRecordWithoutName(address: string, body: string, x2: string, x3: string, x4: string)
    requires '|' !in address && '|' !in body && '|' !in x2 && '|' !in x3 && '|' !in x4
    requires x4 != ""
    ensures ParseMmsRecord(Join([address, body, x2, x3, x4], '|')) == Some(MmsRecord(address, body, None))
  {
    SplitJoin([address, body, x2, x3, x4], '|');
  }

  /** A record of seven or more fields reads back its address, body and the seventh field as the name. */
  lemma MmsRecordWithName(fields: seq<string>)
    requires |fields| >= 7
    requires forall k :: 0 <= k < |fields| ==> '|' !in fields[k]
    requires fields[|fields| - 1] != ""
    ensures ParseMmsRecord(Join(fields, '|')) == Some(MmsRecord(fields[0], fields[1], Some(fields[6])))
  {
    SplitJoin(fields, '|');
  }

  /** The reschedule interval: the preference in minutes times 60000, in Java long arithmetic. */
  function RescheduleInterval(minutesText: string): (r: Option<int>)
    ensures r.None? <==> ParseLong(minutesText).None?
    ensures r.Some? ==> LongMin <= r.value <= LongMax
    ensures r.Some? && LongMin <= ParseLong(minutesText).value * 60000 <= LongMax ==>
              r.value == ParseLong(minutesText).value * 60000
  {
    match ParseLong(minutesText)
    case None => None
    case Some(minutes) => Some(Wrap64(minutes * 60 * 1000))
  }

  /** The default interval of "5" minutes is five minutes in milliseconds. */
  lemma DefaultIntervalIsFiveMinutes()
    ensures RescheduleInterval("5") == Some(300000)
  {
    assert AllDigits("5");
    assert DigitsValue("5") == 5 by {
      assert "5"[..0] == "";
    }
  }

  /**
   * The status-bar step of a blocked popup: nothing when the preference is
   * off, one status-bar notification for the first stored record otherwise,
   * and `None` (an exception) when there is no record or it is malformed.
   */
  function StatusBarEffects(c: MmsConstants, store: Store, env: MmsEnvironment): (r: Option<seq<Effect>>)
    ensures r.Some? ==> |r.value| <= 1 && forall e :: e in r.value ==> e.ShowStatusBar?
  {
    if !GetBoolean(store, c.statusBarWhenBlockedKey, true) then Some([])
    else if |env.mmsOnDisk| == 0 then None
    else match ParseMmsRecord(env.mmsOnDisk[0])
      case None => None
      case Some(m) => Some([ShowStatusBar(env.callStateIdle, m.contactName, m.address, m.body)])
  }

  /** What one `onReceive` call ends with: how it ended, its effects in order, and the new store. */
  datatype MmsResult = MmsResult(outcome: Outcome, effects: seq<Effect>, store: Store)

  /** `MMSAlarmReceiver.onReceive` as a function of the store and the environment. */
  function MmsReceive(c: MmsConstants, store: Store, env: MmsEnvironment): MmsResult
  {
    if !GetBoolean(store, c.appEnabledKey, true) || !GetBoolean(store, c.mmsEnabledKey, true) then
      MmsResult(Finished, [], store)
    else if !PopupBlocked(env.callStateIdle, GetBoolean(store, c.inMessagingAppKey, false), env.blockingAppRunning) then
      MmsResult(Finished, [StartService(MmsReceiverService, map[])], store)
    else match StatusBarEffects(c, store, env)
      case None => MmsResult(Crashed, [], store)
      case Some(shown) =>
        if GetString(store, c.blockingActionKey, "0") == c.ignoreAction then MmsResult(Finished, shown, store)
        else RescheduleTail(c, store, env, shown)
  }

  /**
   * The rescheduling tail of `onReceive` after the effects `before`: an
   * unparsable interval crashes; with rescheduling on, a zero interval
   * switches it off and any other sets one alarm at now plus the interval.
   */
  function RescheduleTail(c: MmsConstants, store: Store, env: MmsEnvironment, before: seq<Effect>): MmsResult
  {
    match RescheduleInterval(GetString(store, c.rescheduleTimeoutKey, "5"))
    case None => MmsResult(Crashed, before, store)
    case Some(interval) =>
      if !GetBoolean(store, c.rescheduleEnabledKey, true) then MmsResult(Finished, before, store)
      else if interval == 0 then MmsResult(Finished, before, store[c.rescheduleEnabledKey := BoolValue(false)])
      else MmsResult(Finished, before + [SetAlarm(Wrap64(env.now + interval), MmsAlarmReceiver,
                                                  RescheduleAction(MMS_RESCHEDULE_PREFIX, env.stampMillis), map[])], store)
  }

  /** `MMSAlarmReceiver.onReceive`, reading and writing the preference store. */
  method MmsOnReceive(c: MmsConstants, prefs: SharedPreferences, env: MmsEnvironment)
    returns (outcome: Outcome, effects: seq<Effect>)
    modifies prefs
    ensures MmsResult(outcome, effects, prefs.values) == MmsReceive(c, old(prefs.values), env)
  {
    effects := [];
    if !GetBoolean(prefs.values, c.appEnabledKey, true) {
      return Finished, effects;
    }
    if !GetBoolean(prefs.values, c.mmsEnabledKey, true) {
      return Finished, effects;
    }
    var rescheduleNotification := false;
    var callStateIdle := env.callStateIdle;
    var inMessagingApp := GetBoolean(prefs.values, c.inMessagingAppKey, false);
    var blockingAppRunning := env.blockingAppRunning;
    var blockingAppRunningAction := GetString(prefs.values, c.blockingActionKey, "0");
    if !callStateIdle || inMessagingApp {
      rescheduleNotification := true;
    } else {
      if blockingAppRunning {
        rescheduleNotification := true;
      }
    }
    if !rescheduleNotification {
      assert effects + [StartService(MmsReceiverService, map[])] == [StartService(MmsReceiverService, map[])];
      effects := effects + [StartService(MmsReceiverService, map[])];
      return Finished, effects;
    }
    var shown, crashed := PostStatusBar(c, prefs.values, env);
    if crashed {
      return Crashed, effects;
    }
    assert effects + shown == shown;
    effects := effects + shown;
    if blockingAppRunningAction == c.ignoreAction {
      return Finished, effects;
    }
    outcome, effects := Reschedule(c, prefs, env, effects);
  }

  /**
   * The status-bar block of `onReceive` for a blocked popup; `crashed` when the
   * record list is empty or its first record is malformed.
   */
  method PostStatusBar(c: MmsConstants, store: Store, env: MmsEnvironment)
    returns (shown: seq<Effect>, crashed: bool)
    ensures crashed <==> StatusBarEffects(c, store, env).None?
    ensures !crashed ==> shown == StatusBarEffects(c, store, env).value
  {
    shown := [];
    crashed := false;
    if GetBoolean(store, c.statusBarWhenBlockedKey, true) {
      if |env.mmsOnDisk| == 0 {
        return [], true;
      }
      var mmsInfo := Split(env.mmsOnDisk[0], '|');
      var messageAddress: string;
      var messageBody: string;
      var contactName: Option<string> := None;
      if |mmsInfo| == 5 {
        messageAddress := mmsInfo[0];
        messageBody := mmsInfo[1];
      } else {
        if |mmsInfo| < 7 {
          return [], true;
        }
        messageAddress := mmsInfo[0];
        messageBody := mmsInfo[1];
        contactName := Some(mmsInfo[6]);
      }
      shown := [ShowStatusBar(env.callStateIdle, contactName, messageAddress, messageBody)];
    }
  }

  /** The rescheduling tail of `onReceive`: parse the interval, then switch rescheduling off or set the alarm. */
  method Reschedule(c: MmsConstants, prefs: SharedPreferences, env: MmsEnvironment, before: seq<Effect>)
    returns (outcome: Outcome, effects: seq<Effect>)
    modifies prefs
    ensures MmsResult(outcome, effects, prefs.values) == RescheduleTail(c, old(prefs.values), env, before)
  {
    effects := before;
    var minutes := ParseLong(GetString(prefs.values, c.rescheduleTimeoutKey, "5"));
    if minutes.None? {
      return Crashed, effects;
    }
    var rescheduleInterval := Wrap64(minutes.value * 60 * 1000);
    if GetBoolean(prefs.values, c.rescheduleEnabledKey, true) {
      if rescheduleInterval == 0 {
        var editor := new Editor(prefs);
        editor.Put(c.rescheduleEnabledKey, BoolValue(false));
        editor.Commit();
        assert prefs.values == old(prefs.values)[c.rescheduleEnabledKey := BoolValue(false)];
        return Finished, effects;
      }
      var action := RescheduleAction(MMS_RESCHEDULE_PREFIX, env.stampMillis);
      effects := effects + [SetAlarm(Wrap64(env.now + rescheduleInterval), MmsAlarmReceiver, action, map[])];
    }
    return Finished, effects;
  }

  // Properties of the MMS decision

  /** With the app or MMS notifications disabled, nothing happens. */
  lemma DisabledDoesNothing(c: MmsConstants, store: Store, env: MmsEnvironment)
    requires !GetBoolean(store, c.appEnabledKey, true) || !GetBoolean(store, c.mmsEnabledKey, true)
    ensures MmsReceive(c, store, env) == MmsResult(Finished, [], store)
  {
  }

  /** An unblocked popup starts the MMS service once: no alarm, no status-bar entry, no store change. */
  lemma UnblockedStartsServiceOnce(c: MmsConstants, store: Store, env: MmsEnvironment)
    requires GetBoolean(store, c.appEnabledKey, true) && GetBoolean(store, c.mmsEnabledKey, true)
    requires !PopupBlocked(env.callStateIdle, GetBoolean(store, c.inMessagingAppKey, false), env.blockingAppRunning)
    ensures MmsReceive(c, store, env) == MmsResult(Finished, [StartService(MmsReceiverService, map[])], store)
  {
  }

  /** A blocked popup never starts the service, and sets at most one alarm, after any status-bar entry. */
  lemma BlockedNeverStartsService(c: MmsConstants, store: Store, env: MmsEnvironment)
    requires PopupBlocked(env.callStateIdle, GetBoolean(store, c.inMessagingAppKey, false), env.blockingAppRunning)
    ensures forall e :: e in MmsReceive(c, store, env).effects ==> !e.StartService?
    ensures forall i :: 0 <= i < |MmsReceive(c, store, env).effects| - 1 ==>
              MmsReceive(c, store, env).effects[i].ShowStatusBar?
  {
    var r := MmsReceive(c, store, env);
    var shown := StatusBarEffects(c, store, env);
    if && GetBoolean(store, c.appEnabledKey, true) && GetBoolean(store, c.mmsEnabledKey, true)
       && shown.Some? && GetString(store, c.blockingActionKey, "0") != c.ignoreAction
    {
      var t := RescheduleTail(c, store, env, shown.value);
      assert r == t;
      if t.effects != shown.value {
        assert t.effects[..|shown.value|] == shown.value;
        forall e | e in t.effects
          ensures !e.StartService?
        {
          var k :| 0 <= k < |t.effects| && t.effects[k] == e;
          if k < |shown.value| {
            assert t.effects[..|shown.value|][k] == e;
          }
        }
      }
    }
  }

  /** With the "ignore" action, a blocked popup sets no alarm and leaves the store alone. */
  lemma IgnoreSetsNoAlarm(c: MmsConstants, store: Store, env: MmsEnvironment)
    requires PopupBlocked(env.callStateIdle, GetBoolean(store, c.inMessagingAppKey, false), env.blockingAppRunning)
    requires GetString(store, c.blockingActionKey, "0") == c.ignoreAction
    ensures forall e :: e in MmsReceive(c, store, env).effects ==> !IsAlarm(e)
    ensures MmsReceive(c, store, env).store == store
  {
  }

  /**
   * The interval is parsed before the reschedule flag is read: a bad interval
   * ends in an exception even with rescheduling off.
   */
  lemma BadIntervalCrashes(c: MmsConstants, store: Store, env: MmsEnvironment)
    requires GetBoolean(store, c.appEnabledKey, true) && GetBoolean(store, c.mmsEnabledKey, true)
    requires PopupBlocked(env.callStateIdle, GetBoolean(store, c.inMessagingAppKey, false), env.blockingAppRunning)
    requires StatusBarEffects(c, store, env).Some?
    requires GetString(store, c.blockingActionKey, "0") != c.ignoreAction
    requires ParseLong(GetString(store, c.rescheduleTimeoutKey, "5")).None?
    ensures MmsReceive(c, store, env).outcome == Crashed
  {
  }

  /**
   * With rescheduling on, an interval of zero switches rescheduling off and
   * sets no alarm, while a nonzero interval sets exactly one alarm, at now
   * plus the interval, as the last effect.
   */
  lemma RescheduleRule(c: MmsConstants, store: Store, env: MmsEnvironment)
    requires GetBoolean(store, c.appEnabledKey, true) && GetBoolean(store, c.mmsEnabledKey, true)
    requires PopupBlocked(env.callStateIdle, GetBoolean(store, c.inMessagingAppKey, false), env.blockingAppRunning)
    requires StatusBarEffects(c, store, env).Some?
    requires GetString(store, c.blockingActionKey, "0") != c.ignoreAction
    requires RescheduleInterval(GetString(store, c.rescheduleTimeoutKey, "5")).Some?
    requires GetBoolean(store, c.rescheduleEnabledKey, true)
    ensures var interval := RescheduleInterval(GetString(store, c.rescheduleTimeoutKey, "5")).value;
            var r := MmsReceive(c, store, env);
            && r.outcome == Finished
            && (interval == 0 ==> r.store == store[c.rescheduleEnabledKey := BoolValue(false)]
                                  && !GetBoolean(r.store, c.rescheduleEnabledKey, true)
                                  && forall e :: e in r.effects ==> !IsAlarm(e))
            && (interval != 0 ==> r.store == store
                                  && |r.effects| >= 1
                                  && r.effects[|r.effects| - 1].SetAlarm?
                                  && r.effects[|r.effects| - 1].triggerAtMillis == Wrap64(env.now + interval)
                                  && r.effects[|r.effects| - 1].receiver == MmsAlarmReceiver
                                  && forall i :: 0 <= i < |r.effects| - 1 ==> !IsAlarm(r.effects[i]))
  {
    var shown := StatusBarEffects(c, store, env).value;
    ReschedulePath(c, store, env);
    var r := MmsReceive(c, store, env);
    if r.effects != shown {
      forall i | 0 <= i < |r.effects| - 1
        ensures !IsAlarm(r.effects[i])
      {
        assert r.effects[i] == shown[i];
        assert shown[i] in shown;
      }
    }
  }

  /** The path of `onReceive` that reaches the reschedule block with rescheduling on. */
  lemma ReschedulePath(c: MmsConstants, store: Store, env: MmsEnvironment)
    requires GetBoolean(store, c.appEnabledKey, true) && GetBoolean(store, c.mmsEnabledKey, true)
    requires PopupBlocked(env.callStateIdle, GetBoolean(store, c.inMessagingAppKey, false), env.blockingAppRunning)
    requires StatusBarEffects(c, store, env).Some?
    requires GetString(store, c.blockingActionKey, "0") != c.ignoreAction
    requires RescheduleInterval(GetString(store, c.rescheduleTimeoutKey, "5")).Some?
    requires GetBoolean(store, c.rescheduleEnabledKey, true)
    ensures var shown := StatusBarEffects(c, store, env).value;
            var interval := RescheduleInterval(GetString(store, c.rescheduleTimeoutKey, "5")).value;
            MmsReceive(c, store, env) ==
              if interval == 0 then MmsResult(Finished, shown, store[c.rescheduleEnabledKey := BoolValue(false)])
              else MmsResult(Finished, shown + [SetAlarm(Wrap64(env.now + interval), MmsAlarmReceiver,
                                                        RescheduleAction(MMS_RESCHEDULE_PREFIX, env.stampMillis), map[])], store)
  {
  }

  /** The store changes only when a zero interval switches rescheduling off. */
  lemma StoreChangesOnlyOnZeroInterval(c: MmsConstants, store: Store, env: MmsEnvironment)
    requires MmsReceive(c, store, env).store != store
    ensures RescheduleInterval(GetString(store, c.rescheduleTimeoutKey, "5")) == Some(0)
    ensures MmsReceive(c, store, env).store == store[c.rescheduleEnabledKey := BoolValue(false)]
  {
    var shown := StatusBarEffects(c, store, env);
    assert shown.Some? && GetString(store, c.blockingActionKey, "0") != c.ignoreAction;
    var tail := RescheduleTail(c, store, env, shown.value);
    assert MmsReceive(c, store, env) == tail;
    assert tail.store != store;
  }
}
