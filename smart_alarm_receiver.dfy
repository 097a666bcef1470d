/**
 * SmartAlarmReceiver: the broadcast receiver of the smart alarm.
 *
 * A broadcast carries an action and possibly a bundle of extras; the receiver
 * reads and writes the default SharedPreferences (a map from keys to values)
 * and asks the alarm utilities, the alert service and the route
 * recalculation task to do things, recorded here as an ordered log of
 * AlarmEffects. An exception thrown inside onReceive ends the handling of
 * that broadcast: what happened before it stays, nothing after it happens.
 *
 * Receive is the reference definition of one broadcast; the class
 * SmartAlarmReceiver is the imperative receiver, proved to do exactly what
 * Receive says. The lemmas state what the handlers promise.
 */
module SmartAlarm {
  import opened Wrappers
  import opened EffectLogs

  // ---------------------------------------------------------------------------
  // Data model
  // ---------------------------------------------------------------------------

  /** A SmartAlarmInfo: the receiver reads only the lecture start; the rest travels along untouched. */
  datatype AlarmInfo = AlarmInfo(lectureStart: int, payload: string)

  /** What the bundle holds under the key INFO: nothing, a SmartAlarmInfo, or a value of another class. */
  datatype InfoEntry = Absent | Info(info: AlarmInfo) | Foreign

  /** intent.getExtras(): null, or a bundle. */
  datatype Extras = NoBundle | Bundle(entry: InfoEntry)

  /** The action strings onReceive distinguishes; OtherAction is any other string. */
  datatype ReceivedAction = Alarm | PreAlarm | Retry | Toggle | PackageReplaced | BootCompleted | OtherAction

  /** A received broadcast; an absent action is a null getAction(). */
  datatype AlarmIntent = AlarmIntent(action: Option<ReceivedAction>, extras: Extras)

  /**
   * A stored preference value: a boolean, the SQL-formatted date string the
   * alarm handler writes (kept as the instant it formats), or any other string.
   */
  datatype PrefValue = BoolPref(flag: bool) | SqlDate(instant: int) | TextPref(text: string)

  type Prefs = map<string, PrefValue>

  /** What the receiver does to the outside world. */
  datatype AlarmEffect =
    | ScheduleAlarm                                  // SmartAlarmUtils.scheduleAlarm
    | CancelAlarm                                    // SmartAlarmUtils.cancelAlarm
    | UpdateWidget(info: Option<AlarmInfo>, active: bool)  // SmartAlarmUtils.updateWidget
    | StartAlertService(alert: Option<AlarmInfo>)    // startService(SmartAlarmService) with INFO
    | LaunchRecalculation(task: Option<AlarmInfo>)   // new AlarmSchedulerTask(c, sai).execute()

  /** The outcome of handling one broadcast: the preferences afterwards, the effects, and whether it threw. */
  datatype Reception = Reception(prefs: Prefs, effects: seq<AlarmEffect>, threw: bool)

  /** The key handleToggle reads and writes. */
  const ActiveKey: string := "smart_alarm_active"
  /** The key handleAlarm writes. */
  const LastAlarmKey: string := "smart_alarm_last"

  /** Two preference maps that agree everywhere except possibly at the given keys. */
  ghost predicate AgreeExcept(p: Prefs, q: Prefs, keys: set<string>) {
    forall k :: k !in keys ==> (k in p <==> k in q) && (k in p ==> p[k] == q[k])
  }

  /**
   * SharedPreferences.getBoolean(key, default): the default when the key is
   * missing, the stored flag when it holds a boolean, and None for the
   * ClassCastException thrown when it holds another kind of value.
   */
  function ReadBool(prefs: Prefs, key: string, default: bool): (v: Option<bool>)
    ensures v.None? <==> key in prefs && !prefs[key].BoolPref?
    ensures key !in prefs ==> v == Some(default)
    ensures key in prefs && prefs[key].BoolPref? ==> v == Some(prefs[key].flag)
  {
    if key !in prefs then Some(default)
    else match prefs[key]
      case BoolPref(b) => Some(b)
      case _ => None
  }

  // ---------------------------------------------------------------------------
  // Reference definition of one broadcast
  // ---------------------------------------------------------------------------

  /** What handleToggle does after writing the new flag: schedule, or cancel and reset the widget. */
  function ToggleEffects(status: bool): seq<AlarmEffect> {
    if status then [ScheduleAlarm] else [CancelAlarm, UpdateWidget(None, false)]
  }

  /** handleToggle: negate the stored flag, then schedule, or cancel and reset the widget. */
  function ToggleReception(prefs: Prefs): (r: Reception)
    ensures r.threw <==> ReadBool(prefs, ActiveKey, false).None?
    ensures r.threw ==> r.prefs == prefs && r.effects == []
    ensures !r.threw ==> r.prefs == prefs[ActiveKey := BoolPref(!ReadBool(prefs, ActiveKey, false).value)]
    ensures !r.threw ==> (ScheduleAlarm in r.effects <==> ReadBool(prefs, ActiveKey, false) == Some(false))
    ensures !r.threw ==> (CancelAlarm in r.effects <==> ReadBool(prefs, ActiveKey, false) == Some(true))
  {
    match ReadBool(prefs, ActiveKey, false)
    case None => Reception(prefs, [], true)
    case Some(active) =>
      var status := !active;
      Reception(prefs[ActiveKey := BoolPref(status)], ToggleEffects(status), false)
  }

  /**
   * handleAlarm: start the alert service with the info, then record the
   * lecture start. Without a bundle, or with a value of another class, it
   * throws before doing anything; with no info it starts the alert service
   * and then throws when reading the lecture start.
   */
  function AlarmReception(extras: Extras, prefs: Prefs): (r: Reception)
    ensures !r.threw <==> extras.Bundle? && extras.entry.Info?
    ensures r.threw ==> r.prefs == prefs
    ensures AgreeExcept(r.prefs, prefs, {LastAlarmKey})
    ensures |r.effects| == (if extras.Bundle? && !extras.entry.Foreign? then 1 else 0)
  {
    match extras
    case NoBundle => Reception(prefs, [], true)
    case Bundle(Foreign) => Reception(prefs, [], true)
    case Bundle(Absent) => Reception(prefs, [StartAlertService(None)], true)
    case Bundle(Info(i)) => Reception(prefs[LastAlarmKey := SqlDate(i.lectureStart)], [StartAlertService(Some(i))], false)
  }

  /** handlePreAlarm: launch the recalculation task with whatever info the bundle holds. */
  function PreAlarmReception(extras: Extras, prefs: Prefs): (r: Reception)
    ensures r.prefs == prefs
    ensures r.threw <==> extras.NoBundle? || extras.entry.Foreign?
    ensures |r.effects| == (if r.threw then 0 else 1)
    ensures !r.threw ==> r.effects[0].LaunchRecalculation?
  {
    match extras
    case NoBundle => Reception(prefs, [], true)
    case Bundle(Foreign) => Reception(prefs, [], true)
    case Bundle(Absent) => Reception(prefs, [LaunchRecalculation(None)], false)
    case Bundle(Info(i)) => Reception(prefs, [LaunchRecalculation(Some(i))], false)
  }

  /** After a reboot or an update: schedule when the flag under bootKey is set. */
  function BootReception(prefs: Prefs, bootKey: string): (r: Reception)
    ensures r.prefs == prefs
    ensures r.threw <==> ReadBool(prefs, bootKey, false).None?
    ensures r.effects == (if ReadBool(prefs, bootKey, false) == Some(true) then [ScheduleAlarm] else [])
  {
    match ReadBool(prefs, bootKey, false)
    case None => Reception(prefs, [], true)
    case Some(active) => Reception(prefs, if active then [ScheduleAlarm] else [], false)
  }

  /**
   * onReceive: one broadcast. bootKey is the key the boot branch reads
   * (Const.SMART_ALARM_ACTIVE, whose value is not part of this model).
   */
  function Receive(intent: AlarmIntent, prefs: Prefs, bootKey: string): (r: Reception)
    ensures AgreeExcept(r.prefs, prefs, {ActiveKey, LastAlarmKey})
    ensures r.threw ==> r.prefs == prefs
    ensures intent.action.None? ==> r.threw && r.effects == []
    ensures intent.action == Some(Toggle) ==>
      forall e :: e in r.effects ==> e.ScheduleAlarm? || e.CancelAlarm? || e.UpdateWidget?
    ensures intent.action in {Some(Retry), Some(PackageReplaced), Some(BootCompleted)} ==>
      forall e :: e in r.effects ==> e == ScheduleAlarm
    ensures intent.action == Some(Alarm) ==> forall e :: e in r.effects ==> e.StartAlertService?
    ensures intent.action == Some(PreAlarm) ==> forall e :: e in r.effects ==> e.LaunchRecalculation?
    ensures intent.action == Some(OtherAction) ==> r == Reception(prefs, [], false)
  {
    match intent.action
    case None => Reception(prefs, [], true)
    case Some(action) =>
      match action
      case Alarm => AlarmReception(intent.extras, prefs)
      case PreAlarm => PreAlarmReception(intent.extras, prefs)
      case Retry => Reception(prefs, [ScheduleAlarm], false)
      case Toggle => ToggleReception(prefs)
      case PackageReplaced => BootReception(prefs, bootKey)
      case BootCompleted => BootReception(prefs, bootKey)
      case OtherAction => Reception(prefs, [], false)
  }

  // ---------------------------------------------------------------------------
  // What the handlers promise
  // ---------------------------------------------------------------------------

  /**
   * TOGGLE negates the stored flag and writes nothing else. A new flag of
   * true issues exactly one schedule and no cancel; false issues the cancel
   * and then the widget reset, and no schedule. A stored value that is not a
   * boolean makes it throw with nothing changed.
   */
  lemma ToggleNegatesAndSchedulesOrCancels(prefs: Prefs, bootKey: string)
    ensures var r := Receive(AlarmIntent(Some(Toggle), NoBundle), prefs, bootKey);
      match ReadBool(prefs, ActiveKey, false)
      case None => r == Reception(prefs, [], true)
      case Some(active) =>
        !r.threw
        && ReadBool(r.prefs, ActiveKey, false) == Some(!active)
        && AgreeExcept(r.prefs, prefs, {ActiveKey})
        && Occurrences(r.effects, ScheduleAlarm) == (if active then 0 else 1)
        && Occurrences(r.effects, CancelAlarm) == (if active then 1 else 0)
        && (active ==> r.effects == [CancelAlarm, UpdateWidget(None, false)])
        && (!active ==> r.effects == [ScheduleAlarm])
  {
    if ReadBool(prefs, ActiveKey, false).Some? {
      ToggleEffectsCounts(!ReadBool(prefs, ActiveKey, false).value);
    }
  }

  /**
   * Toggling twice restores the flag; when the key was stored, the preferences
   * are exactly as before, otherwise the key now holds false (the default
   * getBoolean read). The two toggles schedule once and cancel once.
   */
  lemma ToggleTwiceRestoresFlag(prefs: Prefs, bootKey: string)
    requires ReadBool(prefs, ActiveKey, false).Some?
    ensures var toggle := AlarmIntent(Some(Toggle), NoBundle);
      var r1 := Receive(toggle, prefs, bootKey);
      var r2 := Receive(toggle, r1.prefs, bootKey);
      !r1.threw && !r2.threw
      && ReadBool(r2.prefs, ActiveKey, false) == ReadBool(prefs, ActiveKey, false)
      && (ActiveKey in prefs ==> r2.prefs == prefs)
      && (ActiveKey !in prefs ==> r2.prefs == prefs[ActiveKey := BoolPref(false)])
      && Occurrences(r1.effects + r2.effects, ScheduleAlarm) == 1
      && Occurrences(r1.effects + r2.effects, CancelAlarm) == 1
  {
    var toggle := AlarmIntent(Some(Toggle), NoBundle);
    var r1 := Receive(toggle, prefs, bootKey);
    ToggleNegatesAndSchedulesOrCancels(prefs, bootKey);
    ToggleNegatesAndSchedulesOrCancels(r1.prefs, bootKey);
    var r2 := Receive(toggle, r1.prefs, bootKey);
    OccurrencesAppend(r1.effects, r2.effects, ScheduleAlarm);
    OccurrencesAppend(r1.effects, r2.effects, CancelAlarm);
    if ActiveKey in prefs {
      assert r2.prefs == prefs[ActiveKey := prefs[ActiveKey]];
    }
  }

  /**
   * BOOT_COMPLETED and PACKAGE_REPLACED schedule exactly once when the flag
   * under the boot key is set and do nothing when it is not; they never write
   * a preference. A value under the boot key that is not a boolean makes
   * getBoolean throw, with nothing scheduled.
   */
  lemma BootSchedulesIffActive(intent: AlarmIntent, prefs: Prefs, bootKey: string)
    requires intent.action == Some(BootCompleted) || intent.action == Some(PackageReplaced)
    ensures var r := Receive(intent, prefs, bootKey);
      r.prefs == prefs
      && match ReadBool(prefs, bootKey, false)
        case None => r.threw && r.effects == []
        case Some(active) =>
          !r.threw
          && Occurrences(r.effects, ScheduleAlarm) == (if active then 1 else 0)
          && |r.effects| == Occurrences(r.effects, ScheduleAlarm)
  {
  }

  /** RETRY schedules once, unconditionally, and writes nothing. */
  lemma RetrySchedules(intent: AlarmIntent, prefs: Prefs, bootKey: string)
    requires intent.action == Some(Retry)
    ensures var r := Receive(intent, prefs, bootKey);
      r.prefs == prefs && !r.threw && r.effects == [ScheduleAlarm]
  {
  }

  /**
   * ALARM with an info starts the alert service with that info and records
   * its lecture start under smart_alarm_last, changing no other key. Without
   * an info it throws and writes nothing; the alert service is started (with
   * no info) only when the bundle exists and holds nothing under INFO.
   */
  lemma AlarmRecordsLectureStart(intent: AlarmIntent, prefs: Prefs, bootKey: string)
    requires intent.action == Some(Alarm)
    ensures var r := Receive(intent, prefs, bootKey);
      match intent.extras
      case Bundle(Info(i)) =>
        !r.threw && r.effects == [StartAlertService(Some(i))]
        && LastAlarmKey in r.prefs && r.prefs[LastAlarmKey] == SqlDate(i.lectureStart)
        && AgreeExcept(r.prefs, prefs, {LastAlarmKey})
      case Bundle(Absent) => r.threw && r.prefs == prefs && r.effects == [StartAlertService(None)]
      case _ => r.threw && r.prefs == prefs && r.effects == []
  {
  }

  /**
   * PREALARM launches exactly one recalculation task carrying whatever info
   * the bundle holds and writes nothing; without a bundle, or with a value of
   * another class, it throws first.
   */
  lemma PreAlarmLaunchesOneRecalculation(intent: AlarmIntent, prefs: Prefs, bootKey: string)
    requires intent.action == Some(PreAlarm)
    ensures var r := Receive(intent, prefs, bootKey);
      r.prefs == prefs
      && (r.threw <==> intent.extras.NoBundle? || intent.extras.entry.Foreign?)
      && (r.threw ==> r.effects == [])
      && (intent.extras == Bundle(Absent) ==> r.effects == [LaunchRecalculation(None)])
      && (forall i :: intent.extras == Bundle(Info(i)) ==> r.effects == [LaunchRecalculation(Some(i))])
  {
  }

  /** An action onReceive does not handle changes nothing; a null action throws with nothing done. */
  lemma UnhandledActionDoesNothing(intent: AlarmIntent, prefs: Prefs, bootKey: string)
    requires intent.action.None? || intent.action == Some(OtherAction)
    ensures var r := Receive(intent, prefs, bootKey);
      r.prefs == prefs && r.effects == [] && (r.threw <==> intent.action.None?)
  {
  }

  /**
   * Only TOGGLE and ALARM write preferences, TOGGLE only smart_alarm_active
   * and ALARM only smart_alarm_last.
   */
  lemma WritesOnlyItsOwnKey(intent: AlarmIntent, prefs: Prefs, bootKey: string)
    ensures var r := Receive(intent, prefs, bootKey);
      (intent.action != Some(Toggle) && intent.action != Some(Alarm) ==> r.prefs == prefs)
      && (intent.action == Some(Toggle) ==> AgreeExcept(r.prefs, prefs, {ActiveKey}))
      && (intent.action == Some(Alarm) ==> AgreeExcept(r.prefs, prefs, {LastAlarmKey}))
  {
  }

  // ---------------------------------------------------------------------------
  // Successive broadcasts
  // ---------------------------------------------------------------------------

  /**
   * The broadcasts handled one after the other, each by a fresh receiver on
   * the preferences the previous one left: the final preferences, all
   * effects in order, and whether any of them threw.
   */
  function ReceiveAll(intents: seq<AlarmIntent>, prefs: Prefs, bootKey: string): Reception {
    if intents == [] then Reception(prefs, [], false)
    else
      var r := Receive(intents[0], prefs, bootKey);
      var rest := ReceiveAll(intents[1..], r.prefs, bootKey);
      Reception(rest.prefs, r.effects + rest.effects, r.threw || rest.threw)
  }

  /**
   * The effects of n toggles starting from the stored flag active, written
   * toggle by toggle: toggle i (counting from 0) sets the flag to true exactly
   * when i is even and active is false, or i is odd and active is true.
   */
  function AlternatingToggleLog(active: bool, n: nat): seq<AlarmEffect> {
    if n == 0 then [] else AlternatingToggleLog(active, n - 1) + ToggleEffects(active != ((n - 1) % 2 == 0))
  }

  /** The first of n + 1 toggles negates the flag; the n after it start from the negation. */
  lemma {:induction false} AlternatingToggleLogFirst(active: bool, n: nat)
    ensures AlternatingToggleLog(active, n + 1) == ToggleEffects(!active) + AlternatingToggleLog(!active, n)
  {
    if n > 0 {
      AlternatingToggleLogFirst(active, n - 1);
      assert (active != (n % 2 == 0)) == (!active != ((n - 1) % 2 == 0));
    }
  }

  /**
   * After n toggles the flag is the original one when n is even and its
   * negation when n is odd; the toggles that switched the alarm on scheduled
   * it and those that switched it off cancelled it, alternately.
   */
  lemma ActiveFlagFollowsToggleParity(intents: seq<AlarmIntent>, prefs: Prefs, bootKey: string, active: bool)
    requires forall i :: 0 <= i < |intents| ==> intents[i].action == Some(Toggle)
    requires ReadBool(prefs, ActiveKey, false) == Some(active)
    ensures var r := ReceiveAll(intents, prefs, bootKey);
      !r.threw
      && ReadBool(r.prefs, ActiveKey, false) == Some(if |intents| % 2 == 0 then active else !active)
      && r.effects == AlternatingToggleLog(active, |intents|)
      && Occurrences(r.effects, ScheduleAlarm) == (if active then |intents| / 2 else (|intents| + 1) / 2)
      && Occurrences(r.effects, CancelAlarm) == (if active then (|intents| + 1) / 2 else |intents| / 2)
  {
    TogglesFollowAlternatingLog(intents, prefs, bootKey, active);
    AlternatingToggleLogCounts(active, |intents|);
  }

  /** The toggles one after the other: the flag's parity and the effects, toggle by toggle. */
  lemma {:induction false} TogglesFollowAlternatingLog(intents: seq<AlarmIntent>, prefs: Prefs, bootKey: string, active: bool)
    requires forall i :: 0 <= i < |intents| ==> intents[i].action == Some(Toggle)
    requires ReadBool(prefs, ActiveKey, false) == Some(active)
    ensures var r := ReceiveAll(intents, prefs, bootKey);
      !r.threw
      && ReadBool(r.prefs, ActiveKey, false) == Some(if |intents| % 2 == 0 then active else !active)
      && r.effects == AlternatingToggleLog(active, |intents|)
  {
    if intents != [] {
      assert intents[0].action == Some(Toggle);
      var first := Receive(intents[0], prefs, bootKey);
      assert first == ToggleReception(prefs);
      assert ReadBool(first.prefs, ActiveKey, false) == Some(!active);
      TogglesFollowAlternatingLog(intents[1..], first.prefs, bootKey, !active);
      AlternatingToggleLogFirst(active, |intents| - 1);
    }
  }

  /** A toggle's effects schedule exactly when the new flag is true and cancel exactly when it is false. */
  lemma ToggleEffectsCounts(status: bool)
    ensures Occurrences(ToggleEffects(status), ScheduleAlarm) == (if status then 1 else 0)
    ensures Occurrences(ToggleEffects(status), CancelAlarm) == (if status then 0 else 1)
  {
    if status {
      OccurrencesSingle(ScheduleAlarm, ScheduleAlarm);
      OccurrencesSingle(ScheduleAlarm, CancelAlarm);
    } else {
      assert ToggleEffects(status) == [CancelAlarm] + [UpdateWidget(None, false)];
      OccurrencesAppend([CancelAlarm], [UpdateWidget(None, false)], ScheduleAlarm);
      OccurrencesAppend([CancelAlarm], [UpdateWidget(None, false)], CancelAlarm);
      OccurrencesSingle(CancelAlarm, ScheduleAlarm);
      OccurrencesSingle(CancelAlarm, CancelAlarm);
      OccurrencesSingle(UpdateWidget(None, false), ScheduleAlarm);
      OccurrencesSingle(UpdateWidget(None, false), CancelAlarm);
    }
  }

  /** In n alternating toggles the schedules and cancels split as evenly as n allows, the first toggle deciding the extra one. */
  lemma {:induction false} AlternatingToggleLogCounts(active: bool, n: nat)
    ensures Occurrences(AlternatingToggleLog(active, n), ScheduleAlarm) == (if active then n / 2 else (n + 1) / 2)
    ensures Occurrences(AlternatingToggleLog(active, n), CancelAlarm) == (if active then (n + 1) / 2 else n / 2)
  {
    if n > 0 {
      AlternatingToggleLogCounts(active, n - 1);
      var status := active != ((n - 1) % 2 == 0);
      OccurrencesAppend(AlternatingToggleLog(active, n - 1), ToggleEffects(status), ScheduleAlarm);
      OccurrencesAppend(AlternatingToggleLog(active, n - 1), ToggleEffects(status), CancelAlarm);
      ToggleEffectsCounts(status);
    }
  }

  /**
   * When the boot branch reads the key the toggle writes, a reboot after a
   * toggle schedules exactly when that toggle switched the alarm on.
   */
  lemma BootAfterToggleSameKey(prefs: Prefs, boot: AlarmIntent)
    requires boot.action == Some(BootCompleted) || boot.action == Some(PackageReplaced)
    requires ReadBool(prefs, ActiveKey, false).Some?
    ensures var r1 := Receive(AlarmIntent(Some(Toggle), NoBundle), prefs, ActiveKey);
      var r2 := Receive(boot, r1.prefs, ActiveKey);
      !r2.threw && r2.prefs == r1.prefs
      && (Occurrences(r2.effects, ScheduleAlarm) == 1 <==> Occurrences(r1.effects, ScheduleAlarm) == 1)
  {
    var r1 := Receive(AlarmIntent(Some(Toggle), NoBundle), prefs, ActiveKey);
    ToggleNegatesAndSchedulesOrCancels(prefs, ActiveKey);
    BootSchedulesIffActive(boot, r1.prefs, ActiveKey);
  }

  /**
   * When the boot branch reads a key other than the one the toggle writes, a
   * toggle does not change what a later reboot does.
   */
  lemma BootIgnoresToggleOtherKey(prefs: Prefs, boot: AlarmIntent, bootKey: string)
    requires boot.action == Some(BootCompleted) || boot.action == Some(PackageReplaced)
    requires bootKey != ActiveKey
    ensures var r1 := Receive(AlarmIntent(Some(Toggle), NoBundle), prefs, bootKey);
      Receive(boot, r1.prefs, bootKey).effects == Receive(boot, prefs, bootKey).effects
      && Receive(boot, r1.prefs, bootKey).threw == Receive(boot, prefs, bootKey).threw
  {
  }

  // ---------------------------------------------------------------------------
  // The receiver
  // ---------------------------------------------------------------------------

  class SmartAlarmReceiver {
    /** The default SharedPreferences. */
    var prefs: Prefs
    /** Everything the receiver has done to the outside world, oldest first. */
    var effects: seq<AlarmEffect>
    /** The key the boot branch reads (Const.SMART_ALARM_ACTIVE). */
    const bootFlagKey: string

    constructor (stored: Prefs, bootKey: string)
      ensures prefs == stored && effects == [] && bootFlagKey == bootKey
    {
      prefs := stored;
      effects := [];
      bootFlagKey := bootKey;
    }

    /** onReceive: dispatch on the action; threw is true when an exception escapes. */
    method OnReceive(intent: AlarmIntent) returns (threw: bool)
      modifies this`prefs, this`effects
      ensures var r := Receive(intent, old(prefs), bootFlagKey);
        prefs == r.prefs && effects == old(effects) + r.effects && threw == r.threw
    {
      if intent.action.None? {
        // switch on a null string
        return true;
      }
      match intent.action.value
      case Alarm =>
        threw := HandleAlarm(intent);
      case PreAlarm =>
        threw := HandlePreAlarm(intent);
      case Retry =>
        effects := effects + [ScheduleAlarm];
        threw := false;
      case Toggle =>
        threw := HandleToggle();
      case PackageReplaced =>
        threw := RestartIfActive();
      case BootCompleted =>
        threw := RestartIfActive();
      case OtherAction =>
        threw := false;
    }

    /** The reboot / update branch: schedule when the flag under the boot key is set. */
    method RestartIfActive() returns (threw: bool)
      modifies this`effects
      ensures var r := BootReception(prefs, bootFlagKey);
        effects == old(effects) + r.effects && threw == r.threw
    {
      var active := ReadBool(prefs, bootFlagKey, false);
      if active.None? {
        return true;
      }
      if active.value {
        effects := effects + [ScheduleAlarm];
      }
      threw := false;
    }

    /** handlePreAlarm: hand the info to a new recalculation task. */
    method HandlePreAlarm(intent: AlarmIntent) returns (threw: bool)
      modifies this`effects
      ensures var r := PreAlarmReception(intent.extras, prefs);
        effects == old(effects) + r.effects && threw == r.threw
    {
      if intent.extras.NoBundle? || intent.extras.entry.Foreign? {
        // getExtras() was null, or the cast to SmartAlarmInfo failed
        return true;
      }
      var sai := if intent.extras.entry.Info? then Some(intent.extras.entry.info) else None;
      effects := effects + [LaunchRecalculation(sai)];
      threw := false;
    }

    /** handleAlarm: start the alert service, then record the lecture start. */
    method HandleAlarm(intent: AlarmIntent) returns (threw: bool)
      modifies this`prefs, this`effects
      ensures var r := AlarmReception(intent.extras, old(prefs));
        prefs == r.prefs && effects == old(effects) + r.effects && threw == r.threw
    {
      if intent.extras.NoBundle? || intent.extras.entry.Foreign? {
        return true;
      }
      var sai := if intent.extras.entry.Info? then Some(intent.extras.entry.info) else None;
      effects := effects + [StartAlertService(sai)];
      if sai.None? {
        // sai.getLectureStart() on null
        return true;
      }
      prefs := prefs[LastAlarmKey := SqlDate(sai.value.lectureStart)];
      threw := false;
    }

    /** handleToggle: negate the stored flag, then schedule, or cancel and reset the widget. */
    method HandleToggle() returns (threw: bool)
      modifies this`prefs, this`effects
      ensures var r := ToggleReception(old(prefs));
        prefs == r.prefs && effects == old(effects) + r.effects && threw == r.threw
    {
      var stored := ReadBool(prefs, ActiveKey, false);
      if stored.None? {
        // getBoolean on a value that is not a boolean
        return true;
      }
      var status := !stored.value;
      prefs := prefs[ActiveKey := BoolPref(status)];
      if status {
        effects := effects + [ScheduleAlarm];
      } else {
        effects := effects + [CancelAlarm];
        effects := effects + [UpdateWidget(None, false)];
      }
      threw := false;
    }
  }
}
