/**
 * The safety context: the settings record, the incident log, the emergency
 * flag, and the schedule check that keeps monitoring in step with the
 * configured nightly window.
 */
module SafetyContext {
  import opened Wrappers
  import opened TimeOfDay

  // ---------------------------------------------------------------------------
  // Data model

  datatype Sensitivity = Low | Medium | High

  /** The monitoring window; `start` and `end` are meant to be "HH:MM" strings. */
  datatype Schedule = Schedule(enabled: bool, start: string, end: string)

  datatype SosContact = SosContact(id: string, name: string, phone: string, email: string)

  datatype SafetySettings = SafetySettings(
    isMonitoring: bool,
    sensitivity: Sensitivity,
    vibrationEnabled: bool,
    silentMode: bool,
    schedule: Schedule,
    sosContacts: seq<SosContact>)

  datatype LogKind = Sound | Vibration | Sos

  /** One recorded incident; `level` is the decibel or intensity reading, if any. */
  datatype IncidentLog = IncidentLog(id: string, kind: LogKind, timestamp: int, details: string, level: Option<real>)

  /** What a caller hands to `addLog`: an incident without its id and timestamp. */
  datatype NewIncident = NewIncident(kind: LogKind, details: string, level: Option<real>)

  /** The settings the provider starts with. */
  const DefaultSettings := SafetySettings(
    isMonitoring := false,
    sensitivity := Medium,
    vibrationEnabled := false,
    silentMode := false,
    schedule := Schedule(false, "22:00", "06:00"),
    sosContacts := [])

  // ---------------------------------------------------------------------------
  // Partial updates of the settings

  /** A partial settings object: each field is either given or absent. */
  datatype SettingsPatch = SettingsPatch(
    isMonitoring: Option<bool>,
    sensitivity: Option<Sensitivity>,
    vibrationEnabled: Option<bool>,
    silentMode: Option<bool>,
    schedule: Option<Schedule>,
    sosContacts: Option<seq<SosContact>>)

  const EmptyPatch := SettingsPatch(None, None, None, None, None, None)

  /** The names of the settings fields. */
  datatype Field = IsMonitoringField | SensitivityField | VibrationEnabledField
                 | SilentModeField | ScheduleField | SosContactsField

  /** The fields a patch gives. */
  function Present(p: SettingsPatch): set<Field>
  {
    (if p.isMonitoring.Some? then {IsMonitoringField} else {})
    + (if p.sensitivity.Some? then {SensitivityField} else {})
    + (if p.vibrationEnabled.Some? then {VibrationEnabledField} else {})
    + (if p.silentMode.Some? then {SilentModeField} else {})
    + (if p.schedule.Some? then {ScheduleField} else {})
    + (if p.sosContacts.Some? then {SosContactsField} else {})
  }

  /** The fields in which two settings records differ. */
  function Differing(s: SafetySettings, t: SafetySettings): set<Field>
  {
    (if s.isMonitoring != t.isMonitoring then {IsMonitoringField} else {})
    + (if s.sensitivity != t.sensitivity then {SensitivityField} else {})
    + (if s.vibrationEnabled != t.vibrationEnabled then {VibrationEnabledField} else {})
    + (if s.silentMode != t.silentMode then {SilentModeField} else {})
    + (if s.schedule != t.schedule then {ScheduleField} else {})
    + (if s.sosContacts != t.sosContacts then {SosContactsField} else {})
  }

  /** Records that differ in no field are equal. */
  lemma NoDifferenceIsEquality(s: SafetySettings, t: SafetySettings)
    ensures Differing(s, t) == {} <==> s == t
  {
    if Differing(s, t) == {} {
      assert IsMonitoringField !in Differing(s, t) && SensitivityField !in Differing(s, t);
      assert VibrationEnabledField !in Differing(s, t) && SilentModeField !in Differing(s, t);
      assert ScheduleField !in Differing(s, t) && SosContactsField !in Differing(s, t);
    }
  }

  /**
   * `{ ...prev, ...patch }`: the shallow merge performed by `updateSettings`.
   * A given field replaces the previous one whole (a given schedule replaces
   * the whole schedule object); an absent field is kept.
   */
  function Merge(prev: SafetySettings, p: SettingsPatch): (r: SafetySettings)
    ensures p.isMonitoring.Some? ==> r.isMonitoring == p.isMonitoring.value
    ensures p.sensitivity.Some? ==> r.sensitivity == p.sensitivity.value
    ensures p.vibrationEnabled.Some? ==> r.vibrationEnabled == p.vibrationEnabled.value
    ensures p.silentMode.Some? ==> r.silentMode == p.silentMode.value
    ensures p.schedule.Some? ==> r.schedule == p.schedule.value
    ensures p.sosContacts.Some? ==> r.sosContacts == p.sosContacts.value
    ensures Differing(prev, r) <= Present(p)
  {
    SafetySettings(
      p.isMonitoring.GetOr(prev.isMonitoring),
      p.sensitivity.GetOr(prev.sensitivity),
      p.vibrationEnabled.GetOr(prev.vibrationEnabled),
      p.silentMode.GetOr(prev.silentMode),
      p.schedule.GetOr(prev.schedule),
      p.sosContacts.GetOr(prev.sosContacts))
  }

  /** The patch that gives exactly the fields in which `t` differs from `s`, with `t`'s values. */
  function Diff(s: SafetySettings, t: SafetySettings): SettingsPatch
  {
    SettingsPatch(
      if s.isMonitoring != t.isMonitoring then Some(t.isMonitoring) else None,
      if s.sensitivity != t.sensitivity then Some(t.sensitivity) else None,
      if s.vibrationEnabled != t.vibrationEnabled then Some(t.vibrationEnabled) else None,
      if s.silentMode != t.silentMode then Some(t.silentMode) else None,
      if s.schedule != t.schedule then Some(t.schedule) else None,
      if s.sosContacts != t.sosContacts then Some(t.sosContacts) else None)
  }

  /**
   * Every change of the settings is one `updateSettings` call away, with a patch
   * that gives exactly the fields that change.
   */
  lemma DiffReachesTarget(s: SafetySettings, t: SafetySettings)
    ensures Merge(s, Diff(s, t)) == t
    ensures Present(Diff(s, t)) == Differing(s, t)
  {
  }

  /** An update with no field given leaves the settings as they are. */
  lemma MergeEmpty(s: SafetySettings)
    ensures Merge(s, EmptyPatch) == s
  {
  }

  /** `{ ...p, ...q }`: the later patch wins on the fields both give. */
  function Overlay(p: SettingsPatch, q: SettingsPatch): SettingsPatch
  {
    SettingsPatch(
      if q.isMonitoring.Some? then q.isMonitoring else p.isMonitoring,
      if q.sensitivity.Some? then q.sensitivity else p.sensitivity,
      if q.vibrationEnabled.Some? then q.vibrationEnabled else p.vibrationEnabled,
      if q.silentMode.Some? then q.silentMode else p.silentMode,
      if q.schedule.Some? then q.schedule else p.schedule,
      if q.sosContacts.Some? then q.sosContacts else p.sosContacts)
  }

  /**
   * Two successive updates (each applied to the result of the previous one)
   * equal one update with the overlaid patch; in particular repeating an
   * update changes nothing more.
   */
  lemma MergeTwice(s: SafetySettings, p: SettingsPatch, q: SettingsPatch)
    ensures Merge(Merge(s, p), q) == Merge(s, Overlay(p, q))
    ensures Merge(Merge(s, p), p) == Merge(s, p)
  {
  }

  // ---------------------------------------------------------------------------
  // The incident log

  /** The entry `addLog` builds: the caller's fields plus the generated id and timestamp. */
  function Stamp(incident: NewIncident, id: string, timestamp: int): (e: IncidentLog)
    ensures e.kind == incident.kind && e.details == incident.details && e.level == incident.level
    ensures e.id == id && e.timestamp == timestamp
  {
    IncidentLog(id, incident.kind, timestamp, incident.details, incident.level)
  }

  /** `[newLog, ...prev]`: the newest entry goes first. */
  function Prepend(logs: seq<IncidentLog>, entry: IncidentLog): seq<IncidentLog>
  {
    [entry] + logs
  }

  /**
   * Adding an entry grows the log by exactly one, puts the entry at index 0
   * and keeps every previous entry, in order, after it.
   */
  lemma PrependShape(logs: seq<IncidentLog>, entry: IncidentLog)
    ensures |Prepend(logs, entry)| == |logs| + 1
    ensures Prepend(logs, entry)[0] == entry
    ensures forall i :: 0 <= i < |logs| ==> Prepend(logs, entry)[i + 1] == logs[i]
  {
  }

  /** The log after adding `entries` one by one, in the order of the calls. */
  function AddAll(logs: seq<IncidentLog>, entries: seq<IncidentLog>): seq<IncidentLog>
    decreases |entries|
  {
    if entries == [] then logs else AddAll(Prepend(logs, entries[0]), entries[1..])
  }

  function Reverse<T>(s: seq<T>): (r: seq<T>)
    ensures |r| == |s|
    ensures forall i :: 0 <= i < |s| ==> r[i] == s[|s| - 1 - i]
  {
    if s == [] then [] else Reverse(s[1..]) + [s[0]]
  }

  /** After a series of additions the log lists them newest first, above the older entries. */
  lemma {:induction false} AddAllNewestFirst(logs: seq<IncidentLog>, entries: seq<IncidentLog>)
    ensures AddAll(logs, entries) == Reverse(entries) + logs
    decreases |entries|
  {
    if entries != [] {
      AddAllNewestFirst(Prepend(logs, entries[0]), entries[1..]);
      assert Reverse(entries) == Reverse(entries[1..]) + [entries[0]];
    }
  }

  /** Timestamps never increase from one index of the log to the next. */
  predicate NewestFirst(logs: seq<IncidentLog>)
  {
    forall i, j :: 0 <= i < j < |logs| ==> logs[i].timestamp >= logs[j].timestamp
  }

  /**
   * When each entry is stamped no earlier than the newest entry already in the
   * log (a clock that does not go back), the log stays ordered newest first.
   */
  lemma PrependKeepsNewestFirst(logs: seq<IncidentLog>, entry: IncidentLog)
    requires NewestFirst(logs)
    requires logs != [] ==> entry.timestamp >= logs[0].timestamp
    ensures NewestFirst(Prepend(logs, entry))
  {
    var r := Prepend(logs, entry);
    forall i, j | 0 <= i < j < |r| ensures r[i].timestamp >= r[j].timestamp {
      if i == 0 && j > 1 {
        assert r[j] == logs[j - 1] && r[1] == logs[0];
      }
    }
  }

  // ---------------------------------------------------------------------------
  // The schedule check

  /**
   * One run of the schedule check at the rendered time `now`: nothing happens
   * while the schedule is disabled; otherwise `isMonitoring` is written when,
   * and only when, it disagrees with the window.
   */
  function Reconcile(s: SafetySettings, now: string): SafetySettings
  {
    if !s.schedule.enabled then s
    else
      var active := InWindow(now, s.schedule.start, s.schedule.end);
      if active && !s.isMonitoring then s.(isMonitoring := true)
      else if !active && s.isMonitoring then s.(isMonitoring := false)
      else s
  }

  /**
   * With the schedule enabled, after a check monitoring is on exactly when the
   * time lies in the window, and no other field has changed; with the schedule
   * disabled the settings, the manual monitoring choice included, are untouched.
   */
  lemma ReconcileMatchesWindow(s: SafetySettings, now: string)
    ensures s.schedule.enabled ==> Reconcile(s, now).isMonitoring == InWindow(now, s.schedule.start, s.schedule.end)
    ensures Differing(s, Reconcile(s, now)) <= {IsMonitoringField}
    ensures !s.schedule.enabled ==> Reconcile(s, now) == s
  {
  }

  /** A second check at the same minute finds nothing to write. */
  lemma ReconcileIdempotent(s: SafetySettings, now: string)
    ensures Reconcile(Reconcile(s, now), now) == Reconcile(s, now)
  {
  }

  /**
   * With the schedule enabled, switching monitoring by hand is undone by the
   * check that the change itself sets off: the outcome is the same as if the
   * switch had not been pressed.
   */
  lemma ManualSwitchOverridden(s: SafetySettings, now: string, on: bool)
    requires s.schedule.enabled
    ensures Reconcile(Merge(s, EmptyPatch.(isMonitoring := Some(on))), now) == Reconcile(s, now)
  {
  }

  /**
   * Whether an update from `prev` to `next` changed an input the schedule
   * effect depends on: the schedule's `enabled`, `start` and `end`, and
   * `isMonitoring`. Such an update restarts the effect, which checks the
   * schedule at once.
   */
  predicate ScheduleInputsChanged(prev: SafetySettings, next: SafetySettings)
  {
    || prev.schedule.enabled != next.schedule.enabled
    || prev.schedule.start != next.schedule.start
    || prev.schedule.end != next.schedule.end
    || prev.isMonitoring != next.isMonitoring
  }

  /**
   * The settings once an update from `prev` to `next` has been made and the
   * schedule check it sets off has run at `now`.
   */
  function Settle(prev: SafetySettings, next: SafetySettings, now: string): SafetySettings
  {
    if ScheduleInputsChanged(prev, next) then Reconcile(next, now) else next
  }

  /**
   * An update that leaves the effect's inputs alone is final; one that changes
   * them is followed by a check that, with the schedule enabled, sets
   * monitoring to the window result and touches nothing else. A write made by
   * that check restarts the effect once more, and that run writes nothing, so
   * the chain of re-runs ends.
   */
  lemma SettleLaws(prev: SafetySettings, next: SafetySettings, now: string)
    ensures !ScheduleInputsChanged(prev, next) ==> Settle(prev, next, now) == next
    ensures ScheduleInputsChanged(prev, next) && next.schedule.enabled ==>
      Settle(prev, next, now).isMonitoring == InWindow(now, next.schedule.start, next.schedule.end)
    ensures !next.schedule.enabled ==> Settle(prev, next, now) == next
    ensures Differing(next, Settle(prev, next, now)) <= {IsMonitoringField}
    ensures var r := Settle(prev, next, now);
      ScheduleInputsChanged(next, r) ==> Reconcile(r, now) == r
  {
    ReconcileMatchesWindow(next, now);
    ReconcileIdempotent(next, now);
  }

  /**
   * With the schedule enabled and a well-formed window, the check run at clock
   * reading `hours`:`minutes` turns monitoring on exactly in the window of the
   * day that opens at `start` and lasts until `end`.
   */
  lemma ReconcileAtClock(s: SafetySettings, hours: nat, minutes: nat)
    requires hours < 24 && minutes < 60
    requires s.schedule.enabled && WellFormed(s.schedule.start) && WellFormed(s.schedule.end)
    ensures Reconcile(s, ClockString(hours, minutes)).isMonitoring
        <==> ActiveAt(60 * hours + minutes, MinuteOfDay(s.schedule.start), MinuteOfDay(s.schedule.end))
  {
    var now := ClockString(hours, minutes);
    ReconcileMatchesWindow(s, now);
    ClockStringWellFormed(hours, minutes);
    InWindowIsActiveAt(now, s.schedule.start, s.schedule.end);
  }

  /**
   * The default window runs from 22:00 over midnight to 06:00: its bounds are
   * well formed, it covers 23:30 and 02:00 and not noon.
   */
  lemma DefaultWindow()
    ensures WellFormed(DefaultSettings.schedule.start) && WellFormed(DefaultSettings.schedule.end)
    ensures MinuteOfDay(DefaultSettings.schedule.end) < MinuteOfDay(DefaultSettings.schedule.start)
    ensures InWindow("23:30", DefaultSettings.schedule.start, DefaultSettings.schedule.end)
    ensures InWindow("02:00", DefaultSettings.schedule.start, DefaultSettings.schedule.end)
    ensures !InWindow("12:00", DefaultSettings.schedule.start, DefaultSettings.schedule.end)
  {
    assert WellFormed("22:00") && WellFormed("06:00");
    OvernightWindowExample();
  }

  // ---------------------------------------------------------------------------
  // The provider's state

  /** The mutable cells the provider owns, and the setters it hands out. */
  class SafetyProvider {
    var settings: SafetySettings
    var logs: seq<IncidentLog>
    var isEmergencyActive: bool

    constructor ()
      ensures settings == DefaultSettings
      ensures logs == [] && !isEmergencyActive
    {
      settings := DefaultSettings;
      logs := [];
      isEmergencyActive := false;
    }

    /**
     * `updateSettings`: merges the given fields into the settings. When that
     * changes an input of the schedule effect, the effect restarts and checks
     * the schedule at the clock reading `hours`:`minutes`.
     */
    method UpdateSettings(p: SettingsPatch, hours: nat, minutes: nat)
      requires hours < 24 && minutes < 60
      modifies this`settings
      ensures settings == Settle(old(settings), Merge(old(settings), p), ClockString(hours, minutes))
    {
      var prev := settings;
      settings := Merge(settings, p);
      if ScheduleInputsChanged(prev, settings) {
        CheckSchedule(hours, minutes);
      }
    }

    /**
     * `addLog`: stamps the incident with an id and a timestamp, both supplied
     * by the caller here (they come from a random generator and the clock),
     * and puts it first.
     */
    method AddLog(incident: NewIncident, id: string, timestamp: int)
      modifies this`logs
      ensures logs == Prepend(old(logs), Stamp(incident, id, timestamp))
    {
      var entry := IncidentLog(id, incident.kind, timestamp, incident.details, incident.level);
      logs := [entry] + logs;
    }

    /** `setEmergencyActive`. */
    method SetEmergencyActive(active: bool)
      modifies this`isEmergencyActive
      ensures isEmergencyActive == active
    {
      isEmergencyActive := active;
    }

    /**
     * `checkSchedule` at the clock reading `hours`:`minutes`: one firing of the
     * once-a-minute interval, or the check the effect makes when it restarts
     * (which `UpdateSettings` performs).
     */
    method CheckSchedule(hours: nat, minutes: nat)
      requires hours < 24 && minutes < 60
      modifies this`settings
      ensures settings == Reconcile(old(settings), ClockString(hours, minutes))
    {
      if !settings.schedule.enabled {
        return;
      }
      var currentTime := TwoDigits(hours) + ":" + TwoDigits(minutes);
      var start, end := settings.schedule.start, settings.schedule.end;
      var isActive := false;
      if LexLess(start, end) {
        isActive := !LexLess(currentTime, start) && LexLess(currentTime, end);
      } else {
        isActive := !LexLess(currentTime, start) || LexLess(currentTime, end);
      }
      if isActive && !settings.isMonitoring {
        settings := settings.(isMonitoring := true);
      } else if !isActive && settings.isMonitoring {
        settings := settings.(isMonitoring := false);
      }
    }
  }
}
