/**
 * The dashboard's share of the emergency engine: the ten-second countdown
 * that runs while an emergency is active, the "I'm Safe" and "Send SOS Now"
 * buttons, the settings switches and the schedule picker.
 *
 * The countdown is specified by a step function over `Panel` (the emergency
 * flag, the countdown and whether a one-second interval is pending); the
 * `Dashboard` class performs the same steps on the provider's and its own
 * fields and is proved to agree with it.
 */
module DashboardScreen {
  import opened Wrappers
  import opened TimeOfDay
  import opened SafetyContext
  import opened SosLogic

  /** The number of seconds the countdown starts from. */
  const CountdownStart := 10

  // ---------------------------------------------------------------------------
  // The countdown, as a step function

  /**
   * `active` is the provider's emergency flag, `countdown` the seconds left and
   * `timerArmed` whether the effect has a one-second interval pending.
   */
  datatype Panel = Panel(active: bool, countdown: int, timerArmed: bool)

  /** The panel with no emergency. */
  const Idle := Panel(false, CountdownStart, false)

  /**
   * What can happen to the panel: an emergency raised from outside (the
   * detection hooks set the flag), a one-second tick of the interval, and the
   * two buttons of the emergency overlay. `SendNow` carries the outcome of
   * `getLocation` (`None` when it rejected) and whether `triggerSOS` threw.
   */
  datatype PanelEvent = Raise | Tick | ImSafe | SendNow(location: Option<Location>, dispatchThrows: bool)

  /**
   * One run of the countdown effect, after its cleanup has cleared the pending
   * interval: it arms the interval while seconds remain, dispatches and stands
   * down at zero, and resets the countdown whenever there is no emergency.
   */
  function Effect(p: Panel, contacts: seq<SosContact>): (Panel, seq<SosCall>)
  {
    if p.active && p.countdown > 0 then (p.(timerArmed := true), [])
    else if p.active && p.countdown == 0 then (Idle, [SosCall(contacts, None)])
    else if !p.active then (p.(countdown := CountdownStart, timerArmed := false), [])
    else (p.(timerArmed := false), [])
  }

  /** The new panel and the dispatches made when `e` happens to `p`. */
  function Step(p: Panel, e: PanelEvent, contacts: seq<SosContact>): (Panel, seq<SosCall>)
  {
    match e
    case Raise => if p.active then (p, []) else Effect(p.(active := true), contacts)
    case Tick => if p.timerArmed then Effect(p.(countdown := p.countdown - 1), contacts) else (p, [])
    case ImSafe => Effect(p.(active := false), contacts)
    case SendNow(location, dispatchThrows) =>
      if dispatchThrows then (p, [SosCall(contacts, location)])
      else
        var after := Effect(p.(active := false), contacts);
        (after.0, [SosCall(contacts, location)] + after.1)
  }

  /**
   * The panel between events: the countdown lies in [1, 10] and an interval is
   * pending while an emergency is active; without one the countdown is 10 and
   * nothing is pending.
   */
  predicate Settled(p: Panel)
  {
    && 0 <= p.countdown <= CountdownStart
    && (p.active ==> 1 <= p.countdown && p.timerArmed)
    && (!p.active ==> p.countdown == CountdownStart && !p.timerArmed)
  }

  /**
   * The state changes an effect run makes do not call for another: running the
   * effect again on its own outcome changes nothing and dispatches nothing. So
   * one run per event is the whole reaction.
   */
  lemma EffectIsFixpoint(p: Panel, contacts: seq<SosContact>)
    requires 0 <= p.countdown <= CountdownStart
    ensures Effect(Effect(p, contacts).0, contacts) == (Effect(p, contacts).0, [])
    ensures Settled(Effect(p, contacts).0)
  {
  }

  /** Every event takes a settled panel to a settled panel; the countdown never leaves [0, 10]. */
  lemma StepKeepsSettled(p: Panel, e: PanelEvent, contacts: seq<SosContact>)
    requires Settled(p)
    ensures Settled(Step(p, e, contacts).0)
  {
  }

  /**
   * Raising an emergency from rest starts the countdown at 10 with the interval
   * pending; raising it again while one is active changes nothing.
   */
  lemma RaiseStartsCountdown(p: Panel, contacts: seq<SosContact>)
    requires Settled(p)
    ensures !p.active ==> Step(p, Raise, contacts) == (Panel(true, CountdownStart, true), [])
    ensures p.active ==> Step(p, Raise, contacts) == (p, [])
  {
  }

  /**
   * While seconds remain, a tick takes exactly one second off and does nothing
   * else; a tick when no interval is pending (one cleared by the effect's
   * cleanup) does nothing at all.
   */
  lemma TickDecrements(p: Panel, contacts: seq<SosContact>)
    requires Settled(p)
    ensures p.active && p.countdown > 1 ==> Step(p, Tick, contacts) == (p.(countdown := p.countdown - 1), [])
    ensures !p.timerArmed ==> Step(p, Tick, contacts) == (p, [])
  {
  }

  /** "I'm Safe" stands the emergency down and never dispatches. */
  lemma ImSafeNeverDispatches(p: Panel, contacts: seq<SosContact>)
    requires Settled(p)
    ensures Step(p, ImSafe, contacts) == (Idle, [])
  {
  }

  /** "Send SOS Now" dispatches exactly once, with the location when there is one, and stands down. */
  lemma SendNowDispatchesOnce(p: Panel, location: Option<Location>, contacts: seq<SosContact>)
    requires Settled(p)
    ensures Step(p, SendNow(location, false), contacts) == (Idle, [SosCall(contacts, location)])
  {
    assert Effect(p.(active := false), contacts) == (Idle, []);
    assert [SosCall(contacts, location)] + [] == [SosCall(contacts, location)];
  }

  // ---------------------------------------------------------------------------
  // Runs of events

  /** The panel after the events `es`, one by one, and every dispatch they made. */
  function Run(p: Panel, es: seq<PanelEvent>, contacts: seq<SosContact>): (Panel, seq<SosCall>)
    decreases |es|
  {
    if es == [] then (p, [])
    else
      var first := Step(p, es[0], contacts);
      var rest := Run(first.0, es[1..], contacts);
      (rest.0, first.1 + rest.1)
  }

  /** `n` one-second ticks. */
  function Ticks(n: nat): (es: seq<PanelEvent>)
    ensures |es| == n && forall i :: 0 <= i < n ==> es[i] == Tick
  {
    if n == 0 then [] else [Tick] + Ticks(n - 1)
  }

  /**
   * The countdown: from an active emergency with `c` seconds left, fewer than
   * `c` ticks take that many seconds off without dispatching; the `c`-th tick
   * dispatches once, without a location, and returns the panel to rest.
   */
  lemma {:induction false} TicksCountDown(p: Panel, n: nat, contacts: seq<SosContact>)
    requires Settled(p) && p.active && n <= p.countdown
    ensures n < p.countdown ==> Run(p, Ticks(n), contacts) == (p.(countdown := p.countdown - n), [])
    ensures n == p.countdown ==> Run(p, Ticks(n), contacts) == (Idle, [SosCall(contacts, None)])
    decreases n
  {
    if n > 0 {
      var first := Step(p, Tick, contacts);
      assert Ticks(n)[0] == Tick && Ticks(n)[1..] == Ticks(n - 1);
      var rest := Run(first.0, Ticks(n - 1), contacts);
      assert Run(p, Ticks(n), contacts) == (rest.0, first.1 + rest.1);
      if p.countdown == 1 {
        assert first.0 == Idle && first.1 == [SosCall(contacts, None)];
        IdleIgnoresTicks(n - 1, contacts);
        assert rest.0 == Idle && rest.1 == [];
        assert first.1 + rest.1 == [SosCall(contacts, None)];
      } else {
        assert first.0 == p.(countdown := p.countdown - 1) && first.1 == [];
        TicksCountDown(first.0, n - 1, contacts);
        assert first.1 + rest.1 == rest.1;
      }
    }
  }

  /** At rest no tick is pending, so any number of ticks changes nothing. */
  lemma {:induction false} IdleIgnoresTicks(n: nat, contacts: seq<SosContact>)
    ensures Run(Idle, Ticks(n), contacts) == (Idle, [])
  {
    if n > 0 {
      assert Ticks(n)[0] == Tick && Ticks(n)[1..] == Ticks(n - 1);
      assert Step(Idle, Tick, contacts) == (Idle, []);
      IdleIgnoresTicks(n - 1, contacts);
      var r := Run(Idle, Ticks(n), contacts);
      assert r.0 == Idle;
      assert r.1 == [];
    }
  }

  /**
   * However long it runs, the countdown of one emergency dispatches at most
   * once, and never with a location.
   */
  lemma AtMostOneAutomaticDispatch(p: Panel, n: nat, contacts: seq<SosContact>)
    requires Settled(p)
    ensures Run(p, Ticks(n), contacts).1 == [] || Run(p, Ticks(n), contacts).1 == [SosCall(contacts, None)]
  {
    if !p.active {
      IdleIgnoresTicks(n, contacts);
    } else if n <= p.countdown {
      TicksCountDown(p, n, contacts);
    } else {
      TicksCountDown(p, p.countdown, contacts);
      RunConcat(p, Ticks(p.countdown), Ticks(n - p.countdown), contacts);
      assert Ticks(p.countdown) + Ticks(n - p.countdown) == Ticks(n);
      IdleIgnoresTicks(n - p.countdown, contacts);
    }
  }

  /** Running two series of events one after the other is running them joined. */
  lemma {:induction false} RunConcat(p: Panel, es: seq<PanelEvent>, fs: seq<PanelEvent>, contacts: seq<SosContact>)
    ensures Run(p, es + fs, contacts).0 == Run(Run(p, es, contacts).0, fs, contacts).0
    ensures Run(p, es + fs, contacts).1 == Run(p, es, contacts).1 + Run(Run(p, es, contacts).0, fs, contacts).1
    decreases |es|
  {
    if es == [] {
      assert es + fs == fs;
    } else {
      var first := Step(p, es[0], contacts);
      assert (es + fs)[0] == es[0] && (es + fs)[1..] == es[1..] + fs;
      var mid := Run(first.0, es[1..], contacts);
      var tail := Run(mid.0, fs, contacts);
      RunConcat(first.0, es[1..], fs, contacts);
      assert Run(p, es, contacts) == (mid.0, first.1 + mid.1);
      assert Run(p, es + fs, contacts).0 == tail.0;
      assert Run(p, es + fs, contacts).1 == first.1 + (mid.1 + tail.1);
      assert first.1 + (mid.1 + tail.1) == (first.1 + mid.1) + tail.1;
    }
  }

  /**
   * Cancelling with "I'm Safe" at any second left prevents the dispatch: no
   * number of later ticks sends anything.
   */
  lemma CancelPreventsDispatch(p: Panel, n: nat, contacts: seq<SosContact>)
    requires Settled(p)
    ensures Run(p, [ImSafe] + Ticks(n), contacts) == (Idle, [])
  {
    RunConcat(p, [ImSafe], Ticks(n), contacts);
    assert Run(p, [ImSafe], contacts) == (Idle, []);
    IdleIgnoresTicks(n, contacts);
  }

  /**
   * A "Send SOS Now" whose dispatch throws never reaches
   * `setEmergencyActive(false)`: the panel stays as it was, so the countdown
   * carries on and, when it runs out, dispatches a second time, without a
   * location.
   */
  lemma SendNowThrowKeepsCountdown(p: Panel, location: Option<Location>, contacts: seq<SosContact>)
    requires Settled(p) && p.active
    ensures Step(p, SendNow(location, true), contacts) == (p, [SosCall(contacts, location)])
    ensures Run(p, [SendNow(location, true)] + Ticks(p.countdown), contacts)
        == (Idle, [SosCall(contacts, location), SosCall(contacts, None)])
  {
    var e := SendNow(location, true);
    RunConcat(p, [e], Ticks(p.countdown), contacts);
    var first := Step(p, e, contacts);
    assert first.0 == p && first.1 == [SosCall(contacts, location)];
    assert [e][0] == e && [e][1..] == [];
    assert first.1 + [] == first.1;
    assert Run(p, [e], contacts) == (p, [SosCall(contacts, location)]);
    TicksCountDown(p, p.countdown, contacts);
    assert [SosCall(contacts, location)] + [SosCall(contacts, None)] == [SosCall(contacts, location), SosCall(contacts, None)];
  }

  // ---------------------------------------------------------------------------
  // Settings switches

  /** The four on/off buttons of the dashboard. */
  datatype Switch = MonitoringSwitch | VibrationSwitch | SilentModeSwitch | ScheduleSwitch

  /** The settings field a switch flips. */
  function SwitchedField(w: Switch): Field
  {
    match w
    case MonitoringSwitch => IsMonitoringField
    case VibrationSwitch => VibrationEnabledField
    case SilentModeSwitch => SilentModeField
    case ScheduleSwitch => ScheduleField
  }

  /** The patch a switch hands to `updateSettings`: the negated flag (for the schedule, the whole schedule with `enabled` negated). */
  function SwitchPatch(s: SafetySettings, w: Switch): SettingsPatch
  {
    match w
    case MonitoringSwitch => EmptyPatch.(isMonitoring := Some(!s.isMonitoring))
    case VibrationSwitch => EmptyPatch.(vibrationEnabled := Some(!s.vibrationEnabled))
    case SilentModeSwitch => EmptyPatch.(silentMode := Some(!s.silentMode))
    case ScheduleSwitch => EmptyPatch.(schedule := Some(s.schedule.(enabled := !s.schedule.enabled)))
  }

  /**
   * A switch changes exactly its own field, negating a flag (the schedule
   * switch keeps the window's start and end), and pressing it twice restores
   * the settings.
   */
  lemma SwitchFlipsOneFlag(s: SafetySettings, w: Switch)
    ensures Differing(s, Merge(s, SwitchPatch(s, w))) == {SwitchedField(w)}
    ensures w == ScheduleSwitch ==>
      var t := Merge(s, SwitchPatch(s, w));
      t.schedule.enabled == !s.schedule.enabled && t.schedule.start == s.schedule.start && t.schedule.end == s.schedule.end
    ensures var t := Merge(s, SwitchPatch(s, w)); Merge(t, SwitchPatch(t, w)) == s
  {
  }

  /**
   * The schedule effect after a switch. The vibration and silent-mode switches
   * leave its inputs alone. With the schedule enabled, the monitoring switch
   * restarts it and the check undoes the press. Enabling the schedule checks
   * it at once, so monitoring follows the window; disabling it leaves
   * monitoring as it was.
   */
  lemma SwitchThenSchedule(s: SafetySettings, w: Switch, now: string)
    ensures w == VibrationSwitch || w == SilentModeSwitch ==>
      Settle(s, Merge(s, SwitchPatch(s, w)), now) == Merge(s, SwitchPatch(s, w))
    ensures w == MonitoringSwitch && s.schedule.enabled ==>
      Settle(s, Merge(s, SwitchPatch(s, w)), now) == Reconcile(s, now)
    ensures w == ScheduleSwitch && !s.schedule.enabled ==>
      var r := Settle(s, Merge(s, SwitchPatch(s, w)), now);
      r.schedule.enabled && r.isMonitoring == InWindow(now, s.schedule.start, s.schedule.end)
    ensures w == ScheduleSwitch && s.schedule.enabled ==>
      Settle(s, Merge(s, SwitchPatch(s, w)), now) == Merge(s, SwitchPatch(s, w))
  {
    var t := Merge(s, SwitchPatch(s, w));
    if w == MonitoringSwitch && s.schedule.enabled {
      ManualSwitchOverridden(s, now, !s.isMonitoring);
    } else if w == ScheduleSwitch {
      SettleLaws(s, t, now);
    }
  }

  // ---------------------------------------------------------------------------
  // The schedule picker: `${start} - ${end}` and `val.split(" - ")`

  const RangeSeparator := " - "

  /** The picker's displayed value for a schedule. */
  function FormatRange(start: string, end: string): string
  {
    start + RangeSeparator + end
  }

  /**
   * `s.split(sep)` for a non-empty separator, `current` being the part read
   * so far: the text between successive non-overlapping occurrences of
   * `sep`, scanning from the left.
   */
  function SplitFrom(s: string, sep: string, current: string): (parts: seq<string>)
    requires sep != []
    ensures |parts| >= 1
    decreases |s|
  {
    if |s| < |sep| then [current + s]
    else if s[..|sep|] == sep then [current] + SplitFrom(s[|sep|..], sep, "")
    else SplitFrom(s[1..], sep, current + [s[0]])
  }

  function Split(s: string, sep: string): seq<string>
    requires sep != []
  {
    SplitFrom(s, sep, "")
  }

  predicate NoSpace(s: string)
  {
    forall i :: 0 <= i < |s| ==> s[i] != ' '
  }

  /** A text without a space holds no separator: it is one part. */
  lemma {:induction false} SplitNoSeparator(s: string, current: string)
    requires NoSpace(s)
    ensures SplitFrom(s, RangeSeparator, current) == [current + s]
    decreases |s|
  {
    if |s| >= |RangeSeparator| {
      assert s[..|RangeSeparator|] != RangeSeparator by { assert s[0] != RangeSeparator[0]; }
      SplitNoSeparator(s[1..], current + [s[0]]);
      assert current + [s[0]] + s[1..] == current + s;
    }
  }

  /** The separator after a space-free text ends the current part there. */
  lemma {:induction false} SplitAtSeparator(a: string, b: string, current: string)
    requires NoSpace(a)
    ensures SplitFrom(a + RangeSeparator + b, RangeSeparator, current)
         == [current + a] + SplitFrom(b, RangeSeparator, "")
    decreases |a|
  {
    var s := a + RangeSeparator + b;
    if a == [] {
      assert s[..|RangeSeparator|] == RangeSeparator && s[|RangeSeparator|..] == b;
      assert current + a == current;
    } else {
      assert s[..|RangeSeparator|] != RangeSeparator by { assert s[0] == a[0] != RangeSeparator[0]; }
      assert s[1..] == a[1..] + RangeSeparator + b;
      SplitAtSeparator(a[1..], b, current + [a[0]]);
      assert current + [a[0]] + a[1..] == current + a;
    }
  }

  /** Splitting the displayed value of a window recovers its start and end. */
  lemma FormatThenSplit(start: string, end: string)
    requires NoSpace(start) && NoSpace(end)
    ensures Split(FormatRange(start, end), RangeSeparator) == [start, end]
  {
    SplitAtSeparator(start, end, "");
    SplitNoSeparator(end, "");
    assert "" + start == start && "" + end == end;
  }

  /** "HH:MM" strings hold no space. */
  lemma WellFormedHasNoSpace(s: string)
    requires WellFormed(s)
    ensures NoSpace(s)
  {
  }

  /**
   * The patch for a picked value: the schedule with `start` and `end` taken
   * from the first two parts and `enabled` kept.
   */
  function PickPatch(s: SafetySettings, val: string): SettingsPatch
    requires |Split(val, RangeSeparator)| >= 2
  {
    var parts := Split(val, RangeSeparator);
    EmptyPatch.(schedule := Some(s.schedule.(start := parts[0], end := parts[1])))
  }

  /**
   * Picking the value displayed for a window of well-formed times sets the
   * schedule's start and end to exactly those times, keeps `enabled` and
   * changes no other field; picking the value already displayed changes nothing.
   */
  lemma PickSetsWindow(s: SafetySettings, start: string, end: string)
    requires WellFormed(start) && WellFormed(end)
    ensures |Split(FormatRange(start, end), RangeSeparator)| >= 2
    ensures var t := Merge(s, PickPatch(s, FormatRange(start, end)));
      t.schedule == Schedule(s.schedule.enabled, start, end) && Differing(s, t) <= {ScheduleField}
    ensures s.schedule.start == start && s.schedule.end == end ==>
      Merge(s, PickPatch(s, FormatRange(start, end))) == s
  {
    FormatThenSplit(start, end);
  }

  /**
   * Picking a window and the schedule effect: with the schedule enabled, a new
   * window restarts the effect and monitoring follows the new window at once;
   * with it disabled, or when the window is the one already set, nothing
   * beyond the pick happens.
   */
  lemma PickThenSchedule(s: SafetySettings, start: string, end: string, now: string)
    requires WellFormed(start) && WellFormed(end)
    ensures |Split(FormatRange(start, end), RangeSeparator)| >= 2
    ensures var t := Merge(s, PickPatch(s, FormatRange(start, end)));
      var r := Settle(s, t, now);
      && (s.schedule.enabled && (start != s.schedule.start || end != s.schedule.end) ==>
            r.isMonitoring == InWindow(now, start, end) && Differing(t, r) <= {IsMonitoringField})
      && (!s.schedule.enabled ==> r == t)
      && (start == s.schedule.start && end == s.schedule.end ==> r == s)
  {
    PickSetsWindow(s, start, end);
    var t := Merge(s, PickPatch(s, FormatRange(start, end)));
    SettleLaws(s, t, now);
  }

  /** The values the schedule picker offers. */
  const PickerItems: seq<string> :=
    ["20:00 - 06:00", "21:00 - 06:00", "22:00 - 06:00", "23:00 - 07:00", "00:00 - 08:00"]

  /** A picker value that names a window: two well-formed times around the separator. */
  predicate NamesWindow(item: string)
  {
    var parts := Split(item, RangeSeparator);
    |parts| >= 2 && WellFormed(parts[0]) && WellFormed(parts[1])
  }

  /** Every value the picker offers splits into two well-formed times. */
  lemma PickerItemsWellFormed()
    ensures forall i :: 0 <= i < |PickerItems| ==> NamesWindow(PickerItems[i])
  {
    var windows := [("20:00", "06:00"), ("21:00", "06:00"), ("22:00", "06:00"), ("23:00", "07:00"), ("00:00", "08:00")];
    PickerItemsAreRanges(windows);
    forall i | 0 <= i < |PickerItems|
      ensures NamesWindow(PickerItems[i])
    {
      PickerItemSplits(PickerItems[i], windows[i].0, windows[i].1);
    }
  }

  /** Each picker value is the displayed form of a window of well-formed times. */
  lemma PickerItemsAreRanges(windows: seq<(string, string)>)
    requires windows == [("20:00", "06:00"), ("21:00", "06:00"), ("22:00", "06:00"), ("23:00", "07:00"), ("00:00", "08:00")]
    ensures |windows| == |PickerItems|
    ensures forall i :: 0 <= i < |windows| ==>
      PickerItems[i] == FormatRange(windows[i].0, windows[i].1) && WellFormed(windows[i].0) && WellFormed(windows[i].1)
  {
    PickerTimesWellFormed();
    assert FormatRange("20:00", "06:00") == PickerItems[0];
    assert FormatRange("21:00", "06:00") == PickerItems[1];
    assert FormatRange("22:00", "06:00") == PickerItems[2];
    assert FormatRange("23:00", "07:00") == PickerItems[3];
    assert FormatRange("00:00", "08:00") == PickerItems[4];
  }

  /** The times the picker values are made of are well formed. */
  lemma PickerTimesWellFormed()
    ensures WellFormed("20:00") && WellFormed("21:00") && WellFormed("22:00") && WellFormed("23:00") && WellFormed("00:00")
    ensures WellFormed("06:00") && WellFormed("07:00") && WellFormed("08:00")
  {
  }

  /** A picker value written from two well-formed times splits back into them. */
  lemma PickerItemSplits(item: string, start: string, end: string)
    requires item == FormatRange(start, end)
    requires WellFormed(start) && WellFormed(end)
    ensures Split(item, RangeSeparator) == [start, end]
  {
    FormatThenSplit(start, end);
  }

  // ---------------------------------------------------------------------------
  // The dashboard component

  class Dashboard {
    /** The safety context the dashboard reads and updates. */
    const ctx: SafetyProvider
    /** Where `triggerSOS` calls go. */
    const sos: SosChannel
    var countdown: int
    var timerArmed: bool

    /** The panel as the step function sees it. */
    function State(): Panel
      reads this, ctx
    {
      Panel(ctx.isEmergencyActive, countdown, timerArmed)
    }

    ghost predicate Valid()
      reads this, ctx
    {
      Settled(State())
    }

    /** Mounting: the countdown starts at 10 and the effect runs once. */
    constructor (ctx: SafetyProvider, sos: SosChannel)
      requires !ctx.isEmergencyActive
      ensures this.ctx == ctx && this.sos == sos
      ensures State() == Idle && Valid()
    {
      this.ctx := ctx;
      this.sos := sos;
      countdown := CountdownStart;
      timerArmed := false;
    }

    /** The countdown effect: cleanup, then one run of its body. */
    method RunEffect()
      requires countdown >= 0
      modifies this, ctx`isEmergencyActive, sos
      ensures State() == Effect(old(State()), ctx.settings.sosContacts).0
      ensures sos.calls == old(sos.calls) + Effect(old(State()), ctx.settings.sosContacts).1
    {
      timerArmed := false;
      if ctx.isEmergencyActive && countdown > 0 {
        timerArmed := true;
      } else if ctx.isEmergencyActive && countdown == 0 {
        sos.TriggerSos(ctx.settings.sosContacts, None);
        ctx.SetEmergencyActive(false);
        countdown := CountdownStart;
      } else if !ctx.isEmergencyActive {
        countdown := CountdownStart;
      }
    }

    /** An emergency raised from outside: `setEmergencyActive(true)`, and the effect re-runs if the flag changed. */
    method Raise()
      requires Valid()
      modifies this, ctx`isEmergencyActive, sos
      ensures Valid()
      ensures State() == Step(old(State()), PanelEvent.Raise, ctx.settings.sosContacts).0
      ensures sos.calls == old(sos.calls) + Step(old(State()), PanelEvent.Raise, ctx.settings.sosContacts).1
    {
      if !ctx.isEmergencyActive {
        ctx.SetEmergencyActive(true);
        RunEffect();
      }
    }

    /** One second of the pending interval: `setCountdown(prev => prev - 1)`, then the effect re-runs. */
    method Tick()
      requires Valid()
      modifies this, ctx`isEmergencyActive, sos
      ensures Valid()
      ensures State() == Step(old(State()), PanelEvent.Tick, ctx.settings.sosContacts).0
      ensures sos.calls == old(sos.calls) + Step(old(State()), PanelEvent.Tick, ctx.settings.sosContacts).1
    {
      if timerArmed {
        countdown := countdown - 1;
        RunEffect();
      }
    }

    /** "I'm Safe": `setEmergencyActive(false)`, then the effect re-runs. */
    method ImSafe()
      requires Valid()
      modifies this, ctx`isEmergencyActive, sos
      ensures Valid()
      ensures State() == Step(old(State()), PanelEvent.ImSafe, ctx.settings.sosContacts).0
      ensures sos.calls == old(sos.calls) + Step(old(State()), PanelEvent.ImSafe, ctx.settings.sosContacts).1
    {
      ctx.SetEmergencyActive(false);
      RunEffect();
    }

    /**
     * "Send SOS Now": `location` is what `getLocation` resolved to, `None` when
     * it rejected; one dispatch, then `setEmergencyActive(false)`, which a
     * dispatch that throws (`dispatchThrows`) skips.
     */
    method SendSosNow(location: Option<Location>, dispatchThrows: bool)
      requires Valid()
      modifies this, ctx`isEmergencyActive, sos
      ensures Valid()
      ensures State() == Step(old(State()), SendNow(location, dispatchThrows), ctx.settings.sosContacts).0
      ensures sos.calls == old(sos.calls) + Step(old(State()), SendNow(location, dispatchThrows), ctx.settings.sosContacts).1
    {
      sos.TriggerSos(ctx.settings.sosContacts, location);
      if !dispatchThrows {
        ctx.SetEmergencyActive(false);
        RunEffect();
      }
    }

    /**
     * The monitoring button: `updateSettings({ isMonitoring: !settings.isMonitoring })`.
     * The change restarts the schedule effect, which checks at `hours`:`minutes`.
     */
    method ToggleMonitoring(hours: nat, minutes: nat)
      requires hours < 24 && minutes < 60
      modifies ctx`settings
      ensures ctx.settings == Settle(old(ctx.settings),
        Merge(old(ctx.settings), SwitchPatch(old(ctx.settings), MonitoringSwitch)), ClockString(hours, minutes))
    {
      ctx.UpdateSettings(SwitchPatch(ctx.settings, MonitoringSwitch), hours, minutes);
    }

    /**
     * The vibration button. It changes no input of the schedule effect, so the
     * clock reading handed on is never read.
     */
    method ToggleVibration()
      modifies ctx`settings
      ensures ctx.settings == Merge(old(ctx.settings), SwitchPatch(old(ctx.settings), VibrationSwitch))
    {
      ctx.UpdateSettings(SwitchPatch(ctx.settings, VibrationSwitch), 0, 0);
    }

    /** The silent-mode button; like the vibration button, it leaves the schedule effect alone. */
    method ToggleSilentMode()
      modifies ctx`settings
      ensures ctx.settings == Merge(old(ctx.settings), SwitchPatch(old(ctx.settings), SilentModeSwitch))
    {
      ctx.UpdateSettings(SwitchPatch(ctx.settings, SilentModeSwitch), 0, 0);
    }

    /**
     * The "Enable Schedule" button: the schedule object with `enabled` negated.
     * The change restarts the schedule effect, which checks at `hours`:`minutes`.
     */
    method ToggleSchedule(hours: nat, minutes: nat)
      requires hours < 24 && minutes < 60
      modifies ctx`settings
      ensures ctx.settings == Settle(old(ctx.settings),
        Merge(old(ctx.settings), SwitchPatch(old(ctx.settings), ScheduleSwitch)), ClockString(hours, minutes))
    {
      ctx.UpdateSettings(SwitchPatch(ctx.settings, ScheduleSwitch), hours, minutes);
    }

    /**
     * The schedule picker: split the chosen value and take its first two parts
     * as start and end. A new window restarts the schedule effect, which checks
     * at `hours`:`minutes`.
     */
    method PickSchedule(val: string, hours: nat, minutes: nat)
      requires |Split(val, RangeSeparator)| >= 2
      requires hours < 24 && minutes < 60
      modifies ctx`settings
      ensures ctx.settings == Settle(old(ctx.settings),
        Merge(old(ctx.settings), PickPatch(old(ctx.settings), val)), ClockString(hours, minutes))
    {
      var parts := Split(val, RangeSeparator);
      var start, end := parts[0], parts[1];
      ctx.UpdateSettings(EmptyPatch.(schedule := Some(ctx.settings.schedule.(start := start, end := end))), hours, minutes);
    }

    /** The sensitivity radio group; it leaves the schedule effect alone. */
    method SelectSensitivity(level: Sensitivity)
      modifies ctx`settings
      ensures ctx.settings == old(ctx.settings).(sensitivity := level)
    {
      ctx.UpdateSettings(EmptyPatch.(sensitivity := Some(level)), 0, 0);
    }

    /** The contact editor's update callback; it leaves the schedule effect alone. */
    method UpdateContacts(contacts: seq<SosContact>)
      modifies ctx`settings
      ensures ctx.settings == old(ctx.settings).(sosContacts := contacts)
    {
      ctx.UpdateSettings(EmptyPatch.(sosContacts := Some(contacts)), 0, 0);
    }
  }
}
