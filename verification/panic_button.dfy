/**
 * The manual panic button: one press tries to fetch a location and dispatch
 * with it, and falls back to dispatching without a location. It bypasses the
 * countdown altogether.
 */
module PanicButtonComponent {
  import opened Wrappers
  import opened SafetyContext
  import opened SosLogic
  import DashboardScreen

  /**
   * The dispatches one press makes, given what `getLocation` resolved to
   * (`None` when it rejected) and whether the dispatch with that location threw.
   * The `try` covers both the location request and the first dispatch, so
   * either failure leads to the fallback dispatch without a location.
   */
  function PanicCalls(contacts: seq<SosContact>, location: Option<Location>, dispatchThrows: bool): seq<SosCall>
  {
    match location
    case Some(_) =>
      if dispatchThrows then [SosCall(contacts, location), SosCall(contacts, None)]
      else [SosCall(contacts, location)]
    case None => [SosCall(contacts, None)]
  }

  /**
   * A press always attempts a dispatch, to the contacts unchanged: with the
   * location when it was found, without one when it was not; a second,
   * location-less dispatch follows exactly when the first one threw.
   */
  lemma PanicDispatchLaws(contacts: seq<SosContact>, location: Option<Location>, dispatchThrows: bool)
    ensures var calls := PanicCalls(contacts, location, dispatchThrows);
      && 1 <= |calls| <= 2
      && (forall i :: 0 <= i < |calls| ==> calls[i].contacts == contacts)
      && (location.Some? && !dispatchThrows ==> calls == [SosCall(contacts, location)])
      && (location.None? ==> calls == [SosCall(contacts, None)])
      && (|calls| == 2 <==> location.Some? && dispatchThrows)
      && (|calls| == 2 ==> calls == [SosCall(contacts, location), SosCall(contacts, None)])
  {
  }

  /**
   * When no dispatch throws, a panic press sends what "Send SOS Now" sends
   * from any settled countdown, though it leaves the panel alone.
   */
  lemma PanicMatchesSendNow(p: DashboardScreen.Panel, contacts: seq<SosContact>, location: Option<Location>)
    requires DashboardScreen.Settled(p)
    ensures PanicCalls(contacts, location, false) == DashboardScreen.Step(p, DashboardScreen.SendNow(location, false), contacts).1
  {
    DashboardScreen.SendNowDispatchesOnce(p, location, contacts);
  }

  class PanicButton {
    /** The safety context; the button only reads its settings. */
    const ctx: SafetyProvider
    const sos: SosChannel
    var isPressing: bool

    constructor (ctx: SafetyProvider, sos: SosChannel)
      ensures this.ctx == ctx && this.sos == sos && !isPressing
    {
      this.ctx := ctx;
      this.sos := sos;
      isPressing := false;
    }

    /**
     * `handlePanic`: `location` is the outcome of `getLocation` and
     * `dispatchThrows` whether `triggerSOS` with that location threw. The
     * settings, the log and the emergency flag are left as they were.
     */
    method HandlePanic(location: Option<Location>, dispatchThrows: bool)
      modifies sos
      ensures sos.calls == old(sos.calls) + PanicCalls(ctx.settings.sosContacts, location, dispatchThrows)
      ensures ctx.settings == old(ctx.settings) && ctx.logs == old(ctx.logs)
      ensures ctx.isEmergencyActive == old(ctx.isEmergencyActive)
    {
      var contacts := ctx.settings.sosContacts;
      var caught := false;
      if location.Some? {
        sos.TriggerSos(contacts, location);
        caught := dispatchThrows;
      } else {
        caught := true;
      }
      if caught {
        sos.TriggerSos(contacts, None);
      }
    }

    method MouseDown()
      modifies this`isPressing
      ensures isPressing
    {
      isPressing := true;
    }

    method MouseUp()
      modifies this`isPressing
      ensures !isPressing
    {
      isPressing := false;
    }

    method MouseLeave()
      modifies this`isPressing
      ensures !isPressing
    {
      isPressing := false;
    }
  }
}
