/**
 * The boundary to the SOS helpers, whose code is not part of this model:
 * `getLocation` is represented by its outcome, and every `triggerSOS` call
 * is recorded, with its arguments, in a trace.
 */
module SosLogic {
  import opened Wrappers
  import opened SafetyContext

  /** A position fix as `getLocation` resolves it. */
  datatype Location = Location(latitude: real, longitude: real)

  /** One `triggerSOS(contacts, location)` call; `None` is a call without a location. */
  datatype SosCall = SosCall(contacts: seq<SosContact>, location: Option<Location>)

  /** The outbound SOS channel. */
  class SosChannel {
    /** Every dispatch attempted so far, oldest first. */
    ghost var calls: seq<SosCall>

    constructor ()
      ensures calls == []
    {
      calls := [];
    }

    /** `triggerSOS`: one dispatch attempt to `contacts`. */
    method TriggerSos(contacts: seq<SosContact>, location: Option<Location>)
      modifies this
      ensures calls == old(calls) + [SosCall(contacts, location)]
    {
      calls := calls + [SosCall(contacts, location)];
    }
  }
}
