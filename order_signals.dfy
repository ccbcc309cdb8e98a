/** `create_shiprocket_on_paid`, the handler run after every save of an
    order: it asks the carrier for a shipment once an order is paid and
    still has no tracking number, and never lets the call's failure escape. */
module OrderSignals {
  import opened Basics
  import opened OrderModels
  import opened Shiprocket

  /** What the handler does: nothing, or one shipment call whose
      exception, if it raises, is logged rather than propagated. */
  datatype SignalOutcome = NotShipped | ShipmentAttempted(errorLogged: bool)

  /** The handler's guard chain. `enabled` is the `SHIPROCKET_ENABLED`
      setting (false when unset) and `raises` whether the shipment call
      raised. */
  function OnOrderSaved(enabled: bool, o: Order, raises: bool): (r: SignalOutcome)
    ensures !enabled ==> r == NotShipped
    ensures o.status != "paid" ==> r == NotShipped
    ensures o.trackingNumber != "" ==> r == NotShipped
    ensures enabled && o.status == "paid" && o.trackingNumber == "" ==> r == ShipmentAttempted(raises)
  {
    if !enabled then NotShipped
    else if o.status != "paid" then NotShipped
    else if o.trackingNumber != "" then NotShipped
    else ShipmentAttempted(raises)
  }

  /** The shipment call saves the order with its new AWB, which runs the
      handler again; that second run makes no call, so one payment leads
      to at most one shipment. */
  lemma TrackedSaveShipsNothing(enabled: bool, o: Order, awb: string, raises: bool)
    requires awb != ""
    ensures OnOrderSaved(enabled, Tracked(o, Some(awb)), raises) == NotShipped
  {
  }

  /** The order as stored once the handler has run after a save of `o`.
      `awb` is what `create_shiprocket_shipment` returns when the handler
      calls it (see `Shiprocket.CreateShipment`); a new AWB is written to
      the order by that call's own save. */
  function AfterSave(enabled: bool, o: Order, awb: Option<string>): (r: Order)
    ensures r.(trackingNumber := o.trackingNumber, shippingProvider := o.shippingProvider) == o
    ensures r != o ==> enabled && o.status == "paid" && o.trackingNumber == "" && awb.Some?
                       && r.trackingNumber == awb.value && r.shippingProvider == "Shiprocket"
    ensures enabled && o.status == "paid" && o.trackingNumber == "" && awb.Some? ==> r == Tracked(o, awb)
  {
    if OnOrderSaved(enabled, o, false).ShipmentAttempted? then Tracked(o, awb) else o
  }

  /** Running the handler's effect again with the same carrier answer
      changes nothing more. */
  lemma AfterSaveIdempotent(enabled: bool, o: Order, awb: Option<string>)
    ensures AfterSave(enabled, AfterSave(enabled, o, awb), awb) == AfterSave(enabled, o, awb)
  {
    if OnOrderSaved(enabled, o, false).ShipmentAttempted? && awb.Some? {
      assert Tracked(Tracked(o, awb), awb) == Tracked(o, awb);
    }
  }
}
