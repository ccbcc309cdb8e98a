/** The `create_shiprocket_shipments` admin action: one carrier call per
    selected order without a tracking number, counted as created or
    skipped, and a message for each non-zero count. */
module OrderAdmin {
  import opened Basics
  import opened Text
  import opened OrderModels
  import opened Shiprocket

  /** `if awb:` on what the shipment call returned. */
  predicate IsAwb(a: Option<string>)
  {
    a.Some? && a.value != ""
  }

  predicate Untracked(o: Order)
  {
    o.trackingNumber == ""
  }

  /** The action creates a shipment for `o`: it has no tracking number and
      the call returns an AWB.  `ship` is the AWB `create_shiprocket_shipment`
      returns for each order. */
  predicate Creates(o: Order, ship: Order -> Option<string>)
  {
    Untracked(o) && IsAwb(ship(o))
  }

  /** How many selected orders get a shipment. */
  function CreatedCount(orders: seq<Order>, ship: Order -> Option<string>): (n: nat)
    ensures n <= |orders|
  {
    if orders == [] then 0
    else CreatedCount(orders[..|orders| - 1], ship) + (if Creates(orders[|orders| - 1], ship) then 1 else 0)
  }

  /** An order as the action leaves it: saved with its new AWB when a
      shipment was created. */
  function AfterAction(o: Order, ship: Order -> Option<string>): (r: Order)
    ensures Creates(o, ship) ==> r == Tracked(o, ship(o)) && r.trackingNumber != ""
    ensures !Creates(o, ship) ==> r == o
  {
    if Creates(o, ship) then Tracked(o, ship(o)) else o
  }

  datatype AdminMessage = AdminMessage(level: string, text: string)

  /** The messages for the two counters, each only when it is non-zero. */
  function Messages(created: nat, skipped: nat): (r: seq<AdminMessage>)
    ensures |r| == (if created > 0 then 1 else 0) + (if skipped > 0 then 1 else 0)
    ensures created > 0 ==> r[0] == AdminMessage("success", "Created Shiprocket shipments: " + NatToString(created))
    ensures skipped > 0 ==> r[|r| - 1] == AdminMessage("info", "Skipped: " + NatToString(skipped))
  {
    (if created > 0 then [AdminMessage("success", "Created Shiprocket shipments: " + NatToString(created))] else [])
    + (if skipped > 0 then [AdminMessage("info", "Skipped: " + NatToString(skipped))] else [])
  }

  /** `OrderAdmin.create_shiprocket_shipments(request, queryset)`.  `calls`
      lists the orders handed to the carrier, in queryset order; `saved`
      is every selected order afterwards. */
  method CreateShipments(orders: seq<Order>, ship: Order -> Option<string>)
    returns (created: nat, skipped: nat, calls: seq<Order>, saved: seq<Order>, messages: seq<AdminMessage>)
    ensures created == CreatedCount(orders, ship)
    ensures created + skipped == |orders|
    ensures calls == Filter(orders, Untracked)
    ensures |saved| == |orders| && forall i :: 0 <= i < |orders| ==> saved[i] == AfterAction(orders[i], ship)
    ensures messages == Messages(created, skipped)
  {
    created, skipped, calls, saved := 0, 0, [], [];
    for i := 0 to |orders|
      invariant created == CreatedCount(orders[..i], ship)
      invariant created + skipped == i
      invariant calls == Filter(orders[..i], Untracked)
      invariant saved == SavedAll(orders[..i], ship)
    {
      var o := orders[i];
      PrefixStep(orders, i, ship);
      if o.trackingNumber != "" {
        skipped := skipped + 1;
      } else {
        calls := calls + [o];
        var awb := ship(o);
        if awb.Some? && awb.value != "" {
          created := created + 1;
        } else {
          skipped := skipped + 1;
        }
      }
      saved := saved + [AfterAction(o, ship)];
    }
    assert orders[..|orders|] == orders;
    SavedAllAt(orders, ship);
    messages := Messages(created, skipped);
  }

  /** The selected orders as the action leaves them. */
  function SavedAll(orders: seq<Order>, ship: Order -> Option<string>): (r: seq<Order>)
    ensures |r| == |orders|
  {
    if orders == [] then [] else SavedAll(orders[..|orders| - 1], ship) + [AfterAction(orders[|orders| - 1], ship)]
  }

  lemma {:induction false} SavedAllAt(orders: seq<Order>, ship: Order -> Option<string>)
    ensures |SavedAll(orders, ship)| == |orders|
    ensures forall i :: 0 <= i < |orders| ==> SavedAll(orders, ship)[i] == AfterAction(orders[i], ship)
  {
    if orders != [] {
      SavedAllAt(orders[..|orders| - 1], ship);
    }
  }

  /** One more order of the selection, for the counters and the calls. */
  lemma PrefixStep(orders: seq<Order>, i: nat, ship: Order -> Option<string>)
    requires i < |orders|
    ensures CreatedCount(orders[..i + 1], ship) == CreatedCount(orders[..i], ship) + (if Creates(orders[i], ship) then 1 else 0)
    ensures Filter(orders[..i + 1], Untracked) == Filter(orders[..i], Untracked) + (if Untracked(orders[i]) then [orders[i]] else [])
    ensures SavedAll(orders[..i + 1], ship) == SavedAll(orders[..i], ship) + [AfterAction(orders[i], ship)]
  {
    assert orders[..i + 1] == orders[..i] + [orders[i]];
    assert orders[..i + 1][..i] == orders[..i];
    FilterSnoc(orders[..i], orders[i], Untracked);
  }

  /** A non-empty selection always produces a message, an empty one none. */
  lemma MessagesIffSelection(orders: seq<Order>, ship: Order -> Option<string>)
    ensures var c := CreatedCount(orders, ship);
            (|Messages(c, |orders| - c)| > 0) <==> |orders| > 0
  {
  }

  /** Every order that gets a shipment was handed to the carrier. */
  lemma {:induction false} CreatedAtMostCalls(orders: seq<Order>, ship: Order -> Option<string>)
    ensures CreatedCount(orders, ship) <= |Filter(orders, Untracked)|
  {
    if orders != [] {
      var init, o := orders[..|orders| - 1], orders[|orders| - 1];
      assert orders == init + [o];
      CreatedAtMostCalls(init, ship);
      FilterSnoc(init, o, Untracked);
    }
  }

  /** An order the action handed to the carrier without getting an AWB
      back. */
  function LeftBy(ship: Order -> Option<string>): Order -> bool
  {
    o => Untracked(o) && !IsAwb(ship(o))
  }

  /** Running the action again, as staff do to retry orders the carrier did
      not ship, with the carrier answering `ship2` this time: only the
      orders the first run left without an AWB are handed to the carrier,
      none that got one is touched or given a second AWB, and no more
      shipments are created than the first run missed. */
  lemma {:induction false} RerunRetriesOnlyUnshipped(orders: seq<Order>, ship: Order -> Option<string>, ship2: Order -> Option<string>)
    ensures Filter(SavedAll(orders, ship), Untracked) == Filter(orders, LeftBy(ship))
    ensures CreatedCount(SavedAll(orders, ship), ship2) <= |orders| - CreatedCount(orders, ship)
    ensures forall i :: 0 <= i < |orders| && Creates(orders[i], ship) ==>
              AfterAction(SavedAll(orders, ship)[i], ship2) == SavedAll(orders, ship)[i]
  {
    SavedAllAt(orders, ship);
    if orders != [] {
      var init, o := orders[..|orders| - 1], orders[|orders| - 1];
      assert orders == init + [o];
      RerunRetriesOnlyUnshipped(init, ship, ship2);
      var saved := SavedAll(orders, ship);
      var last := AfterAction(o, ship);
      assert saved == SavedAll(init, ship) + [last];
      assert saved[..|saved| - 1] == SavedAll(init, ship);
      FilterSnoc(SavedAll(init, ship), last, Untracked);
      FilterSnoc(init, o, LeftBy(ship));
      assert Untracked(last) <==> LeftBy(ship)(o);
      assert Creates(o, ship) ==> !Creates(last, ship2);
    }
  }

  /** Running the action again over the orders it saved, with the carrier
      answering each order as it did the first time, creates nothing new. */
  lemma {:induction false} RerunCreatesNothing(orders: seq<Order>, ship: Order -> Option<string>)
    ensures CreatedCount(SavedAll(orders, ship), ship) == 0
  {
    if orders != [] {
      var init := orders[..|orders| - 1];
      RerunCreatesNothing(init, ship);
      var saved := SavedAll(orders, ship);
      assert saved[..|saved| - 1] == SavedAll(init, ship);
      assert !Creates(saved[|saved| - 1], ship);
    }
  }
}
