/** The kitchen's order card (src/components/OrderCard.tsx): which controls
    a card shows for an order and which of them are disabled. */
module OrderCard {
  import opened Types
  import opened Text

  /** A footer button: not rendered, rendered and clickable, or rendered
      disabled. */
  datatype Button = Hidden | Enabled | Disabled

  /** What the card shows of an order. */
  datatype CardView = CardView(
    phone: string,
    completed: bool,
    editControls: bool,
    paid: Button,
    ready: Button,
    fulfilledNote: bool,
    servedIcon: bool)

  /** `phoneNumber10Digits = customerPhone.slice(-10)`. */
  function DisplayPhone(o: Order): string
  {
    TakeLast(o.customerPhone, 10)
  }

  /** `isCompleted = status === 'done'`. */
  predicate IsCompleted(o: Order)
  {
    o.status == StatusDone
  }

  /** `served` as a JavaScript condition: only a stored `true` counts. */
  predicate ServedFlag(o: Order)
  {
    o.served == Some(true)
  }

  function View(o: Order): CardView
  {
    var footer := o.status != StatusDone;
    CardView(
      DisplayPhone(o),
      IsCompleted(o),
      !IsCompleted(o),
      if !footer then Hidden else if o.status == StatusPaid then Disabled else Enabled,
      if !footer then Hidden else if ServedFlag(o) then Disabled else Enabled,
      IsCompleted(o),
      ServedFlag(o))
  }

  /** A card shows either the add-items/cancel controls with the Paid and
      Ready buttons, or the "fulfilled" note, never both; done orders get
      the note. Paid is disabled exactly for a paid order and Ready exactly
      for a served one. */
  lemma ViewSpec(o: Order)
    ensures View(o).completed <==> o.status == StatusDone
    ensures View(o).fulfilledNote <==> !View(o).editControls
    ensures View(o).paid.Hidden? <==> View(o).fulfilledNote
    ensures View(o).ready.Hidden? <==> View(o).fulfilledNote
    ensures View(o).paid == Disabled <==> o.status == StatusPaid
    ensures View(o).ready == Disabled <==> o.status != StatusDone && o.served == Some(true)
    ensures View(o).ready == Enabled <==> o.status != StatusDone && o.served != Some(true)
  {
  }

  /** The shown number is the stored one's tail, at most 10 characters;
      for an order the forms created from a 10-digit number it is that
      number again. */
  lemma DisplayPhoneSpec(o: Order, typed: string)
    ensures |DisplayPhone(o)| <= 10
    ensures |o.customerPhone| >= 10 ==> |DisplayPhone(o)| == 10
    ensures o.customerPhone[|o.customerPhone| - |DisplayPhone(o)|..] == DisplayPhone(o)
    ensures |typed| == 10 && o.customerPhone == WithCountryCode(typed) ==> DisplayPhone(o) == typed
  {
    var p := o.customerPhone;
    var r := DisplayPhone(o);
    assert p[|p| - |r|..] == r by {
      assert p == p[..|p| - |r|] + r;
    }
    if |typed| == 10 && p == WithCountryCode(typed) {
      TakeLastUndoesCountryCode(typed);
    }
  }
}
