/**
 * The host's door scanner: the fixed-order chain that turns a scanned QR
 * text into exactly one outcome, guarded by a re-entrancy lock. The ticket
 * table is an input map from ticket id to the columns the chain reads; the
 * server-side check-in call is not modelled, so a scan that passes every
 * check ends in `Proceed`.
 */
module DoorScan {

  import opened Wrappers
  import opened JsValues
  import TicketToken
  import Decimal
  import HostSales
  import Schedule

  /** The ticket columns the scanner reads. */
  datatype TicketRow = TicketRow(paymentStatus: string, quantityUsed: int, quantityPurchased: int)

  /** One variant per way the chain can end. */
  datatype ScanOutcome =
    | InvalidFormat
    | MissingTicketId
    | WrongParty(qrPartyId: Option<string>, selectedPartyId: string)
    | NotFound(ticketId: string)
    | PaymentIncomplete
    | FullyUsed(quantityPurchased: int)
    | Proceed(ticketId: string)

  /** The validation chain of the scan handler, in source order. */
  function Validate(payload: Option<TicketToken.Payload>, selected: Option<string>,
                    tickets: map<string, TicketRow>): ScanOutcome
  {
    if payload.None? then InvalidFormat
    else if !Truthy(payload.value.ticketId) then MissingTicketId
    else if Truthy(selected) && StringOf(payload.value.partyId) != selected.value then
      WrongParty(payload.value.partyId, selected.value)
    else
      var id := payload.value.ticketId.value;
      if id !in tickets then NotFound(id)
      else if tickets[id].paymentStatus != "completed" then PaymentIncomplete
      else if tickets[id].quantityUsed >= tickets[id].quantityPurchased then
        FullyUsed(tickets[id].quantityPurchased)
      else Proceed(id)
  }

  // ---------------------------------------------------------------------------
  // The order of the checks
  // ---------------------------------------------------------------------------

  /**
   * An unparseable text gives InvalidFormat and a parsed one without a
   * non-empty ticket id gives MissingTicketId, whatever party is selected and
   * whatever the ticket table holds.
   */
  lemma EarlyRejections(payload: Option<TicketToken.Payload>, selected: Option<string>,
                        tickets: map<string, TicketRow>, selected': Option<string>,
                        tickets': map<string, TicketRow>)
    ensures payload.None? ==> Validate(payload, selected, tickets) == InvalidFormat
    ensures payload.Some? && !Truthy(payload.value.ticketId) ==>
      Validate(payload, selected, tickets) == MissingTicketId
    ensures payload.None? || !Truthy(payload.value.ticketId) ==>
      Validate(payload, selected, tickets) == Validate(payload, selected', tickets')
  {
  }

  /**
   * The party check runs only when a party is selected; a mismatch between
   * `String(partyId)` and the selection is rejected whatever the ticket table
   * holds, and with no selection the token's party is never looked at.
   */
  lemma PartyCheck(p: TicketToken.Payload, selected: Option<string>, tickets: map<string, TicketRow>,
                   tickets': map<string, TicketRow>, otherPartyId: Option<string>)
    requires Truthy(p.ticketId)
    ensures Truthy(selected) && StringOf(p.partyId) != selected.value ==>
      Validate(Some(p), selected, tickets) == WrongParty(p.partyId, selected.value)
      && Validate(Some(p), selected, tickets) == Validate(Some(p), selected, tickets')
    ensures !Truthy(selected) ==>
      !Validate(Some(p), selected, tickets).WrongParty?
      && Validate(Some(p), selected, tickets) == Validate(Some(p.(partyId := otherPartyId)), selected, tickets)
  {
  }

  /**
   * Past the party check: a missing ticket gives NotFound, an unpaid one
   * PaymentIncomplete whatever its usage, and a paid one with every entry
   * used FullyUsed.
   */
  lemma TicketChecks(p: TicketToken.Payload, selected: Option<string>, tickets: map<string, TicketRow>, used': int)
    requires Truthy(p.ticketId)
    requires !Truthy(selected) || StringOf(p.partyId) == selected.value
    ensures var id := p.ticketId.value;
      && (id !in tickets ==> Validate(Some(p), selected, tickets) == NotFound(id))
      && (id in tickets && tickets[id].paymentStatus != "completed" ==>
            Validate(Some(p), selected, tickets) == PaymentIncomplete
            && Validate(Some(p), selected, tickets[id := tickets[id].(quantityUsed := used')]) == PaymentIncomplete)
      && (id in tickets && tickets[id].paymentStatus == "completed"
            && tickets[id].quantityUsed >= tickets[id].quantityPurchased ==>
            Validate(Some(p), selected, tickets) == FullyUsed(tickets[id].quantityPurchased))
  {
  }

  /** The check-in is reached exactly when every earlier check passes. */
  lemma ProceedExactly(payload: Option<TicketToken.Payload>, selected: Option<string>,
                       tickets: map<string, TicketRow>, id: string)
    ensures Validate(payload, selected, tickets) == Proceed(id) <==>
      && payload.Some? && payload.value.ticketId == Some(id) && id != ""
      && (Truthy(selected) ==> StringOf(payload.value.partyId) == selected.value)
      && id in tickets
      && tickets[id].paymentStatus == "completed"
      && tickets[id].quantityUsed < tickets[id].quantityPurchased
  {
  }

  /** The token's `userId` is read but never checked: it does not affect the outcome. */
  lemma UserIdIgnored(p: TicketToken.Payload, userId: Option<string>, selected: Option<string>,
                      tickets: map<string, TicketRow>)
    ensures Validate(Some(p), selected, tickets) == Validate(Some(p.(userId := userId)), selected, tickets)
  {
  }

  /**
   * Scanning a holder's QR text for a ticket the table holds as paid: with no
   * party selected or its own party selected it proceeds unless every entry
   * is used; with another party selected it is rejected as the wrong party.
   */
  lemma ScanIssuedToken(ticketId: string, partyId: string, userId: Option<string>,
                        selected: Option<string>, tickets: map<string, TicketRow>)
    requires ticketId != "" && ticketId in tickets && tickets[ticketId].paymentStatus == "completed"
    ensures var outcome := Validate(TicketToken.Decode(TicketToken.Encode(ticketId, partyId, userId)), selected, tickets);
      && (!Truthy(selected) || selected.value == partyId ==>
            outcome == (if tickets[ticketId].quantityUsed >= tickets[ticketId].quantityPurchased
                        then FullyUsed(tickets[ticketId].quantityPurchased) else Proceed(ticketId)))
      && (Truthy(selected) && selected.value != partyId ==> outcome == WrongParty(Some(partyId), selected.value))
  {
    TicketToken.DecodeEncode(ticketId, partyId, userId);
  }

  // ---------------------------------------------------------------------------
  // Messages
  // ---------------------------------------------------------------------------

  /** Which of the seven outcomes this is. */
  function Kind(o: ScanOutcome): nat
  {
    match o
    case InvalidFormat => 0
    case MissingTicketId => 1
    case WrongParty(_, _) => 2
    case NotFound(_) => 3
    case PaymentIncomplete => 4
    case FullyUsed(_) => 5
    case Proceed(_) => 6
  }

  /** A party title as the mismatch message shows it: "undefined" when the lookup finds nothing. */
  function TitleOf(titles: map<string, string>, id: Option<string>): string
  {
    if id.Some? && id.value in titles then titles[id.value] else "undefined"
  }

  /** `s.substring(0, 8)`. */
  function Prefix8(s: string): string
  {
    if |s| <= 8 then s else s[..8]
  }

  /**
   * The text shown for a rejected scan. The mismatch message names both
   * parties by title, looked up in `titles`.
   */
  function RejectionMessage(o: ScanOutcome, titles: map<string, string>): string
    requires !o.Proceed?
  {
    match o
    case InvalidFormat => "Invalid QR code format"
    case MissingTicketId => "Invalid QR code - missing ticket ID"
    case WrongParty(qr, sel) =>
      "This ticket is for \"" + TitleOf(titles, qr) + "\" not \"" + TitleOf(titles, Some(sel)) + "\""
    case NotFound(id) => "Ticket not found. ID: " + Prefix8(id) + "..."
    case PaymentIncomplete => "Ticket payment not completed"
    case FullyUsed(n) => "All " + Decimal.IntToString(n) + " entries have been used"
  }

  /** Rejections of different kinds are shown with different messages. */
  lemma MessagesDistinguishKinds(o1: ScanOutcome, o2: ScanOutcome, titles: map<string, string>)
    requires !o1.Proceed? && !o2.Proceed? && Kind(o1) != Kind(o2)
    ensures RejectionMessage(o1, titles) != RejectionMessage(o2, titles)
  {
    MessageMarks(o1, titles);
    MessageMarks(o2, titles);
  }

  /** Three characters that tell the six messages apart. */
  lemma MessageMarks(o: ScanOutcome, titles: map<string, string>)
    requires !o.Proceed?
    ensures var m := RejectionMessage(o, titles);
      |m| > 16
      && (o.InvalidFormat? ==> m[0] == 'I' && m[16] == 'f')
      && (o.MissingTicketId? ==> m[0] == 'I' && m[16] == '-')
      && (o.WrongParty? ==> m[0] == 'T' && m[1] == 'h')
      && (o.NotFound? ==> m[0] == 'T' && m[1] == 'i' && m[7] == 'n')
      && (o.PaymentIncomplete? ==> m[0] == 'T' && m[1] == 'i' && m[7] == 'p')
      && (o.FullyUsed? ==> m[0] == 'A')
  {
  }

  // ---------------------------------------------------------------------------
  // The scanner screen's state
  // ---------------------------------------------------------------------------

  /**
   * The scanner's state: the `scanLock` ref, the `scanning` flag, the shown
   * result and the party chosen for scanning.
   */
  class DoorScanner {
    var scanLock: bool
    var scanning: bool
    var scanResult: Option<ScanOutcome>
    var selectedParty: Option<string>

    constructor ()
      ensures !scanLock && !scanning && scanResult == None && selectedParty == None
    {
      scanLock, scanning, scanResult, selectedParty := false, false, None, None;
    }

    /** Picking a party in the dropdown. */
    method SelectParty(partyId: string)
      modifies this`selectedParty
      ensures selectedParty == Some(partyId)
    {
      selectedParty := Some(partyId);
    }

    /** The end of loading the host's data: the first upcoming party is chosen if none is. */
    method AutoSelect(ps: seq<HostSales.PartyWithTiers>, now: int)
      modifies this`selectedParty
      ensures selectedParty == HostSales.AutoSelection(ps, now, old(selectedParty))
    {
      var upcoming := Schedule.Upcoming(ps, HostSales.PartyDate, now);
      if |upcoming| > 0 && !Truthy(selectedParty) {
        selectedParty := Some(upcoming[0].party.id);
      }
    }

    /**
     * A scan of `data`. While the lock is set nothing happens. Otherwise the
     * lock and the scanning flag are set and the checks run in order, the
     * first that fails deciding the shown result; the lock stays set until
     * `Unlock`.
     */
    method HandleScan(data: string, tickets: map<string, TicketRow>)
      modifies this`scanLock, this`scanning, this`scanResult
      ensures old(scanLock) ==> scanLock && scanning == old(scanning) && scanResult == old(scanResult)
      ensures !old(scanLock) ==>
        scanLock && scanning && scanResult == Some(Validate(TicketToken.Decode(data), selectedParty, tickets))
    {
      if scanLock {
        return;
      }
      scanLock := true;
      scanning := true;

      var qrData := TicketToken.Decode(data);
      if qrData.None? {
        scanResult := Some(InvalidFormat);
        return;
      }
      var ticketId, partyId := qrData.value.ticketId, qrData.value.partyId;
      if !Truthy(ticketId) {
        scanResult := Some(MissingTicketId);
        return;
      }
      if Truthy(selectedParty) {
        var qrPartyId := StringOf(partyId);
        var selectedPartyId := selectedParty.value;
        if qrPartyId != selectedPartyId {
          scanResult := Some(WrongParty(partyId, selectedPartyId));
          return;
        }
      }
      var id := ticketId.value;
      if id !in tickets {
        scanResult := Some(NotFound(id));
        return;
      }
      var ticket := tickets[id];
      if ticket.paymentStatus != "completed" {
        scanResult := Some(PaymentIncomplete);
        return;
      }
      if ticket.quantityUsed >= ticket.quantityPurchased {
        scanResult := Some(FullyUsed(ticket.quantityPurchased));
        return;
      }
      scanResult := Some(Proceed(id));
    }

    /** The delayed callback of the handler's `finally`: the scanner is ready again. */
    method Unlock()
      modifies this`scanLock, this`scanning
      ensures !scanLock && !scanning
    {
      scanning := false;
      scanLock := false;
    }
  }
}
