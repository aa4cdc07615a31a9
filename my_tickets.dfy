/**
 * The ticket holder's screen: the QR text of each ticket card, its status
 * badge and usage colour, the upcoming/past tabs, the single expanded card
 * and the 12-hour time shown for the event. The holder's tickets are an
 * input list (the query keeps only the holder's paid tickets); dates are
 * integer timestamps, and the event time is given as its hour and minute.
 */
module MyTickets {

  import opened Wrappers
  import TicketToken
  import Schedule
  import Decimal
  import DoorScan
  import JsValues

  /** A ticket row with its party's date. */
  datatype HeldTicket = HeldTicket(id: string, partyId: string, paymentStatus: string,
                                   quantityPurchased: int, quantityUsed: int, partyDate: int)

  // ---------------------------------------------------------------------------
  // QR payload
  // ---------------------------------------------------------------------------

  /** `JSON.stringify({ ticketId: ticket.id, partyId: ticket.party_id, userId: user?.id })`. */
  function QrValue(t: HeldTicket, userId: Option<string>): string
  {
    TicketToken.Encode(t.id, t.partyId, userId)
  }

  /** The scanner reads back exactly the ticket's id, its party and the holder's id. */
  lemma QrValueDecodes(t: HeldTicket, userId: Option<string>)
    ensures TicketToken.Decode(QrValue(t, userId)) == Some(TicketToken.Payload(Some(t.id), Some(t.partyId), userId))
  {
    TicketToken.DecodeEncode(t.id, t.partyId, userId);
  }

  // ---------------------------------------------------------------------------
  // Status badge and usage colour
  // ---------------------------------------------------------------------------

  datatype Badge = Attended | FullyUsed | ValidTicket

  datatype Colour = Red | Green

  predicate IsPast(t: HeldTicket, now: int) {
    t.partyDate < now
  }

  predicate AllEntriesUsed(t: HeldTicket) {
    t.quantityUsed >= t.quantityPurchased
  }

  function StatusBadge(t: HeldTicket, now: int): Badge
  {
    if IsPast(t, now) then Attended
    else if AllEntriesUsed(t) then FullyUsed
    else ValidTicket
  }

  /** The colour of the "Check-ins Used" figure. */
  function CheckInsColour(t: HeldTicket): Colour
  {
    if AllEntriesUsed(t) then Red else Green
  }

  /**
   * A past event shows ATTENDED whatever its usage; an event still to come
   * shows FULLY USED exactly when the check-ins figure is red, VALID TICKET
   * exactly when it is green.
   */
  lemma BadgePrecedence(t: HeldTicket, now: int, used': int)
    ensures IsPast(t, now) ==> StatusBadge(t, now) == Attended && StatusBadge(t.(quantityUsed := used'), now) == Attended
    ensures !IsPast(t, now) ==> (StatusBadge(t, now) == FullyUsed <==> CheckInsColour(t) == Red)
    ensures !IsPast(t, now) ==> (StatusBadge(t, now) == ValidTicket <==> CheckInsColour(t) == Green)
    ensures StatusBadge(t, now) == Attended <==> IsPast(t, now)
  {
  }

  /** The row the scanner reads for this ticket. */
  function Row(t: HeldTicket): DoorScan.TicketRow
  {
    DoorScan.TicketRow(t.paymentStatus, t.quantityUsed, t.quantityPurchased)
  }

  /**
   * Holder and door agree: when the scanner scans this card's QR text, with
   * no party selected or the ticket's own party selected and the table
   * holding this paid ticket, it proceeds to check-in exactly when the card's
   * check-ins figure is green, and reports every entry used exactly when it
   * is red.
   */
  lemma HolderAndDoorAgree(t: HeldTicket, userId: Option<string>, selected: Option<string>,
                           tickets: map<string, DoorScan.TicketRow>)
    requires t.id != "" && t.paymentStatus == "completed"
    requires t.id in tickets && tickets[t.id] == Row(t)
    requires !JsValues.Truthy(selected) || selected.value == t.partyId
    ensures var outcome := DoorScan.Validate(TicketToken.Decode(QrValue(t, userId)), selected, tickets);
      (outcome == DoorScan.Proceed(t.id) <==> CheckInsColour(t) == Green)
      && (outcome == DoorScan.FullyUsed(t.quantityPurchased) <==> CheckInsColour(t) == Red)
  {
    DoorScan.ScanIssuedToken(t.id, t.partyId, userId, selected, tickets);
  }

  // ---------------------------------------------------------------------------
  // Tabs
  // ---------------------------------------------------------------------------

  datatype Tab = UpcomingTab | PastTab

  function TicketDate(t: HeldTicket): int { t.partyDate }

  function Tabs(ts: seq<HeldTicket>, now: int): Schedule.Split<HeldTicket>
  {
    Schedule.SplitAt(ts, TicketDate, now)
  }

  /** The list the active tab shows. */
  function CurrentTickets(ts: seq<HeldTicket>, tab: Tab, now: int): seq<HeldTicket>
  {
    var s := Tabs(ts, now);
    if tab == UpcomingTab then s.upcoming else s.past
  }

  /**
   * The two tabs partition the tickets: the upcoming tab lists exactly the
   * tickets whose event has not started, the past tab the others; every card
   * on the past tab shows ATTENDED and no card on the upcoming tab does.
   */
  lemma TabsPartition(ts: seq<HeldTicket>, now: int)
    ensures var s := Tabs(ts, now);
      multiset(s.upcoming) + multiset(s.past) == multiset(ts)
      && (forall t :: t in CurrentTickets(ts, UpcomingTab, now) <==> t in ts && t.partyDate >= now)
      && (forall t :: t in CurrentTickets(ts, PastTab, now) <==> t in ts && t.partyDate < now)
      && (forall t :: t in CurrentTickets(ts, PastTab, now) ==> StatusBadge(t, now) == Attended)
      && (forall t :: t in CurrentTickets(ts, UpcomingTab, now) ==> StatusBadge(t, now) != Attended)
  {
    Schedule.SplitPartitions(ts, TicketDate, now);
  }

  /**
   * As written, the tab filters and each card's badge read the clock on their
   * own: a ticket whose event starts at or after the upcoming filter's
   * reading for it but before its card's reading is listed on the upcoming
   * tab with the ATTENDED badge.
   */
  lemma CardReadingAsWritten(ts: seq<HeldTicket>, upClock: seq<int>, pastClock: seq<int>, i: nat, cardNow: int)
    requires |upClock| == |ts| && |pastClock| == |ts| && i < |ts|
    requires upClock[i] <= ts[i].partyDate < cardNow
    ensures ts[i] in Schedule.SplitAsWritten(ts, TicketDate, upClock, pastClock).upcoming
    ensures StatusBadge(ts[i], cardNow) == Attended
  {
    Schedule.AsReadKeeps(ts, TicketDate, upClock, i);
  }

  // ---------------------------------------------------------------------------
  // Expanded card
  // ---------------------------------------------------------------------------

  /** `setExpandedTicket(isExpanded ? null : ticket.id)` on a tap of card `tapped`. */
  function ToggleExpanded(expanded: Option<string>, tapped: string): Option<string>
  {
    if expanded == Some(tapped) then None else Some(tapped)
  }

  /**
   * After a tap, a card is expanded exactly when it is the tapped card and
   * that card was not expanded before: tapping the open card closes it,
   * tapping any other card makes it the only open one.
   */
  lemma ToggleRule(expanded: Option<string>, tapped: string, card: string)
    ensures ToggleExpanded(expanded, tapped) == Some(card) <==> card == tapped && expanded != Some(tapped)
    ensures ToggleExpanded(expanded, tapped) == None <==> expanded == Some(tapped)
    ensures ToggleExpanded(ToggleExpanded(None, tapped), tapped) == None
  {
  }

  // ---------------------------------------------------------------------------
  // 12-hour clock
  // ---------------------------------------------------------------------------

  type Hour = h: int | 0 <= h < 24
  type Minute = m: int | 0 <= m < 60

  /** `hours % 12 || 12`. */
  function DisplayHour(h: Hour): (d: int)
    ensures 1 <= d <= 12 && d % 12 == h % 12
  {
    if h % 12 == 0 then 12 else h % 12
  }

  function Meridiem(h: Hour): string
  {
    if h >= 12 then "PM" else "AM"
  }

  /** `s.padStart(2, "0")`. */
  function PadStart2(s: string): string
  {
    if |s| >= 2 then s else seq(2 - |s|, _ => '0') + s
  }

  function FormatTime(h: Hour, m: Minute): string
  {
    Decimal.NatToString(DisplayHour(h)) + ":" + PadStart2(Decimal.NatToString(m)) + " " + Meridiem(h)
  }

  /**
   * The shape of the formatted time: the hour in 1..12 without padding, a
   * colon, the minutes as exactly two digits, a space, and "PM" exactly when
   * the hour is 12 or later.
   */
  lemma FormatTimeLayout(h: Hour, m: Minute)
    ensures var s := FormatTime(h, m); var n := |s|;
      (n == 7 || n == 8)
      && Decimal.ParseNat(s[..n - 6]) == Some(DisplayHour(h))
      && s[n - 6] == ':'
      && Decimal.ParseNat(s[n - 5..n - 3]) == Some(m)
      && s[n - 3] == ' '
      && (s[n - 2..] == "PM" <==> h >= 12)
      && (s[n - 2..] == "AM" <==> h < 12)
  {
    var hourText := Decimal.NatToString(DisplayHour(h));
    var minuteText := PadStart2(Decimal.NatToString(m));
    assert FormatTime(h, m) == hourText + ":" + minuteText + " " + Meridiem(h);
    Decimal.ParseNatToString(DisplayHour(h));
    Decimal.NatToStringShape(DisplayHour(h));
    MinutesPadded(m);
    MeridiemRule(h);
    LayoutSlices(hourText, minuteText, Meridiem(h), h, m);
  }

  /** Where the pieces of `a + ":" + b + " " + c` sit, and what they read as. */
  lemma LayoutSlices(a: string, b: string, c: string, h: Hour, m: Minute)
    requires |a| == 1 || |a| == 2
    requires Decimal.ParseNat(a) == Some(DisplayHour(h))
    requires |b| == 2 && Decimal.ParseNat(b) == Some(m)
    requires |c| == 2 && (c == "PM" <==> h >= 12) && (c == "AM" <==> h < 12)
    ensures var s := a + ":" + b + " " + c; var n := |s|;
      (n == 7 || n == 8)
      && Decimal.ParseNat(s[..n - 6]) == Some(DisplayHour(h))
      && s[n - 6] == ':'
      && Decimal.ParseNat(s[n - 5..n - 3]) == Some(m)
      && s[n - 3] == ' '
      && (s[n - 2..] == "PM" <==> h >= 12)
      && (s[n - 2..] == "AM" <==> h < 12)
  {
    var s := a + ":" + b + " " + c;
    assert s == a + ([':'] + b + [' '] + c);
    var n := |s|;
    assert s[..n - 6] == a;
    assert s[n - 5..n - 3] == b;
    assert s[n - 2..] == c;
  }

  lemma MeridiemRule(h: Hour)
    ensures |Meridiem(h)| == 2
    ensures Meridiem(h) == "PM" <==> h >= 12
    ensures Meridiem(h) == "AM" <==> h < 12
  {
    assert "AM" != "PM" by { assert "AM"[0] != "PM"[0]; }
  }

  lemma MinutesPadded(m: Minute)
    ensures |PadStart2(Decimal.NatToString(m))| == 2
    ensures Decimal.ParseNat(PadStart2(Decimal.NatToString(m))) == Some(m)
  {
    var t := Decimal.NatToString(m);
    Decimal.NatToStringShape(m);
    Decimal.ParseNatToString(m);
    if m < 10 {
      assert t == [Decimal.DigitChar(m)];
      assert seq(1, _ => '0') == ['0'];
      assert PadStart2(t) == ['0', Decimal.DigitChar(m)];
      Decimal.ParseZeroPadded(m);
    } else {
      assert m / 10 < 10;
      assert |t| == 2;
    }
  }

  /** Reads a time shown as "H:MM AM" or "H:MM PM" back into its hour and minute. */
  function ReadTime(s: string): Option<(Hour, Minute)>
  {
    var n := |s|;
    if n < 7 || s[n - 6] != ':' || s[n - 3] != ' ' then None
    else
      var suffix := s[n - 2..];
      var d, mm := Decimal.ParseNat(s[..n - 6]), Decimal.ParseNat(s[n - 5..n - 3]);
      if (suffix != "AM" && suffix != "PM") || d.None? || mm.None? then None
      else if !(1 <= d.value <= 12) || mm.value >= 60 then None
      else Some((d.value % 12 + (if suffix == "PM" then 12 else 0), mm.value))
  }

  /** The formatted time determines the time: reading it back gives the hour and minute. */
  lemma ReadFormatTime(h: Hour, m: Minute)
    ensures ReadTime(FormatTime(h, m)) == Some((h, m))
  {
    FormatTimeLayout(h, m);
    ReadLayout(FormatTime(h, m), h, m);
  }

  /** Any text laid out as a formatted time reads back as that time. */
  lemma ReadLayout(s: string, h: Hour, m: Minute)
    requires var n := |s|;
      (n == 7 || n == 8)
      && Decimal.ParseNat(s[..n - 6]) == Some(DisplayHour(h))
      && s[n - 6] == ':'
      && Decimal.ParseNat(s[n - 5..n - 3]) == Some(m)
      && s[n - 3] == ' '
      && (s[n - 2..] == "PM" <==> h >= 12)
      && (s[n - 2..] == "AM" <==> h < 12)
    ensures ReadTime(s) == Some((h, m))
  {
  }

  /** Two different times of day are never shown alike. */
  lemma FormatTimeInjective(h1: Hour, m1: Minute, h2: Hour, m2: Minute)
    requires FormatTime(h1, m1) == FormatTime(h2, m2)
    ensures h1 == h2 && m1 == m2
  {
    ReadFormatTime(h1, m1);
    ReadFormatTime(h2, m2);
  }
}
