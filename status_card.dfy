/** The request-status dashboard a requestee sees: a card per request with
    its status and priority badges, guest count, first arrival date and
    service lines, and a detail dialog listing the legs in order. The legs
    are sorted in place on the request itself whenever a card or the dialog
    shows them. */
module StatusCard {
  import opened Text
  import opened LegOrder
  import opened Requests

  // ---------------------------------------------------------------------------
  // Badges

  datatype StatusIcon = Timer | CheckCircle | XCircle | Person
  datatype Tone = Yellow | Green | Red | Blue | Purple

  /** One entry of the status table: its icon and colour. */
  datatype StatusStyle = StatusStyle(icon: StatusIcon, tone: Tone)

  datatype StatusBadge = StatusBadge(style: StatusStyle, caption: string)

  const KnownStatuses: seq<string> := ["pending", "approved", "rejected", "completed", "assigned"]

  /** The entry of the status table for `status`, if the table has one. */
  function StatusEntry(status: string): (e: Option<StatusStyle>)
    ensures e.Some? <==> status in KnownStatuses
  {
    if status == "pending" then Some(StatusStyle(Timer, Yellow))
    else if status == "approved" then Some(StatusStyle(CheckCircle, Green))
    else if status == "rejected" then Some(StatusStyle(XCircle, Red))
    else if status == "completed" then Some(StatusStyle(CheckCircle, Blue))
    else if status == "assigned" then Some(StatusStyle(Person, Purple))
    else None
  }

  /** The status badge: the table's style, pending's style for a status the
      table does not know, and the status itself with its first letter
      upper-cased as the label. */
  function GetStatusBadge(status: string): (b: StatusBadge)
    ensures status in KnownStatuses ==> Some(b.style) == StatusEntry(status)
    ensures status !in KnownStatuses ==> Some(b.style) == StatusEntry("pending")
    ensures |b.caption| == |status|
    ensures |status| > 0 ==> b.caption[0] == UpperAscii(status[0]) && b.caption[1..] == status[1..]
  {
    var style := match StatusEntry(status)
      case Some(s) => s
      case None => StatusStyle(Timer, Yellow);
    StatusBadge(style, Capitalize(status))
  }

  /** A status the table does not know looks like a pending one but keeps
      its own name. */
  lemma UnknownStatusLooksPending()
    ensures GetStatusBadge("on-hold").style == GetStatusBadge("pending").style
    ensures GetStatusBadge("on-hold").caption == "On-hold"
  {
    assert "on-hold" !in KnownStatuses;
  }

  datatype PriorityBadge = PriorityBadge(tone: Tone, caption: string)

  const KnownPriorities: seq<string> := ["high", "medium", "low"]

  function PriorityEntry(key: string): (t: Option<Tone>)
    ensures t.Some? <==> key in KnownPriorities
  {
    if key == "high" then Some(Red)
    else if key == "medium" then Some(Yellow)
    else if key == "low" then Some(Green)
    else None
  }

  /** The priority badge: a missing, empty or unknown priority takes
      medium's colour; a missing or empty one is labelled "Normal", any other
      is shown with its first letter upper-cased. */
  function GetPriorityBadge(priority: Option<string>): (b: PriorityBadge)
    ensures Truthy(priority) && priority.value in KnownPriorities ==> Some(b.tone) == PriorityEntry(priority.value)
    ensures !(Truthy(priority) && priority.value in KnownPriorities) ==> Some(b.tone) == PriorityEntry("medium")
    ensures !Truthy(priority) ==> b.caption == "Normal"
    ensures Truthy(priority) ==> b.caption == Capitalize(priority.value) && |b.caption| == |priority.value|
  {
    var key := if Truthy(priority) then priority.value else "";
    var tone := match PriorityEntry(key)
      case Some(t) => t
      case None => Yellow;
    PriorityBadge(tone, if Truthy(priority) then Capitalize(priority.value) else "Normal")
  }

  // ---------------------------------------------------------------------------
  // Dates and times

  /** What `formatDate` shows: "N/A", or the locale rendering of a date. */
  datatype DateView = NotAvailable | Localized(source: string)

  function FormatDate(date: Option<string>): (v: DateView)
    ensures v == NotAvailable <==> !Truthy(date)
    ensures v.Localized? ==> Some(v.source) == date
  {
    if !Truthy(date) then NotAvailable else Localized(date.value)
  }

  /** The twelve-hour clock hour of `hour % 12 || 12`; `NaN` falls back to 12. */
  function TwelveHour(hour: Option<int>): (h: int)
    ensures hour.Some? && hour.value >= 0 ==> 1 <= h <= 12
    ensures hour.Some? ==> h == 12 || h == JsRem(hour.value, 12)
    ensures hour.Some? ==> (hour.value - h) % 12 == 0
    ensures hour.None? ==> h == 12
  {
    match hour
    case None => 12
    case Some(n) => if JsRem(n, 12) == 0 then 12 else JsRem(n, 12)
  }

  /** `formatTime`: "" for a missing or empty time; otherwise the hour before
      the first colon read with `parseInt` and put on the twelve-hour clock,
      the text after it copied as the minutes ("undefined" when there is no
      colon), and "PM" exactly when the hour is 12 or more. */
  function FormatTime(time: Option<string>): (s: string)
    ensures !Truthy(time) ==> s == ""
  {
    if !Truthy(time) then ""
    else
      var parts := SplitOn(time.value, ':');
      var hour := ParseInt(parts[0]);
      var minutes := if |parts| >= 2 then parts[1] else "undefined";
      var ampm := if hour.Some? && hour.value >= 12 then "PM" else "AM";
      IntToString(TwelveHour(hour)) + ":" + minutes + " " + ampm
  }

  /** "AM" or "PM" of a 24-hour clock hour. */
  function Meridiem(hour: nat): string {
    if hour >= 12 then "PM" else "AM"
  }

  /** A 24-hour clock hour and its minutes on the twelve-hour clock. */
  function TwelveHourClock(hour: nat, minutes: string): string {
    NatToString(if hour % 12 == 0 then 12 else hour % 12) + ":" + minutes + " " + Meridiem(hour)
  }

  /** An `HH:mm` time is shown as its hour on the twelve-hour clock, its two
      minute digits unchanged, and the half of the day its hour falls in. */
  lemma FormatTimeOfShapedTime(t: string)
    requires TimeShape(t)
    ensures FormatTime(Some(t)) == TwelveHourClock(DecimalValue(t[0..2]), t[3..5])
  {
    var hours, minutes := t[0..2], t[3..5];
    assert t == hours + [':'] + minutes;
    SplitOnFirstPiece(hours, ':', minutes);
    SplitOnAbsent(minutes, ':');
    var hour := DecimalValue(hours);
    assert ParseInt(hours) == Some(hour);
    var h := TwelveHour(Some(hour));
    assert h == if hour % 12 == 0 then 12 else hour % 12;
    assert IntToString(h) == NatToString(h);
  }

  /** The twelve-hour form loses nothing: the hour and the half of the day
      give back the 24-hour clock hour. */
  lemma TwelveHourRoundTrip(hour: nat)
    requires hour < 24
    ensures var h := if hour % 12 == 0 then 12 else hour % 12;
      hour == h % 12 + (if Meridiem(hour) == "PM" then 12 else 0)
  {
  }

  /** Any minute of the midnight hour ("00:mm") is shown as "12:mm AM". */
  lemma MidnightHour(t: string)
    requires TimeShape(t) && DecimalValue(t[0..2]) == 0
    ensures FormatTime(Some(t)) == "12" + ":" + t[3..5] + " " + "AM"
  {
    FormatTimeOfShapedTime(t);
    TwelveOClock(0, t[3..5]);
  }

  /** Any minute of the noon hour ("12:mm") is shown as "12:mm PM". */
  lemma NoonHour(t: string)
    requires TimeShape(t) && DecimalValue(t[0..2]) == 12
    ensures FormatTime(Some(t)) == "12" + ":" + t[3..5] + " " + "PM"
  {
    FormatTimeOfShapedTime(t);
    TwelveOClock(12, t[3..5]);
  }

  /** Hours 0 and 12 both read "12" on the twelve-hour clock. */
  lemma TwelveOClock(hour: nat, minutes: string)
    requires hour == 0 || hour == 12
    ensures TwelveHourClock(hour, minutes) == "12" + ":" + minutes + " " + Meridiem(hour)
  {
    assert NatToString(1) == "1";
  }

  // ---------------------------------------------------------------------------
  // Legs

  datatype ModeIcon = Plane | Train | Car | MapPin

  /** The icon of a travel mode; anything but the three modes gets the pin. */
  function GetModeIcon(mode: string): (i: ModeIcon)
    ensures i == Plane <==> mode == "BYAIR"
    ensures i == Train <==> mode == "BYRAIL"
    ensures i == Car <==> mode == "BYROAD"
  {
    match mode
    case "BYAIR" => Plane
    case "BYRAIL" => Train
    case "BYROAD" => Car
    case _ => MapPin
  }

  /** The mode as the dialog writes it: the first "BY" removed. */
  function ModeLabel(mode: string): (s: string)
    ensures |mode| >= 2 && mode[..2] == "BY" ==> s == mode[2..]
  {
    assert |mode| >= 2 && mode[..2] == "BY" ==> OccursAt(mode, "BY", 0);
    ReplaceFirst(mode, "BY", "")
  }

  lemma ModeLabels()
    ensures ModeLabel("BYAIR") == "AIR" && ModeLabel("BYRAIL") == "RAIL" && ModeLabel("BYROAD") == "ROAD"
  {
    assert "BYAIR"[..2] == "BY" && "BYRAIL"[..2] == "BY" && "BYROAD"[..2] == "BY";
  }

  /** Sorts the request's legs in place by `leg_order` and returns them: the
      request itself ends up holding the sorted legs. */
  method SortJourneys(r: Request) returns (legs: seq<JourneyDetail>)
    modifies LegsFrame(r)
    ensures r.journeyDetails.None? ==> legs == []
    ensures r.journeyDetails.Some? ==>
      && legs == r.journeyDetails.value[..] == SortBy(old(r.journeyDetails.value[..]), LegKey)
      && SortedBy(legs, LegKey)
      && multiset(legs) == multiset(old(r.journeyDetails.value[..]))
  {
    match r.journeyDetails
    case None => legs := [];
    case Some(a) =>
      SortInPlace(a, LegKey);
      legs := a[..];
      SortBySorted(old(a[..]), LegKey);
      SortByPermutation(old(a[..]), LegKey);
  }

  /** The card's first journey: the head of the stably sorted legs, hence a
      leg of least `leg_order` (the earliest listed among tied ones), none
      when the request has no legs. The legs are left sorted. */
  method FirstJourney(r: Request) returns (first: Option<JourneyDetail>)
    modifies LegsFrame(r)
    ensures first.Some? <==> r.journeyDetails.Some? && r.journeyDetails.value.Length > 0
    ensures first.Some? ==>
      && first.value in old(r.journeyDetails.value[..])
      && forall y :: y in old(r.journeyDetails.value[..]) ==> LegKey(first.value) <= LegKey(y)
    ensures first.Some? ==> first.value == r.journeyDetails.value[0] == SortBy(old(r.journeyDetails.value[..]), LegKey)[0]
    ensures r.journeyDetails.Some? ==> r.journeyDetails.value[..] == SortBy(old(r.journeyDetails.value[..]), LegKey)
  {
    var legs := SortJourneys(r);
    if legs == [] {
      first := None;
    } else {
      SortByFirstIsMinimal(old(r.journeyDetails.value[..]), LegKey);
      first := Some(legs[0]);
    }
  }

  /** The date line of a card: shown only for a request with a first leg. */
  function CardArrival(first: Option<JourneyDetail>): (v: Option<DateView>)
    ensures v.Some? <==> first.Some?
    ensures first.Some? ==> v == Some(FormatDate(first.value.arrivalDate))
  {
    match first
    case None => None
    case Some(j) => Some(FormatDate(j.arrivalDate))
  }

  // ---------------------------------------------------------------------------
  // Counts and lines

  /** The latest assignment is the first entry of the list, if any. */
  function LatestAssignment(r: Request): (a: Option<ProtocolAssignment>)
    ensures a.Some? <==> r.protocolAssignments.Some? && |r.protocolAssignments.value| > 0
    ensures a.Some? ==> a.value == r.protocolAssignments.value[0]
  {
    match r.protocolAssignments
    case Some(list) => if |list| > 0 then Some(list[0]) else None
    case None => None
  }

  /** `guestUsers?.length || 0` */
  function GuestCount(r: Request): (n: nat)
    ensures r.guestUsers.None? ==> n == 0
    ensures r.guestUsers.Some? ==> n == |r.guestUsers.value|
  {
    match r.guestUsers
    case Some(g) => |g|
    case None => 0
  }

  /** The vehicles line appears exactly when the request has a vehicle. */
  function ShowsVehicles(r: Request): (b: bool)
    ensures b <==> exists v :: r.vehicleRequests.Some? && v in r.vehicleRequests.value
  {
    if r.vehicleRequests.Some? && |r.vehicleRequests.value| > 0 then
      assert r.vehicleRequests.value[0] in r.vehicleRequests.value;
      true
    else false
  }

  /** The accommodation line appears exactly when the request has a
      guesthouse booking. */
  function ShowsAccommodation(r: Request): (b: bool)
    ensures b <==> exists g :: r.guesthouseRequests.Some? && g in r.guesthouseRequests.value
  {
    if r.guesthouseRequests.Some? && |r.guesthouseRequests.value| > 0 then
      assert r.guesthouseRequests.value[0] in r.guesthouseRequests.value;
      true
    else false
  }

  // ---------------------------------------------------------------------------
  // Selection

  /** The dashboard's dialog state. */
  class RequestDashboard {
    const data: seq<Request>
    var selectedRequest: Option<Request>
    var isModalOpen: bool

    constructor(data: seq<Request>)
      ensures this.data == data
      ensures selectedRequest == None && !isModalOpen
    {
      this.data := data;
      selectedRequest := None;
      isModalOpen := false;
    }

    /** Clicking a card selects its request and opens the dialog. */
    method CardClick(r: Request)
      modifies this
      ensures selectedRequest == Some(r) && isModalOpen
    {
      selectedRequest := Some(r);
      isModalOpen := true;
    }

    /** Closing the dialog keeps the selection. */
    method CloseModal()
      modifies this
      ensures !isModalOpen && selectedRequest == old(selectedRequest)
    {
      isModalOpen := false;
    }
  }
}
