/** The protocol in-charge's table of pending requests: one page of rows
    fetched from the server, with the route of each request, Previous/Next
    paging, and two dialogs, one to assign an officer to a request and one
    to add a vehicle, guesthouse or other service to it. The service forms
    are validated before any call; a failed validation shows the first
    message of each field. */
module PendingRequests {
  import opened Text
  import opened LegOrder
  import opened Requests
  import Api

  // ---------------------------------------------------------------------------
  // The route of a request

  /** The stops of a route: the first leg's origin, then every leg's
      destination. */
  function Stops(legs: seq<JourneyDetail>): (stops: seq<string>)
    requires |legs| > 0
    ensures |stops| == |legs| + 1
    ensures stops[0] == legs[0].fromLocation
    ensures forall i :: 0 <= i < |legs| ==> stops[i + 1] == legs[i].toLocation
  {
    [legs[0].fromLocation] + seq(|legs|, i requires 0 <= i < |legs| => legs[i].toLocation)
  }

  const ARROW := " → "

  /** The route text of a list of legs, read from a sorted copy: none
      without legs. */
  function RouteText(legs: seq<JourneyDetail>): Option<string> {
    var sorted := SortBy(legs, LegKey);
    if |sorted| == 0 then None else Some(Join(Stops(sorted), ARROW))
  }

  /** The Journey cell of a row: its route, or "N/A". */
  function JourneyCell(r: Request): string
    reads LegsFrame(r)
  {
    var legs := match Legs(r) case Some(l) => l case None => [];
    match RouteText(legs)
    case Some(t) => if t == "" then "N/A" else t
    case None => "N/A"
  }

  /** A request shows "N/A" exactly when it has no legs; otherwise its route
      starts with the origin of a leg of least `leg_order`, followed by the
      arrow, and lists one stop more than it has legs. */
  lemma JourneyCellShape(r: Request)
    ensures JourneyCell(r) == "N/A" <==> Legs(r).None? || |Legs(r).value| == 0
    ensures Legs(r).Some? && |Legs(r).value| > 0 ==>
      var legs := Legs(r).value;
      var sorted := SortBy(legs, LegKey);
      && |sorted| == |legs| && sorted[0] in legs
      && (forall y :: y in legs ==> LegKey(sorted[0]) <= LegKey(y))
      && RouteText(legs) == Some(JourneyCell(r))
      && |Stops(sorted)| == |legs| + 1
      && JourneyCell(r)[..|sorted[0].fromLocation| + |ARROW|] == sorted[0].fromLocation + ARROW
  {
    if Legs(r).Some? && |Legs(r).value| > 0 {
      var legs := Legs(r).value;
      var sorted := SortBy(legs, LegKey);
      SortByFirstIsMinimal(legs, LegKey);
      assert sorted[0] in multiset(legs);
      var stops := Stops(sorted);
      JoinHead(stops, ARROW);
      var t := Join(stops, ARROW);
      var head := t[..|stops[0]| + |ARROW|];
      assert head == stops[0] + ARROW;
      assert head[|stops[0]|] == ' ';
      assert ' ' in t;
      assert ' ' !in "N/A";
    }
  }

  // ---------------------------------------------------------------------------
  // The fetched page

  /** The `data` field of a response body. */
  datatype DataField = NoData | DataList(list: seq<Request>) | DataOther

  datatype Meta = Meta(total: Option<int>, totalPages: Option<int>)

  /** A response body: nothing, a bare array of rows, an object with `data`
      and `meta` fields, or some other value. */
  datatype Body =
    | NoBody
    | BareList(list: seq<Request>)
    | Envelope(data: DataField, meta: Option<Meta>)
    | Scalar

  /** `raw?.data ?? raw ?? []`, when it is an array. */
  function ListOf(b: Body): Option<seq<Request>> {
    match b
    case NoBody => Some([])
    case BareList(list) => Some(list)
    case Envelope(data, _) => if data.DataList? then Some(data.list) else None
    case Scalar => None
  }

  function MetaOf(b: Body): Option<Meta> {
    if b.Envelope? then b.meta else None
  }

  /** The rows shown: the list when it is an array, no rows otherwise. */
  function RowsOf(b: Body): (rows: seq<Request>)
    ensures ListOf(b).None? ==> rows == []
    ensures ListOf(b).Some? ==> rows == ListOf(b).value
  {
    match ListOf(b) case Some(l) => l case None => []
  }

  /** The total: the meta's, or 0 when it has none; without meta, the
      number of rows. */
  function TotalOf(b: Body): (n: int)
    ensures MetaOf(b).Some? ==> n == (if MetaOf(b).value.total.Some? then MetaOf(b).value.total.value else 0)
    ensures MetaOf(b).None? ==> n == |RowsOf(b)|
  {
    match MetaOf(b)
    case Some(m) => (match m.total case Some(t) => t case None => 0)
    case None => if ListOf(b).Some? then |ListOf(b).value| else 0
  }

  /** The page count: the meta's, or 1 when it has none; without meta, 1. */
  function PagesOf(b: Body): (n: int)
    ensures MetaOf(b).Some? && MetaOf(b).value.totalPages.Some? ==> n == MetaOf(b).value.totalPages.value
    ensures MetaOf(b).None? || MetaOf(b).value.totalPages.None? ==> n == 1
  {
    match MetaOf(b)
    case Some(m) => (match m.totalPages case Some(p) => p case None => 1)
    case None => 1
  }

  /** A body that is not a list, or whose `data` is not one, shows no rows
      and, without meta, a total of 0 on a single page. */
  lemma NonListBodyShowsNothing(b: Body)
    requires b.Scalar? || (b.Envelope? && b.data.DataOther?) || (b.Envelope? && b.data.NoData?)
    ensures RowsOf(b) == []
    ensures MetaOf(b).None? ==> TotalOf(b) == 0 && PagesOf(b) == 1
  {
  }

  // ---------------------------------------------------------------------------
  // The service forms

  /** A validation issue of a flat form: the field it is about and its message. */
  datatype FieldIssue = FieldIssue(key: string, message: string)

  function Check(ok: bool, key: string, message: string): seq<FieldIssue> {
    if ok then [] else [FieldIssue(key, message)]
  }

  datatype VehicleForm = VehicleForm(vehicleType: string, vehicleNumber: string, driverName: string, driverContactNo: string)

  const EMPTY_VEHICLE := VehicleForm("", "", "", "")

  /** A character the contact pattern `[0-9+\-()\s]` admits. */
  predicate ContactChar(c: char) {
    IsDigit(c) || c == '+' || c == '-' || c == '(' || c == ')' || IsJsWhitespace(c)
  }

  predicate ContactShape(s: string) {
    |s| >= 1 && forall i :: 0 <= i < |s| ==> ContactChar(s[i])
  }

  const VEHICLE_TYPE := "vehicle_type"
  const VEHICLE_NUMBER := "vehicle_number"
  const DRIVER_NAME := "driver_name"
  const DRIVER_CONTACT := "driver_contact_no"

  /** The four inputs of the vehicle tab. */
  datatype VehicleField = VehicleType | VehicleNumber | DriverName | DriverContactNo

  /** The key an input's value and error are stored under. */
  function FieldKey(f: VehicleField): string {
    match f
    case VehicleType => VEHICLE_TYPE
    case VehicleNumber => VEHICLE_NUMBER
    case DriverName => DRIVER_NAME
    case DriverContactNo => DRIVER_CONTACT
  }

  function FieldValue(v: VehicleForm, f: VehicleField): string {
    match f
    case VehicleType => v.vehicleType
    case VehicleNumber => v.vehicleNumber
    case DriverName => v.driverName
    case DriverContactNo => v.driverContactNo
  }

  /** `{...vehicle, [key]: value}`: the form with one input replaced. */
  function WithField(v: VehicleForm, f: VehicleField, value: string): (w: VehicleForm)
    ensures FieldValue(w, f) == value
    ensures forall g :: g != f ==> FieldValue(w, g) == FieldValue(v, g)
  {
    match f
    case VehicleType => v.(vehicleType := value)
    case VehicleNumber => v.(vehicleNumber := value)
    case DriverName => v.(driverName := value)
    case DriverContactNo => v.(driverContactNo := value)
  }

  predicate IsFieldKey(key: string) {
    exists f: VehicleField :: key == FieldKey(f)
  }

  /** The four inputs keep their errors under four different keys, so
      clearing one input's error leaves the others shown. */
  lemma FieldKeysDistinct(f: VehicleField, g: VehicleField)
    requires f != g
    ensures FieldKey(f) != FieldKey(g)
  {
    assert VEHICLE_TYPE[8] != VEHICLE_NUMBER[8];
    assert DRIVER_NAME[7] != DRIVER_CONTACT[7];
    assert VEHICLE_TYPE[0] != DRIVER_NAME[0] && VEHICLE_NUMBER[0] != DRIVER_CONTACT[0];
  }
  const CONTACT_SHORT := "Contact no. seems short"
  const CONTACT_INVALID := "Invalid contact number"

  /** `vehicleSchema`, its issues in the order the checks run. */
  function VehicleIssues(v: VehicleForm): (issues: seq<FieldIssue>)
    ensures issues == [] <==>
      v.vehicleType != "" && v.vehicleNumber != "" && v.driverName != ""
      && |v.driverContactNo| >= 7 && ContactShape(v.driverContactNo)
    ensures forall i :: 0 <= i < |issues| ==> issues[i].message != ""
  {
    Check(|v.vehicleType| >= 1, VEHICLE_TYPE, "Car model is required")
    + Check(|v.vehicleNumber| >= 1, VEHICLE_NUMBER, "Vehicle number is required")
    + Check(|v.driverName| >= 1, DRIVER_NAME, "Driver name is required")
    + Check(|v.driverContactNo| >= 7, DRIVER_CONTACT, CONTACT_SHORT)
    + Check(ContactShape(v.driverContactNo), DRIVER_CONTACT, CONTACT_INVALID)
  }

  /** Every vehicle issue is reported on one of the four inputs, so the
      input it names can clear it. */
  lemma VehicleIssueKeys(v: VehicleForm)
    ensures forall i :: 0 <= i < |VehicleIssues(v)| ==> IsFieldKey(VehicleIssues(v)[i].key)
  {
    var issues := VehicleIssues(v);
    forall i | 0 <= i < |issues| ensures IsFieldKey(issues[i].key) {
      var k := issues[i].key;
      assert k in [VEHICLE_TYPE, VEHICLE_NUMBER, DRIVER_NAME, DRIVER_CONTACT];
      if k == VEHICLE_TYPE {
        assert k == FieldKey(VehicleType);
      } else if k == VEHICLE_NUMBER {
        assert k == FieldKey(VehicleNumber);
      } else if k == DRIVER_NAME {
        assert k == FieldKey(DriverName);
      } else {
        assert k == FieldKey(DriverContactNo);
      }
    }
  }

  const GUESTHOUSE_LOCATION := "guesthouse_location"
  const ADDRESS_REQUIRED := "Accommodation address is required"
  const PURPOSE := "purpose"
  const PURPOSE_REQUIRED := "Purpose is required"

  /** A one-field schema requiring a non-empty text, as `guesthouseSchema`
      and `otherSchema` are: at most one issue, on that field. */
  function RequiredText(key: string, message: string, value: string): (issues: seq<FieldIssue>)
    ensures issues == [] <==> value != ""
    ensures |issues| <= 1
    ensures forall i :: 0 <= i < |issues| ==> issues[i] == FieldIssue(key, message)
  {
    Check(|value| >= 1, key, message)
  }

  // ---------------------------------------------------------------------------
  // The error map

  /** One step of the error map's construction: a field whose entry is
      missing or empty takes the issue's message. */
  function Record(fe: map<string, string>, issue: FieldIssue): map<string, string> {
    if issue.key !in fe || fe[issue.key] == "" then fe[issue.key := issue.message] else fe
  }

  /** The error map built from the issues in order. */
  function ErrorMap(issues: seq<FieldIssue>): map<string, string>
    decreases |issues|
  {
    if issues == [] then map[] else Record(ErrorMap(issues[..|issues| - 1]), issues[|issues| - 1])
  }

  /** The error map as the submit handlers build it, issue by issue. */
  method FirstErrors(issues: seq<FieldIssue>) returns (fe: map<string, string>)
    ensures fe == ErrorMap(issues)
  {
    fe := map[];
    var i := 0;
    while i < |issues|
      invariant 0 <= i <= |issues|
      invariant fe == ErrorMap(issues[..i])
    {
      assert issues[..i + 1][..i] == issues[..i];
      fe := Record(fe, issues[i]);
      i := i + 1;
    }
    assert issues[..i] == issues;
  }

  /** The error map has an entry for exactly the fields some issue names. */
  lemma {:induction false} ErrorMapKeys(issues: seq<FieldIssue>)
    ensures forall k :: k in ErrorMap(issues) <==> exists i :: 0 <= i < |issues| && issues[i].key == k
  {
    if issues != [] {
      var n := |issues| - 1;
      var init := issues[..n];
      ErrorMapKeys(init);
      forall k ensures k in ErrorMap(issues) <==> exists i :: 0 <= i < |issues| && issues[i].key == k {
        if k in ErrorMap(init) {
          var i :| 0 <= i < |init| && init[i].key == k;
          assert issues[i].key == k;
        }
        if exists i :: 0 <= i < |issues| && issues[i].key == k {
          var i :| 0 <= i < |issues| && issues[i].key == k;
          if i < n {
            assert init[i].key == k;
          }
        }
      }
    }
  }

  /** When no message is empty, no entry of the error map is empty. */
  lemma {:induction false} ErrorMapEntriesNonEmpty(issues: seq<FieldIssue>)
    requires forall i :: 0 <= i < |issues| ==> issues[i].message != ""
    ensures forall k :: k in ErrorMap(issues) ==> ErrorMap(issues)[k] != ""
  {
    if issues != [] {
      ErrorMapEntriesNonEmpty(issues[..|issues| - 1]);
    }
  }

  /** When no message is empty, a field's entry is the message of the first
      issue naming it. */
  lemma {:induction false} ErrorMapKeepsFirst(issues: seq<FieldIssue>, i: nat)
    requires forall j :: 0 <= j < |issues| ==> issues[j].message != ""
    requires i < |issues| && forall j :: 0 <= j < i ==> issues[j].key != issues[i].key
    ensures issues[i].key in ErrorMap(issues) && ErrorMap(issues)[issues[i].key] == issues[i].message
  {
    var n := |issues| - 1;
    var init, last := issues[..n], issues[n];
    var m := ErrorMap(init);
    assert ErrorMap(issues) == Record(m, last);
    if i < n {
      ErrorMapKeepsFirst(init, i);
      ErrorMapEntriesNonEmpty(init);
      assert init[i] == issues[i];
    } else {
      ErrorMapKeys(init);
      assert forall j :: 0 <= j < |init| ==> init[j].key != last.key;
    }
  }

  /** A field that no earlier issue names takes the message of its first
      issue; a second issue for the same field leaves it. */
  lemma FirstOfTwoWins(pre: seq<FieldIssue>, first: FieldIssue, second: FieldIssue)
    requires first.key == second.key && first.message != ""
    requires forall i :: 0 <= i < |pre| ==> pre[i].key != first.key
    ensures ErrorMap(pre + [first] + [second])[first.key] == first.message
  {
    ErrorMapKeys(pre);
    var m0 := ErrorMap(pre);
    assert first.key !in m0;
    var once, twice := pre + [first], pre + [first] + [second];
    assert once[..|pre|] == pre;
    assert ErrorMap(once) == m0[first.key := first.message];
    assert twice[..|once|] == once;
    assert ErrorMap(twice) == Record(ErrorMap(once), second);
  }

  /** A contact number that is both too short and badly formed is reported
      as too short: the first check's message wins. */
  lemma ShortContactReportedFirst(v: VehicleForm)
    requires |v.driverContactNo| < 7 && !ContactShape(v.driverContactNo)
    ensures ErrorMap(VehicleIssues(v))[DRIVER_CONTACT] == CONTACT_SHORT
  {
    var pre := Check(|v.vehicleType| >= 1, VEHICLE_TYPE, "Car model is required")
      + Check(|v.vehicleNumber| >= 1, VEHICLE_NUMBER, "Vehicle number is required")
      + Check(|v.driverName| >= 1, DRIVER_NAME, "Driver name is required");
    assert forall i :: 0 <= i < |pre| ==> pre[i].key != DRIVER_CONTACT by {
      assert |DRIVER_CONTACT| != |VEHICLE_TYPE| && |DRIVER_CONTACT| != |VEHICLE_NUMBER|;
      assert DRIVER_CONTACT[7] != DRIVER_NAME[7];
    }
    FirstOfTwoWins(pre, FieldIssue(DRIVER_CONTACT, CONTACT_SHORT), FieldIssue(DRIVER_CONTACT, CONTACT_INVALID));
  }

  // ---------------------------------------------------------------------------
  // Calls

  /** The officer id as `Number(officerId)` reads it: a string of digits is
      its value, anything else is `NaN`. */
  function NumberOf(s: string): (n: Option<int>)
    ensures DigitsOnly(s) ==> n == Some(DecimalValue(s))
    ensures n.Some? ==> IntToString(n.value) == s || (|s| > 1 && s[0] == '0')
  {
    if DigitsOnly(s) then
      NumberOfDigits(s);
      Some(DecimalValue(s))
    else None
  }

  /** Reading a string of digits and printing the value gives the string
      back, unless it had leading zeros. */
  lemma NumberOfDigits(s: string)
    requires DigitsOnly(s)
    ensures IntToString(DecimalValue(s)) == s || (|s| > 1 && s[0] == '0')
  {
    if |s| == 1 || s[0] != '0' {
      DigitsRoundTrip(s);
    }
  }

  /** A string of digits without a leading zero is what printing its value gives. */
  lemma {:induction false} DigitsRoundTrip(s: string)
    requires DigitsOnly(s) && (|s| == 1 || s[0] != '0')
    ensures NatToString(DecimalValue(s)) == s
  {
    var n := DecimalValue(s);
    if |s| == 1 {
      assert s[..|s| - 1] == [];
      assert n == DecimalValue(s[..|s| - 1]) * 10 + DigitValue(s[|s| - 1]);
      assert n == DigitValue(s[0]) < 10;
      assert [DigitChar(n)] == s;
    } else {
      var init := s[..|s| - 1];
      assert init[0] == s[0];
      DigitsRoundTrip(init);
      var d := DigitValue(s[|s| - 1]);
      assert DecimalValue(init) >= 1 by {
        LeadingDigitPositive(init);
      }
      assert n / 10 == DecimalValue(init) && n % 10 == d;
      assert n >= 10;
      assert s == init + [s[|s| - 1]];
      assert DigitChar(d) == s[|s| - 1];
    }
  }

  lemma {:induction false} LeadingDigitPositive(s: string)
    requires DigitsOnly(s) && s[0] != '0'
    ensures DecimalValue(s) >= 1
  {
    if |s| > 1 {
      var init := s[..|s| - 1];
      assert init[0] == s[0];
      LeadingDigitPositive(init);
    } else {
      assert s[..0] == [];
    }
  }

  /** `x || undefined` for a form string. */
  function OrUndefined(s: string): (r: Option<string>)
    ensures r.None? <==> s == ""
    ensures r.Some? ==> r.value == s
  {
    if s == "" then None else Some(s)
  }

  datatype AssignPayload = AssignPayload(requestId: int, officerId: Option<int>, priority: string, remarks: Option<string>)

  datatype ServiceCall =
    | VehicleCall(path: string, vehicleType: Option<string>, vehicleNumber: Option<string>,
                  driverName: Option<string>, driverContactNo: Option<string>)
    | GuesthouseCall(path: string, guesthouseLocation: Option<string>)
    | OtherCall(path: string, purpose: string)

  // ---------------------------------------------------------------------------
  // The table

  /** The options of the assign dialog's priority list. */
  const PRIORITIES: seq<string> := ["high", "medium", "low"]

  class PendingRequestsTable {
    var rows: seq<Request>
    var loading: bool
    var page: int
    const limit: int
    var totalPages: int
    var total: int
    var assignOpen: bool
    var servicesOpen: bool
    var selected: Option<Request>
    var officerId: string
    var priority: string
    var remarks: string
    var formErrors: map<string, string>
    var vehicle: VehicleForm
    var guesthouseLocation: string
    var otherPurpose: string

    /** The page number never drops below 1. */
    predicate Valid()
      reads this
    {
      page >= 1 && limit == 10
    }

    /** What the last answer filled in: the rows and the counts under them. */
    function Listing(): (seq<Request>, int, int)
      reads this
    {
      (rows, total, totalPages)
    }

    /** Whether the assign and the services dialogs are open. */
    function Dialogs(): (bool, bool)
      reads this
    {
      (assignOpen, servicesOpen)
    }

    /** The assign dialog's officer, priority and remarks. */
    function AssignFields(): (string, string, string)
      reads this
    {
      (officerId, priority, remarks)
    }

    /** The services dialog's vehicle, guesthouse and other forms. */
    function ServiceForms(): (VehicleForm, string, string)
      reads this
    {
      (vehicle, guesthouseLocation, otherPurpose)
    }

    /** The table as first shown: loading page 1 of 1, with nothing selected. */
    constructor()
      ensures Valid()
      ensures rows == [] && loading && page == 1 && totalPages == 1 && total == 0
      ensures !assignOpen && !servicesOpen && selected == None
      ensures officerId == "" && priority == "medium" && remarks == "" && formErrors == map[]
      ensures vehicle == EMPTY_VEHICLE && guesthouseLocation == "" && otherPurpose == ""
    {
      rows := [];
      loading := true;
      page := 1;
      limit := 10;
      totalPages := 1;
      total := 0;
      assignOpen := false;
      servicesOpen := false;
      selected := None;
      officerId := "";
      priority := "medium";
      remarks := "";
      formErrors := map[];
      vehicle := EMPTY_VEHICLE;
      guesthouseLocation := "";
      otherPurpose := "";
    }

    /** The first half of `fetchRows`: the table goes into loading and asks
        for the page. */
    method StartFetch(nextPage: int) returns (q: Api.PendingQuery)
      requires Valid()
      modifies this
      ensures Valid()
      ensures q == Api.GetPendingRequests(Some(nextPage), Some(limit))
      ensures loading
      ensures rows == old(rows) && page == old(page) && total == old(total) && totalPages == old(totalPages)
      ensures selected == old(selected) && assignOpen == old(assignOpen) && servicesOpen == old(servicesOpen)
      ensures officerId == old(officerId) && priority == old(priority) && remarks == old(remarks)
      ensures formErrors == old(formErrors) && vehicle == old(vehicle)
      ensures guesthouseLocation == old(guesthouseLocation) && otherPurpose == old(otherPurpose)
    {
      loading := true;
      q := Api.GetPendingRequests(Some(nextPage), Some(limit));
    }

    /** The second half of `fetchRows`: the answer's body (none when the
        call failed) replaces rows, total and page count; loading ends
        either way. */
    method FinishFetch(response: Option<Body>)
      requires Valid()
      modifies this
      ensures Valid()
      ensures !loading
      ensures response.Some? ==>
        rows == RowsOf(response.value) && total == TotalOf(response.value) && totalPages == PagesOf(response.value)
      ensures response.None? ==> rows == old(rows) && total == old(total) && totalPages == old(totalPages)
      ensures page == old(page) && selected == old(selected) && Dialogs() == old(Dialogs())
      ensures AssignFields() == old(AssignFields()) && formErrors == old(formErrors) && ServiceForms() == old(ServiceForms())
    {
      if response.Some? {
        var raw := response.value;
        var list := ListOf(raw);
        rows := if list.Some? then list.value else [];
        var meta := MetaOf(raw);
        if meta.Some? {
          total := if meta.value.total.Some? then meta.value.total.value else 0;
          totalPages := if meta.value.totalPages.Some? then meta.value.totalPages.value else 1;
        } else {
          total := if list.Some? then |list.value| else 0;
          totalPages := 1;
        }
      }
      loading := false;
    }

    predicate PreviousDisabled()
      reads this
    {
      page <= 1 || loading
    }

    predicate NextDisabled()
      reads this
    {
      page >= totalPages || loading
    }

    /** Previous: when enabled, moves to `max(1, page - 1)` and fetches it. */
    method Previous() returns (q: Option<Api.PendingQuery>)
      requires Valid()
      modifies this
      ensures Valid()
      ensures old(PreviousDisabled()) ==> q == None && page == old(page) && loading == old(loading)
      ensures !old(PreviousDisabled()) ==>
        && page == (if old(page) - 1 > 1 then old(page) - 1 else 1) && page == old(page) - 1
        && q == Some(Api.GetPendingRequests(Some(page), Some(limit))) && loading
      ensures Listing() == old(Listing()) && selected == old(selected) && Dialogs() == old(Dialogs())
      ensures AssignFields() == old(AssignFields()) && formErrors == old(formErrors) && ServiceForms() == old(ServiceForms())
    {
      if PreviousDisabled() {
        return None;
      }
      var p := if page - 1 > 1 then page - 1 else 1;
      page := p;
      var query := StartFetch(p);
      q := Some(query);
    }

    /** Next: when enabled, moves to `min(totalPages, page + 1)` and fetches it. */
    method Next() returns (q: Option<Api.PendingQuery>)
      requires Valid()
      modifies this
      ensures Valid()
      ensures old(NextDisabled()) ==> q == None && page == old(page) && loading == old(loading)
      ensures !old(NextDisabled()) ==>
        && page == (if old(totalPages) < old(page) + 1 then old(totalPages) else old(page) + 1)
        && page == old(page) + 1 && page <= totalPages
        && q == Some(Api.GetPendingRequests(Some(page), Some(limit))) && loading
      ensures Listing() == old(Listing()) && selected == old(selected) && Dialogs() == old(Dialogs())
      ensures AssignFields() == old(AssignFields()) && formErrors == old(formErrors) && ServiceForms() == old(ServiceForms())
    {
      if NextDisabled() {
        return None;
      }
      var p := if totalPages < page + 1 then totalPages else page + 1;
      page := p;
      var query := StartFetch(p);
      q := Some(query);
    }

    /** Opening the assign dialog on a row resets its form. */
    method OpenAssign(r: Request)
      modifies this
      ensures selected == Some(r) && assignOpen
      ensures officerId == "" && priority == "medium" && remarks == "" && formErrors == map[]
      ensures page == old(page) && Listing() == old(Listing()) && loading == old(loading)
      ensures ServiceForms() == old(ServiceForms()) && servicesOpen == old(servicesOpen)
    {
      selected := Some(r);
      officerId := "";
      priority := "medium";
      remarks := "";
      formErrors := map[];
      assignOpen := true;
    }

    /** Opening the services dialog on a row resets all three service forms. */
    method OpenServices(r: Request)
      modifies this
      ensures selected == Some(r) && servicesOpen
      ensures vehicle == EMPTY_VEHICLE && guesthouseLocation == "" && otherPurpose == "" && formErrors == map[]
      ensures page == old(page) && Listing() == old(Listing()) && loading == old(loading)
      ensures AssignFields() == old(AssignFields()) && assignOpen == old(assignOpen)
    {
      selected := Some(r);
      vehicle := EMPTY_VEHICLE;
      guesthouseLocation := "";
      otherPurpose := "";
      formErrors := map[];
      servicesOpen := true;
    }

    /** Cancel, or dismissing the assign dialog: only the dialog closes;
        its form keeps what was typed until it is opened again. */
    method CloseAssign()
      modifies this
      ensures !assignOpen && servicesOpen == old(servicesOpen)
      ensures page == old(page) && selected == old(selected) && loading == old(loading) && Listing() == old(Listing())
      ensures AssignFields() == old(AssignFields()) && formErrors == old(formErrors) && ServiceForms() == old(ServiceForms())
    {
      assignOpen := false;
    }

    /** A Close button of the services dialog, or dismissing it: only the
        dialog closes. */
    method CloseServices()
      modifies this
      ensures !servicesOpen && assignOpen == old(assignOpen)
      ensures page == old(page) && selected == old(selected) && loading == old(loading) && Listing() == old(Listing())
      ensures AssignFields() == old(AssignFields()) && formErrors == old(formErrors) && ServiceForms() == old(ServiceForms())
    {
      servicesOpen := false;
    }

    /** Choosing an officer in the list stores the option's value, the
        officer's id as text. */
    method ChooseOfficer(id: string)
      modifies this
      ensures officerId == id && priority == old(priority) && remarks == old(remarks)
      ensures page == old(page) && selected == old(selected) && loading == old(loading) && Listing() == old(Listing())
      ensures Dialogs() == old(Dialogs()) && formErrors == old(formErrors) && ServiceForms() == old(ServiceForms())
    {
      officerId := id;
    }

    /** Choosing a priority: the list offers high, medium and low. */
    method ChoosePriority(p: string)
      requires p in PRIORITIES
      modifies this
      ensures priority == p && officerId == old(officerId) && remarks == old(remarks)
      ensures page == old(page) && selected == old(selected) && loading == old(loading) && Listing() == old(Listing())
      ensures Dialogs() == old(Dialogs()) && formErrors == old(formErrors) && ServiceForms() == old(ServiceForms())
    {
      priority := p;
    }

    method EditRemarks(text: string)
      modifies this
      ensures remarks == text && officerId == old(officerId) && priority == old(priority)
      ensures page == old(page) && selected == old(selected) && loading == old(loading) && Listing() == old(Listing())
      ensures Dialogs() == old(Dialogs()) && formErrors == old(formErrors) && ServiceForms() == old(ServiceForms())
    {
      remarks := text;
    }

    /** Assign: nothing is sent without a selected row or an officer;
        otherwise the officer id goes as a number and empty remarks as
        absent. When the call succeeds the dialog closes and the page is
        fetched again. */
    method SubmitAssign(succeeded: bool) returns (call: Option<AssignPayload>, refetch: Option<Api.PendingQuery>)
      requires Valid()
      modifies this
      ensures Valid()
      ensures old(selected).None? || old(officerId) == "" ==>
        call == None && refetch == None && assignOpen == old(assignOpen) && loading == old(loading)
      ensures old(selected).Some? && old(officerId) != "" ==>
        call == Some(AssignPayload(old(selected).value.id, NumberOf(old(officerId)), old(priority), OrUndefined(old(remarks))))
      ensures call.Some? && succeeded ==> !assignOpen && refetch == Some(Api.GetPendingRequests(Some(page), Some(limit)))
      ensures call.Some? && !succeeded ==> assignOpen == old(assignOpen) && refetch == None
      ensures refetch.None? ==> loading == old(loading)
      ensures refetch.Some? ==> loading
      ensures page == old(page) && selected == old(selected) && AssignFields() == old(AssignFields())
      ensures Listing() == old(Listing()) && servicesOpen == old(servicesOpen)
      ensures formErrors == old(formErrors) && ServiceForms() == old(ServiceForms())
    {
      call, refetch := None, None;
      if selected.None? {
        return;
      }
      if officerId == "" {
        return;
      }
      call := Some(AssignPayload(selected.value.id, NumberOf(officerId), priority, OrUndefined(remarks)));
      if succeeded {
        assignOpen := false;
        var q := StartFetch(page);
        refetch := Some(q);
      }
    }

    /** Shared ending of the three service submits: an invalid form shows
        its first errors and sends nothing. */
    method ShowErrors(issues: seq<FieldIssue>)
      modifies this
      ensures formErrors == ErrorMap(issues)
      ensures page == old(page) && loading == old(loading) && selected == old(selected) && Listing() == old(Listing())
      ensures Dialogs() == old(Dialogs()) && AssignFields() == old(AssignFields()) && ServiceForms() == old(ServiceForms())
    {
      var fe := FirstErrors(issues);
      formErrors := fe;
    }

    /** Add Vehicle: with a selected row and a valid form, the four fields
        are sent to the request's vehicle endpoint; an invalid form sets the
        error map and sends nothing. */
    method SubmitVehicle(succeeded: bool) returns (call: Option<ServiceCall>, refetch: Option<Api.PendingQuery>)
      requires Valid()
      modifies this
      ensures Valid()
      ensures old(selected).None? ==> call == None && refetch == None && formErrors == old(formErrors)
      ensures old(selected).Some? && VehicleIssues(old(vehicle)) != [] ==>
        call == None && refetch == None && formErrors == ErrorMap(VehicleIssues(old(vehicle)))
      ensures old(selected).Some? && VehicleIssues(old(vehicle)) == [] ==>
        && formErrors == old(formErrors)
        && call == Some(VehicleCall(Api.ServicePath(Api.VehicleService, old(selected).value.id),
                          OrUndefined(old(vehicle).vehicleType), OrUndefined(old(vehicle).vehicleNumber),
                          OrUndefined(old(vehicle).driverName), OrUndefined(old(vehicle).driverContactNo)))
        && (succeeded ==> refetch == Some(Api.GetPendingRequests(Some(page), Some(limit))))
        && (!succeeded ==> refetch == None)
      ensures refetch.None? ==> loading == old(loading)
      ensures refetch.Some? ==> loading
      ensures page == old(page) && selected == old(selected) && Listing() == old(Listing())
      ensures Dialogs() == old(Dialogs()) && AssignFields() == old(AssignFields()) && ServiceForms() == old(ServiceForms())
    {
      call, refetch := None, None;
      if selected.None? {
        return;
      }
      var issues := VehicleIssues(vehicle);
      if issues != [] {
        ShowErrors(issues);
        return;
      }
      call := Some(VehicleCall(Api.ServicePath(Api.VehicleService, selected.value.id),
        OrUndefined(vehicle.vehicleType), OrUndefined(vehicle.vehicleNumber),
        OrUndefined(vehicle.driverName), OrUndefined(vehicle.driverContactNo)));
      if succeeded {
        var q := StartFetch(page);
        refetch := Some(q);
      }
    }

    /** Add Guesthouse: as Add Vehicle, for the accommodation address. */
    method SubmitGuesthouse(succeeded: bool) returns (call: Option<ServiceCall>, refetch: Option<Api.PendingQuery>)
      requires Valid()
      modifies this
      ensures Valid()
      ensures old(selected).None? ==> call == None && refetch == None && formErrors == old(formErrors)
      ensures old(selected).Some? && old(guesthouseLocation) == "" ==>
        call == None && refetch == None && formErrors == ErrorMap(RequiredText(GUESTHOUSE_LOCATION, ADDRESS_REQUIRED, ""))
      ensures old(selected).Some? && old(guesthouseLocation) != "" ==>
        && formErrors == old(formErrors)
        && call == Some(GuesthouseCall(Api.ServicePath(Api.GuesthouseService, old(selected).value.id),
                                       Some(old(guesthouseLocation))))
        && (succeeded ==> refetch == Some(Api.GetPendingRequests(Some(page), Some(limit))))
        && (!succeeded ==> refetch == None)
      ensures refetch.None? ==> loading == old(loading)
      ensures refetch.Some? ==> loading
      ensures page == old(page) && selected == old(selected) && Listing() == old(Listing())
      ensures Dialogs() == old(Dialogs()) && AssignFields() == old(AssignFields()) && ServiceForms() == old(ServiceForms())
    {
      call, refetch := None, None;
      if selected.None? {
        return;
      }
      var issues := RequiredText(GUESTHOUSE_LOCATION, ADDRESS_REQUIRED, guesthouseLocation);
      if issues != [] {
        ShowErrors(issues);
        return;
      }
      call := Some(GuesthouseCall(Api.ServicePath(Api.GuesthouseService, selected.value.id), OrUndefined(guesthouseLocation)));
      if succeeded {
        var q := StartFetch(page);
        refetch := Some(q);
      }
    }

    /** Add Other: as Add Vehicle, for the purpose, which is sent as typed. */
    method SubmitOther(succeeded: bool) returns (call: Option<ServiceCall>, refetch: Option<Api.PendingQuery>)
      requires Valid()
      modifies this
      ensures Valid()
      ensures old(selected).None? ==> call == None && refetch == None && formErrors == old(formErrors)
      ensures old(selected).Some? && old(otherPurpose) == "" ==>
        call == None && refetch == None && formErrors == ErrorMap(RequiredText(PURPOSE, PURPOSE_REQUIRED, ""))
      ensures old(selected).Some? && old(otherPurpose) != "" ==>
        && formErrors == old(formErrors)
        && call == Some(OtherCall(Api.ServicePath(Api.OtherService, old(selected).value.id), old(otherPurpose)))
        && (succeeded ==> refetch == Some(Api.GetPendingRequests(Some(page), Some(limit))))
        && (!succeeded ==> refetch == None)
      ensures refetch.None? ==> loading == old(loading)
      ensures refetch.Some? ==> loading
      ensures page == old(page) && selected == old(selected) && Listing() == old(Listing())
      ensures Dialogs() == old(Dialogs()) && AssignFields() == old(AssignFields()) && ServiceForms() == old(ServiceForms())
    {
      call, refetch := None, None;
      if selected.None? {
        return;
      }
      var issues := RequiredText(PURPOSE, PURPOSE_REQUIRED, otherPurpose);
      if issues != [] {
        ShowErrors(issues);
        return;
      }
      call := Some(OtherCall(Api.ServicePath(Api.OtherService, selected.value.id), otherPurpose));
      if succeeded {
        var q := StartFetch(page);
        refetch := Some(q);
      }
    }

    /** Typing in one vehicle input stores the value in that input only and
        clears that input's error. */
    method EditVehicle(field: VehicleField, value: string)
      modifies this
      ensures vehicle == WithField(old(vehicle), field, value)
      ensures formErrors == old(formErrors)[FieldKey(field) := ""]
      ensures page == old(page) && selected == old(selected) && loading == old(loading) && Listing() == old(Listing())
      ensures Dialogs() == old(Dialogs()) && AssignFields() == old(AssignFields())
      ensures guesthouseLocation == old(guesthouseLocation) && otherPurpose == old(otherPurpose)
    {
      vehicle := WithField(vehicle, field, value);
      formErrors := formErrors[FieldKey(field) := ""];
    }

    method EditGuesthouseLocation(location: string)
      modifies this
      ensures guesthouseLocation == location && formErrors == old(formErrors)[GUESTHOUSE_LOCATION := ""]
      ensures page == old(page) && selected == old(selected) && loading == old(loading) && Listing() == old(Listing())
      ensures Dialogs() == old(Dialogs()) && AssignFields() == old(AssignFields())
      ensures vehicle == old(vehicle) && otherPurpose == old(otherPurpose)
    {
      guesthouseLocation := location;
      formErrors := formErrors[GUESTHOUSE_LOCATION := ""];
    }

    method EditOtherPurpose(purpose: string)
      modifies this
      ensures otherPurpose == purpose && formErrors == old(formErrors)[PURPOSE := ""]
      ensures page == old(page) && selected == old(selected) && loading == old(loading) && Listing() == old(Listing())
      ensures Dialogs() == old(Dialogs()) && AssignFields() == old(AssignFields())
      ensures vehicle == old(vehicle) && guesthouseLocation == old(guesthouseLocation)
    {
      otherPurpose := purpose;
      formErrors := formErrors[PURPOSE := ""];
    }
  }

  /** A vehicle call is only ever sent with all four fields present: the
      `|| undefined` fallbacks never apply to a form that passed. */
  lemma SentVehicleHasAllFields(v: VehicleForm)
    requires VehicleIssues(v) == []
    ensures OrUndefined(v.vehicleType) == Some(v.vehicleType) && OrUndefined(v.vehicleNumber) == Some(v.vehicleNumber)
    ensures OrUndefined(v.driverName) == Some(v.driverName) && OrUndefined(v.driverContactNo) == Some(v.driverContactNo)
  {
  }
}
