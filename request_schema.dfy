/** The validation rules of a visit request (`requestFormSchema`): guests,
    ordered journey legs with their mode-dependent identifier, and the three
    kinds of service sub-request. Validating a raw payload yields the set of
    issues found, each a field path with a message; the payload is accepted
    exactly when that set is empty.

    Absent fields (`undefined`) are `None`. A required field that is absent
    produces a "Required" issue and, as in zod, aborts the object it belongs
    to, so that the object's `superRefine` (the leg's mode rule) does not
    run; failing string or number checks do not abort. */
module RequestSchema {
  import opened Text

  datatype PathSeg = Key(name: string) | Index(i: nat)
  type Path = seq<PathSeg>
  datatype Issue = Issue(path: Path, message: string)

  // Texts of zod's own default issues (the library words them itself).
  const REQUIRED := "Required"
  const NOT_POSITIVE := "Number must be greater than 0"
  const INVALID_MODE := "Invalid enum value"

  const BYROAD := "BYROAD"
  const BYRAIL := "BYRAIL"
  const BYAIR := "BYAIR"
  const Modes: seq<string> := [BYROAD, BYRAIL, BYAIR]

  const TRAIN_REQUIRED := "Train number is required for BYRAIL journeys"
  const FLIGHT_REQUIRED := "Flight number is required for BYAIR journeys"
  const VEHICLE_REQUIRED := "Vehicle number is required for BYROAD journeys"
  const NEED_LOCATION := "Please select a journey location for this request"
  const PURPOSE_REQUIRED := "Purpose is required"
  const DATE_SHAPE := "Must be YYYY-MM-DD"

  datatype GuestInput = GuestInput(
    firstName: Option<string>,
    lastName: Option<string>,
    age: Option<string>,
    contactNumber: Option<string>)

  datatype LegInput = LegInput(
    legOrder: Option<int>,
    mode: Option<string>,
    fromLocation: Option<string>,
    toLocation: Option<string>,
    trainNumber: Option<string>,
    flightNumber: Option<string>,
    vehicleNumber: Option<string>,
    arrivalDate: Option<string>,
    arrivalTime: Option<string>)

  datatype VehicleInput = VehicleInput(
    pickupLocation: Option<string>,
    destination: Option<string>,
    purpose: Option<string>,
    requestLocation: Option<string>)

  datatype GuesthouseInput = GuesthouseInput(
    checkInDate: Option<string>,
    checkoutDate: Option<string>,
    purpose: Option<string>,
    guestCount: Option<string>,
    requestLocation: Option<string>)

  datatype OtherInput = OtherInput(purpose: Option<string>, requestLocation: Option<string>)

  datatype RequestInput = RequestInput(
    purpose: Option<string>,
    specialNotes: Option<string>,
    journeyDetails: Option<seq<LegInput>>,
    guestUsers: Option<seq<GuestInput>>,
    vehicleRequests: Option<seq<VehicleInput>>,
    guesthouseRequests: Option<seq<GuesthouseInput>>,
    otherRequests: Option<seq<OtherInput>>)

  datatype Shape = Digits | TenDigitPhone | IsoDate | ClockTime

  predicate Matches(shape: Shape, s: string) {
    match shape
    case Digits => DigitsOnly(s)
    case TenDigitPhone => TenDigits(s)
    case IsoDate => DateShape(s)
    case ClockTime => TimeShape(s)
  }

  function Field(name: string): Path {
    [Key(name)]
  }

  /** The issue `msg` at field `name` unless `ok`. */
  function Unless(ok: bool, name: string, msg: string): set<Issue> {
    if ok then {} else {Issue(Field(name), msg)}
  }

  /** `z.string().min(1, msg)` */
  function NonEmptyText(name: string, v: Option<string>, msg: string): (r: set<Issue>)
    ensures r == {} <==> Truthy(v)
    ensures forall iss :: iss in r ==> iss.path == Field(name)
  {
    match v
    case None => {Issue(Field(name), REQUIRED)}
    case Some(s) => Unless(|s| >= 1, name, msg)
  }

  /** `z.string().regex(shape, msg)` */
  function ShapedText(name: string, v: Option<string>, shape: Shape, msg: string): (r: set<Issue>)
    ensures r == {} <==> v.Some? && Matches(shape, v.value)
    ensures forall iss :: iss in r ==> iss.path == Field(name)
  {
    match v
    case None => {Issue(Field(name), REQUIRED)}
    case Some(s) => Unless(Matches(shape, s), name, msg)
  }

  /** `z.string().regex(shape, msg).optional()`: absent is fine, "" is not absent. */
  function OptionalShapedText(name: string, v: Option<string>, shape: Shape, msg: string): (r: set<Issue>)
    ensures r == {} <==> (v.Some? ==> Matches(shape, v.value))
    ensures forall iss :: iss in r ==> iss.path == Field(name)
  {
    match v
    case None => {}
    case Some(s) => Unless(Matches(shape, s), name, msg)
  }

  /** `guestUserSchema` */
  function GuestIssues(g: GuestInput): set<Issue> {
    NonEmptyText("firstName", g.firstName, "First name is required")
    + NonEmptyText("lastName", g.lastName, "Last name is required")
    + ShapedText("age", g.age, Digits, "Age must be positiv number")
    + OptionalShapedText("contactNumber", g.contactNumber, TenDigitPhone, "Contact number must be 10 digits")
  }

  /** The field checks of `jurneyDetailsSchema`, before its `superRefine`. */
  function LegFieldIssues(l: LegInput): (r: set<Issue>)
    ensures r == {} <==>
      && l.legOrder.Some? && l.legOrder.value >= 1
      && l.mode.Some? && l.mode.value in Modes
      && Truthy(l.fromLocation) && Truthy(l.toLocation)
      && l.arrivalDate.Some? && DateShape(l.arrivalDate.value)
      && (l.arrivalTime.Some? ==> TimeShape(l.arrivalTime.value))
  {
    (match l.legOrder
     case None => {Issue(Field("legOrder"), REQUIRED)}
     case Some(n) =>
       Unless(n >= 1, "legOrder", "Please provide atleast one journey Detail")
       + Unless(n > 0, "legOrder", NOT_POSITIVE))
    + (match l.mode
       case None => {Issue(Field("mode"), REQUIRED)}
       case Some(m) => Unless(m in Modes, "mode", INVALID_MODE))
    + NonEmptyText("fromLocation", l.fromLocation, "From location is required")
    + NonEmptyText("toLocation", l.toLocation, "To location is required")
    + ShapedText("arrivalDate", l.arrivalDate, IsoDate, DATE_SHAPE)
    + OptionalShapedText("arrivalTime", l.arrivalTime, ClockTime, "Must be HH:mm")
  }

  /** A leg whose field checks produced an aborting issue (an absent
      required field or a mode outside the enum): its `superRefine` is skipped. */
  predicate LegAborted(l: LegInput) {
    || l.legOrder.None?
    || l.mode.None? || l.mode.value !in Modes
    || l.fromLocation.None? || l.toLocation.None? || l.arrivalDate.None?
  }

  /** The `superRefine` of `jurneyDetailsSchema`: the identifier the mode
      needs must be truthy. */
  function ModeRuleIssues(l: LegInput): set<Issue> {
    (if l.mode == Some(BYRAIL) && !Truthy(l.trainNumber) then {Issue(Field("trainNumber"), TRAIN_REQUIRED)} else {})
    + (if l.mode == Some(BYAIR) && !Truthy(l.flightNumber) then {Issue(Field("flightNumber"), FLIGHT_REQUIRED)} else {})
    + (if l.mode == Some(BYROAD) && !Truthy(l.vehicleNumber) then {Issue(Field("vehicleNumber"), VEHICLE_REQUIRED)} else {})
  }

  /** `jurneyDetailsSchema` */
  function LegIssues(l: LegInput): set<Issue> {
    LegFieldIssues(l) + (if LegAborted(l) then {} else ModeRuleIssues(l))
  }

  function VehicleIssues(v: VehicleInput): set<Issue> {
    NonEmptyText("pickupLocation", v.pickupLocation, "Pickup location is required")
    + NonEmptyText("destination", v.destination, "Destination is required")
    + NonEmptyText("purpose", v.purpose, PURPOSE_REQUIRED)
    + NonEmptyText("requestLocation", v.requestLocation, NEED_LOCATION)
  }

  /** `z.string().min(1, m1).regex(date, m2)`: both checks run on a present string. */
  function DateText(name: string, v: Option<string>, emptyMsg: string): (r: set<Issue>)
    ensures r == {} <==> v.Some? && DateShape(v.value)
    ensures forall iss :: iss in r ==> iss.path == Field(name)
  {
    match v
    case None => {Issue(Field(name), REQUIRED)}
    case Some(s) => Unless(|s| >= 1, name, emptyMsg) + Unless(DateShape(s), name, DATE_SHAPE)
  }

  function GuesthouseIssues(g: GuesthouseInput): set<Issue> {
    DateText("checkInDate", g.checkInDate, "Check-in date is required")
    + DateText("checkoutDate", g.checkoutDate, "Check-out date is required")
    + NonEmptyText("purpose", g.purpose, PURPOSE_REQUIRED)
    + ShapedText("guestCount", g.guestCount, Digits, "Guest count required & must be positiv number")
    + NonEmptyText("requestLocation", g.requestLocation, NEED_LOCATION)
  }

  function OtherIssues(o: OtherInput): set<Issue> {
    NonEmptyText("purpose", o.purpose, PURPOSE_REQUIRED)
    + NonEmptyText("requestLocation", o.requestLocation, NEED_LOCATION)
  }

  /** The issues of every element of an array field, each under the path
      `name[i]`. */
  function ElementIssues<T>(name: string, items: seq<T>, check: T -> set<Issue>): set<Issue>
    decreases |items|
  {
    if items == [] then {}
    else
      var i := |items| - 1;
      ElementIssues(name, items[..i], check)
      + (set iss | iss in check(items[i]) :: Issue([Key(name), Index(i)] + iss.path, iss.message))
  }

  /** `z.array(check).min(1, msg)` */
  function NonEmptyArray<T>(name: string, v: Option<seq<T>>, check: T -> set<Issue>, msg: string): (r: set<Issue>)
    ensures r == {} <==> v.Some? && |v.value| >= 1 && forall i :: 0 <= i < |v.value| ==> check(v.value[i]) == {}
  {
    match v
    case None => {Issue(Field(name), REQUIRED)}
    case Some(items) =>
      ElementIssuesEmpty(name, items, check);
      Unless(|items| >= 1, name, msg) + ElementIssues(name, items, check)
  }

  /** `z.array(check).optional()` */
  function OptionalArray<T>(name: string, v: Option<seq<T>>, check: T -> set<Issue>): (r: set<Issue>)
    ensures r == {} <==> (v.Some? ==> forall i :: 0 <= i < |v.value| ==> check(v.value[i]) == {})
  {
    match v
    case None => {}
    case Some(items) =>
      ElementIssuesEmpty(name, items, check);
      ElementIssues(name, items, check)
  }

  /** `requestFormSchema` */
  function RequestIssues(r: RequestInput): set<Issue> {
    NonEmptyArray("journeyDetails", r.journeyDetails, LegIssues, "At least one journey details is required")
    + NonEmptyArray("guestUsers", r.guestUsers, GuestIssues, "At least one guest is required")
    + OptionalArray("vehicleRequests", r.vehicleRequests, VehicleIssues)
    + OptionalArray("guesthouseRequests", r.guesthouseRequests, GuesthouseIssues)
    + OptionalArray("otherRequests", r.otherRequests, OtherIssues)
  }

  predicate RequestAccepted(r: RequestInput) {
    RequestIssues(r) == {}
  }

  // ---------------------------------------------------------------------------
  // Properties

  /** An issue of element `i` is reported under `name[i]`, and every issue
      under `name[i]` comes from element `i`. */
  lemma {:induction false} ElementIssueAt<T>(name: string, items: seq<T>, check: T -> set<Issue>, i: nat, p: Path, msg: string)
    ensures Issue([Key(name), Index(i)] + p, msg) in ElementIssues(name, items, check)
        <==> i < |items| && Issue(p, msg) in check(items[i])
  {
    if items != [] {
      var last := |items| - 1;
      ElementIssueAt(name, items[..last], check, i, p, msg);
      var tail := set iss | iss in check(items[last]) :: Issue([Key(name), Index(last)] + iss.path, iss.message);
      if Issue([Key(name), Index(i)] + p, msg) in tail {
        var iss :| iss in check(items[last]) && Issue([Key(name), Index(last)] + iss.path, iss.message) == Issue([Key(name), Index(i)] + p, msg);
        assert ([Key(name), Index(last)] + iss.path)[1] == Index(last);
        assert ([Key(name), Index(i)] + p)[1] == Index(i);
        assert iss.path == ([Key(name), Index(last)] + iss.path)[2..] == p;
      }
      if i == last && Issue(p, msg) in check(items[last]) {
        assert Issue([Key(name), Index(last)] + Issue(p, msg).path, msg) in tail;
      }
      if i < last {
        assert items[..last][i] == items[i];
      }
    }
  }

  /** An array's elements report nothing exactly when each element passes. */
  lemma {:induction false} ElementIssuesEmpty<T>(name: string, items: seq<T>, check: T -> set<Issue>)
    ensures ElementIssues(name, items, check) == {} <==> forall i :: 0 <= i < |items| ==> check(items[i]) == {}
  {
    if items != [] {
      var last := |items| - 1;
      ElementIssuesEmpty(name, items[..last], check);
      if check(items[last]) != {} {
        var iss :| iss in check(items[last]);
        assert Issue([Key(name), Index(last)] + iss.path, iss.message) in ElementIssues(name, items, check);
      }
      forall i | 0 <= i < last ensures items[..last][i] == items[i] { }
    }
  }

  /** A guest is accepted exactly when both names are non-empty, the age is a
      non-empty string of digits, and the contact number is either absent or
      exactly ten digits. */
  lemma GuestAcceptedIff(g: GuestInput)
    ensures GuestIssues(g) == {} <==>
      && Truthy(g.firstName) && Truthy(g.lastName)
      && g.age.Some? && DigitsOnly(g.age.value)
      && (g.contactNumber.Some? ==> TenDigits(g.contactNumber.value))
  {
  }

  /** Age "0" is accepted; an empty contact number is present and rejected,
      while an absent one is not checked. */
  lemma GuestAgeAndContactEdges(first: string, last: string)
    requires |first| >= 1 && |last| >= 1
    ensures GuestIssues(GuestInput(Some(first), Some(last), Some("0"), None)) == {}
    ensures Issue(Field("contactNumber"), "Contact number must be 10 digits")
              in GuestIssues(GuestInput(Some(first), Some(last), Some("0"), Some("")))
  {
    GuestAcceptedIff(GuestInput(Some(first), Some(last), Some("0"), None));
  }

  /** The identifier a leg's mode needs. */
  function ModeIdentifier(l: LegInput): Option<string>
    requires l.mode.Some? && l.mode.value in Modes
  {
    if l.mode.value == BYRAIL then l.trainNumber
    else if l.mode.value == BYAIR then l.flightNumber
    else l.vehicleNumber
  }

  /** A leg is accepted exactly when its order is at least 1, its mode is one
      of the three, both locations are non-empty, the arrival date has the
      date shape, the arrival time (if present) the time shape, and the
      identifier of its mode is non-empty. */
  lemma LegAcceptedIff(l: LegInput)
    ensures LegIssues(l) == {} <==>
      && l.legOrder.Some? && l.legOrder.value >= 1
      && l.mode.Some? && l.mode.value in Modes
      && Truthy(l.fromLocation) && Truthy(l.toLocation)
      && l.arrivalDate.Some? && DateShape(l.arrivalDate.value)
      && (l.arrivalTime.Some? ==> TimeShape(l.arrivalTime.value))
      && Truthy(ModeIdentifier(l))
  {
    if !LegAborted(l) && !Truthy(ModeIdentifier(l)) {
      if l.mode.value == BYRAIL {
        assert Issue(Field("trainNumber"), TRAIN_REQUIRED) in LegIssues(l);
      } else if l.mode.value == BYAIR {
        assert Issue(Field("flightNumber"), FLIGHT_REQUIRED) in LegIssues(l);
      } else {
        assert Issue(Field("vehicleNumber"), VEHICLE_REQUIRED) in LegIssues(l);
      }
    }
  }

  /** A leg whose fields are all present and whose mode is valid reports the
      missing identifier of its own mode at that identifier's path, and never
      asks for the identifier of another mode. */
  lemma ModeRuleNamesItsField(l: LegInput)
    requires !LegAborted(l)
    ensures l.mode == Some(BYRAIL) && !Truthy(l.trainNumber) ==> Issue(Field("trainNumber"), TRAIN_REQUIRED) in LegIssues(l)
    ensures l.mode == Some(BYAIR) && !Truthy(l.flightNumber) ==> Issue(Field("flightNumber"), FLIGHT_REQUIRED) in LegIssues(l)
    ensures l.mode == Some(BYROAD) && !Truthy(l.vehicleNumber) ==> Issue(Field("vehicleNumber"), VEHICLE_REQUIRED) in LegIssues(l)
    ensures forall iss :: iss in LegIssues(l) && iss.path == Field("trainNumber") ==> l.mode == Some(BYRAIL)
    ensures forall iss :: iss in LegIssues(l) && iss.path == Field("flightNumber") ==> l.mode == Some(BYAIR)
    ensures forall iss :: iss in LegIssues(l) && iss.path == Field("vehicleNumber") ==> l.mode == Some(BYROAD)
  {
  }

  /** The date and time rules are shape checks only: month 13, day 45 and
      hour 99 pass. */
  lemma ShapeChecksOnly()
    ensures Matches(IsoDate, "2025-13-45")
    ensures Matches(ClockTime, "99:99")
    ensures !Matches(IsoDate, "2025-1-45")
  {
    assert "2025-13-45"[0..4] == "2025";
    assert "2025-13-45"[5..7] == "13";
    assert "2025-13-45"[8..10] == "45";
    assert "99:99"[0..2] == "99";
    assert "99:99"[3..5] == "99";
  }

  /** A request is accepted exactly when it has at least one leg and at least
      one guest and every leg, guest and service sub-request is accepted. */
  lemma RequestAcceptedIff(r: RequestInput)
    ensures RequestAccepted(r) <==>
      && r.journeyDetails.Some? && |r.journeyDetails.value| >= 1
      && (forall i :: 0 <= i < |r.journeyDetails.value| ==> LegIssues(r.journeyDetails.value[i]) == {})
      && r.guestUsers.Some? && |r.guestUsers.value| >= 1
      && (forall i :: 0 <= i < |r.guestUsers.value| ==> GuestIssues(r.guestUsers.value[i]) == {})
      && (r.vehicleRequests.Some? ==>
            forall i :: 0 <= i < |r.vehicleRequests.value| ==> VehicleIssues(r.vehicleRequests.value[i]) == {})
      && (r.guesthouseRequests.Some? ==>
            forall i :: 0 <= i < |r.guesthouseRequests.value| ==> GuesthouseIssues(r.guesthouseRequests.value[i]) == {})
      && (r.otherRequests.Some? ==>
            forall i :: 0 <= i < |r.otherRequests.value| ==> OtherIssues(r.otherRequests.value[i]) == {})
  {
  }

  /** Purpose and special notes are optional free text: they never change
      the verdict. */
  lemma PurposeAndNotesAreFree(r: RequestInput, purpose: Option<string>, notes: Option<string>)
    ensures RequestIssues(r.(purpose := purpose, specialNotes := notes)) == RequestIssues(r)
  {
  }

  /** A BYRAIL leg at position `i` without a train number, whose fields are
      otherwise present, is reported at `journeyDetails[i].trainNumber`. */
  lemma RailLegReportedAtIndex(r: RequestInput, i: nat)
    requires r.journeyDetails.Some? && i < |r.journeyDetails.value|
    requires !LegAborted(r.journeyDetails.value[i])
    requires r.journeyDetails.value[i].mode == Some(BYRAIL) && !Truthy(r.journeyDetails.value[i].trainNumber)
    ensures Issue([Key("journeyDetails"), Index(i), Key("trainNumber")], TRAIN_REQUIRED) in RequestIssues(r)
  {
    var legs := r.journeyDetails.value;
    var leg := legs[i];
    var iss := Issue(Field("trainNumber"), TRAIN_REQUIRED);
    assert iss in ModeRuleIssues(leg);
    assert iss in LegIssues(leg);
    ElementIssueAt("journeyDetails", legs, LegIssues, i, Field("trainNumber"), TRAIN_REQUIRED);
    var full := Issue([Key("journeyDetails"), Index(i), Key("trainNumber")], TRAIN_REQUIRED);
    assert [Key("journeyDetails"), Index(i)] + Field("trainNumber") == [Key("journeyDetails"), Index(i), Key("trainNumber")];
    assert full in ElementIssues("journeyDetails", legs, LegIssues);
    assert full in NonEmptyArray("journeyDetails", r.journeyDetails, LegIssues, "At least one journey details is required");
  }

  /** Every service sub-request needs a non-empty purpose and request
      location; a vehicle also needs its pickup location and destination. */
  lemma ServiceAcceptedIff(v: VehicleInput, g: GuesthouseInput, o: OtherInput)
    ensures VehicleIssues(v) == {} <==>
      && Truthy(v.pickupLocation) && Truthy(v.destination) && Truthy(v.purpose) && Truthy(v.requestLocation)
    ensures OtherIssues(o) == {} <==> Truthy(o.purpose) && Truthy(o.requestLocation)
    ensures GuesthouseIssues(g) == {} <==>
      && g.checkInDate.Some? && DateShape(g.checkInDate.value)
      && g.checkoutDate.Some? && DateShape(g.checkoutDate.value)
      && Truthy(g.purpose) && Truthy(g.requestLocation)
      && g.guestCount.Some? && DigitsOnly(g.guestCount.value)
  {
  }

  /** A guesthouse row with guest count "0" passes the count rule. */
  lemma GuestCountZeroPasses()
    ensures Matches(Digits, "0")
  {
  }
}
