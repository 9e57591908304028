/** The records of a visit request as the dashboards receive them from the
    server. Every nested list may be missing from a payload, so each is
    optional. The journey legs are a shared, mutable array: a component that
    sorts them in place reorders them for every holder of the request. */
module Requests {
  import opened Text

  datatype GuestUser = GuestUser(firstName: string, lastName: string, age: int, contactNumber: string)

  datatype JourneyDetail = JourneyDetail(
    id: int,
    legOrder: int,
    mode: string,
    fromLocation: string,
    toLocation: string,
    trainNumber: Option<string>,
    flightNumber: Option<string>,
    vehicleNumber: Option<string>,
    arrivalDate: Option<string>,
    arrivalTime: Option<string>)

  datatype VehicleRequest = VehicleRequest(
    vehicleType: Option<string>,
    vehicleNumber: Option<string>,
    driverName: Option<string>,
    driverContactNo: Option<string>,
    pickupLocation: string,
    destination: string,
    purpose: string)

  datatype GuesthouseRequest = GuesthouseRequest(
    guesthouseLocation: Option<string>,
    checkInDate: string,
    checkoutDate: string,
    guestCount: int,
    purpose: string)

  datatype OtherRequest = OtherRequest(purpose: string)

  datatype ProtocolAssignment = ProtocolAssignment(
    assignmentId: int,
    assignedOfficerId: int,
    completionStatus: string,
    priority: Option<string>,
    officerRemarks: Option<string>)

  datatype Request = Request(
    id: int,
    movementNumber: Option<string>,
    purpose: Option<string>,
    reqStatus: string,
    specialNotes: Option<string>,
    createdAt: Option<string>,
    guestUsers: Option<seq<GuestUser>>,
    journeyDetails: Option<array<JourneyDetail>>,
    vehicleRequests: Option<seq<VehicleRequest>>,
    guesthouseRequests: Option<seq<GuesthouseRequest>>,
    otherRequests: Option<seq<OtherRequest>>,
    protocolAssignments: Option<seq<ProtocolAssignment>>)

  /** The comparison key of `(a, b) => a.leg_order - b.leg_order`. */
  function LegKey(j: JourneyDetail): int {
    j.legOrder
  }

  /** The objects a function reading the request's legs depends on. */
  function LegsFrame(r: Request): set<object> {
    if r.journeyDetails.Some? then {r.journeyDetails.value} else {}
  }

  /** The legs as they currently stand, if the request has any list. */
  function Legs(r: Request): Option<seq<JourneyDetail>>
    reads LegsFrame(r)
  {
    if r.journeyDetails.Some? then Some(r.journeyDetails.value[..]) else None
  }
}
