/** The requestee's four-step visit-request form: Journey, Details,
    Required services and Review. The form holds its values in field arrays
    that rows are appended to and removed from; submitting validates the
    values against the request schema, sends them, and on success starts
    over from the defaults. */
module RequestForm {
  import opened Text
  import opened RequestSchema

  // ---------------------------------------------------------------------------
  // Steps

  datatype Step = Basic | Travel | Requests | Review

  /** The position of a step in the step indicator, from 0. */
  function Position(s: Step): (n: nat)
    ensures n < 4
  {
    match s
    case Basic => 0
    case Travel => 1
    case Requests => 2
    case Review => 3
  }

  /** The step the Next button of a step opens; the review step has none. */
  function Forward(s: Step): (r: Option<Step>)
    ensures r.Some? <==> s != Review
    ensures r.Some? ==> Position(r.value) == Position(s) + 1
  {
    match s
    case Basic => Some(Travel)
    case Travel => Some(Requests)
    case Requests => Some(Review)
    case Review => None
  }

  /** The step the Back button of a step opens; the first step has none. */
  function Backward(s: Step): (r: Option<Step>)
    ensures r.Some? <==> s != Basic
    ensures r.Some? ==> Position(r.value) + 1 == Position(s)
  {
    match s
    case Basic => None
    case Travel => Some(Basic)
    case Requests => Some(Travel)
    case Review => Some(Requests)
  }

  /** Back undoes Next and Next undoes Back. */
  lemma ForwardBackwardInverse(s: Step, t: Step)
    ensures Forward(s) == Some(t) <==> Backward(t) == Some(s)
  {
  }

  /** Three Nexts from the first step reach the review. */
  lemma NextThreeTimesReachesReview()
    ensures Forward(Basic).Some? && Forward(Forward(Basic).value).Some?
    ensures Forward(Forward(Forward(Basic).value).value) == Some(Review)
  {
  }

  // ---------------------------------------------------------------------------
  // Rows

  /** The leg every form starts with. */
  const DEFAULT_LEG := LegInput(Some(1), Some(BYRAIL), Some(""), Some(""), Some(""), Some(""), Some(""), Some(""), Some(""))

  /** The guest every form starts with. */
  const DEFAULT_GUEST := GuestInput(Some(""), Some(""), Some("0"), Some(""))

  /** The leg Add Journey appends to `count` existing legs: numbered after
      them, by road, without any identifier field. */
  function NewLeg(count: nat): (l: LegInput)
    ensures l.legOrder == Some(count + 1) && l.mode == Some(BYROAD)
    ensures l.trainNumber.None? && l.flightNumber.None? && l.vehicleNumber.None?
  {
    LegInput(Some(count + 1), Some(BYROAD), Some(""), Some(""), None, None, None, Some(""), Some(""))
  }

  const NEW_VEHICLE := VehicleInput(Some(""), Some(""), Some(""), None)
  const NEW_GUESTHOUSE := GuesthouseInput(Some(""), Some(""), Some(""), Some("1"), None)
  const NEW_OTHER := OtherInput(Some(""), None)

  /** The list without its element at `i`. */
  function RemoveAt<T>(s: seq<T>, i: nat): (r: seq<T>)
    requires i < |s|
    ensures |r| == |s| - 1
    ensures forall k :: 0 <= k < i ==> r[k] == s[k]
    ensures forall k :: i <= k < |r| ==> r[k] == s[k + 1]
  {
    s[..i] + s[i + 1..]
  }

  /** `useFieldArray`'s append to a list that may not exist yet. */
  function AppendTo<T>(s: Option<seq<T>>, x: T): (r: Option<seq<T>>)
    ensures r.Some? && r.value == (if s.Some? then s.value else []) + [x]
  {
    match s
    case Some(items) => Some(items + [x])
    case None => Some([x])
  }

  /** The legs are numbered 1, 2, … in order. */
  predicate Numbered(legs: seq<LegInput>) {
    forall k :: 0 <= k < |legs| ==> legs[k].legOrder == Some(k + 1)
  }

  /** Appending to numbered legs keeps them numbered. */
  lemma AppendKeepsNumbering(legs: seq<LegInput>)
    requires Numbered(legs)
    ensures Numbered(legs + [NewLeg(|legs|)])
  {
  }

  /** Removal does not renumber: removing any leg but the last of numbered
      legs and then adding one leaves two legs with the same order. */
  lemma RemoveThenAppendDuplicatesOrder(legs: seq<LegInput>, i: nat)
    requires Numbered(legs) && i < |legs| - 1
    ensures var after := RemoveAt(legs, i) + [NewLeg(|legs| - 1)];
      && |after| == |legs|
      && after[|after| - 2].legOrder == after[|after| - 1].legOrder == Some(|legs|)
  {
  }

  /** A service row has no request location unless one was set, and no
      control of the form sets one. */
  predicate NoLocations(vehicles: Option<seq<VehicleInput>>, guesthouses: Option<seq<GuesthouseInput>>,
                        others: Option<seq<OtherInput>>)
  {
    && (vehicles.Some? ==> forall k :: 0 <= k < |vehicles.value| ==> vehicles.value[k].requestLocation.None?)
    && (guesthouses.Some? ==> forall k :: 0 <= k < |guesthouses.value| ==> guesthouses.value[k].requestLocation.None?)
    && (others.Some? ==> forall k :: 0 <= k < |others.value| ==> others.value[k].requestLocation.None?)
  }

  /** The number of service rows of a request. */
  function ServiceRows(r: RequestInput): nat {
    (if r.vehicleRequests.Some? then |r.vehicleRequests.value| else 0)
    + (if r.guesthouseRequests.Some? then |r.guesthouseRequests.value| else 0)
    + (if r.otherRequests.Some? then |r.otherRequests.value| else 0)
  }

  /** Without request locations, a request with any service row is
      rejected. */
  lemma ServiceRowBlocksSubmit(r: RequestInput)
    requires NoLocations(r.vehicleRequests, r.guesthouseRequests, r.otherRequests)
    requires ServiceRows(r) > 0
    ensures !RequestAccepted(r)
  {
    RequestAcceptedIff(r);
    if r.vehicleRequests.Some? && |r.vehicleRequests.value| > 0 {
      ServiceAcceptedIff(r.vehicleRequests.value[0], NEW_GUESTHOUSE, NEW_OTHER);
    } else if r.guesthouseRequests.Some? && |r.guesthouseRequests.value| > 0 {
      ServiceAcceptedIff(NEW_VEHICLE, r.guesthouseRequests.value[0], NEW_OTHER);
    } else {
      ServiceAcceptedIff(NEW_VEHICLE, NEW_GUESTHOUSE, r.otherRequests.value[0]);
    }
  }

  /** The defaults as they are cannot be submitted: the first leg has no
      locations. */
  lemma DefaultsRejected()
    ensures !RequestAccepted(DEFAULTS)
  {
    RequestAcceptedIff(DEFAULTS);
    LegAcceptedIff(DEFAULT_LEG);
  }

  /** The form's starting values. */
  const DEFAULTS := RequestInput(Some(""), Some(""), Some([DEFAULT_LEG]), Some([DEFAULT_GUEST]), None, None, None)

  // ---------------------------------------------------------------------------
  // The form

  class RequestFormState {
    var step: Step
    var isSubmitting: bool
    var purpose: Option<string>
    var specialNotes: Option<string>
    var legs: seq<LegInput>
    var guests: seq<GuestInput>
    var vehicles: Option<seq<VehicleInput>>
    var guesthouses: Option<seq<GuesthouseInput>>
    var others: Option<seq<OtherInput>>

    /** The values the form would submit. */
    function Values(): RequestInput
      reads this
    {
      RequestInput(purpose, specialNotes, Some(legs), Some(guests), vehicles, guesthouses, others)
    }

    /** The form always has a leg and a guest, and no service row has a
        request location. */
    predicate Valid()
      reads this
    {
      |legs| >= 1 && |guests| >= 1 && NoLocations(vehicles, guesthouses, others)
    }

    constructor()
      ensures Valid()
      ensures Values() == DEFAULTS && step == Basic && !isSubmitting
    {
      step := Basic;
      isSubmitting := false;
      purpose, specialNotes := Some(""), Some("");
      legs, guests := [DEFAULT_LEG], [DEFAULT_GUEST];
      vehicles, guesthouses, others := None, None, None;
    }

    /** The Next button of the current step. */
    method Next()
      modifies this
      ensures step == (if old(step) == Review then Review else Forward(old(step)).value)
      ensures Values() == old(Values()) && isSubmitting == old(isSubmitting)
    {
      match Forward(step)
      case Some(s) => step := s;
      case None =>
    }

    /** The Back button of the current step. */
    method Back()
      modifies this
      ensures step == (if old(step) == Basic then Basic else Backward(old(step)).value)
      ensures Values() == old(Values()) && isSubmitting == old(isSubmitting)
    {
      match Backward(step)
      case Some(s) => step := s;
      case None =>
    }

    /** An Edit button of the review step: it opens the section it belongs to. */
    method Edit(section: Step)
      requires section != Review
      modifies this
      ensures old(step) == Review ==> step == section
      ensures old(step) != Review ==> step == old(step)
      ensures Values() == old(Values()) && isSubmitting == old(isSubmitting)
    {
      if step == Review {
        step := section;
      }
    }

    /** The "Correct" action of the warning shown when validation fails. */
    method CorrectAction()
      modifies this
      ensures step == Basic
      ensures Values() == old(Values()) && isSubmitting == old(isSubmitting)
    {
      step := Basic;
    }

    method AppendJourney()
      requires Valid()
      modifies this
      ensures Valid()
      ensures legs == old(legs) + [NewLeg(|old(legs)|)]
      ensures guests == old(guests) && vehicles == old(vehicles) && guesthouses == old(guesthouses) && others == old(others)
      ensures purpose == old(purpose) && specialNotes == old(specialNotes) && step == old(step) && isSubmitting == old(isSubmitting)
    {
      legs := legs + [NewLeg(|legs|)];
    }

    /** Removing a leg; the button is disabled while only one remains. */
    method RemoveJourney(i: nat)
      requires Valid() && i < |legs|
      modifies this
      ensures Valid()
      ensures legs == if |old(legs)| == 1 then old(legs) else RemoveAt(old(legs), i)
      ensures guests == old(guests) && vehicles == old(vehicles) && guesthouses == old(guesthouses) && others == old(others)
      ensures purpose == old(purpose) && specialNotes == old(specialNotes) && step == old(step) && isSubmitting == old(isSubmitting)
    {
      if |legs| != 1 {
        legs := RemoveAt(legs, i);
      }
    }

    method AppendGuest()
      requires Valid()
      modifies this
      ensures Valid()
      ensures guests == old(guests) + [DEFAULT_GUEST]
      ensures legs == old(legs) && vehicles == old(vehicles) && guesthouses == old(guesthouses) && others == old(others)
      ensures purpose == old(purpose) && specialNotes == old(specialNotes) && step == old(step) && isSubmitting == old(isSubmitting)
    {
      guests := guests + [DEFAULT_GUEST];
    }

    /** Removing a guest; the button is disabled while only one remains. */
    method RemoveGuest(i: nat)
      requires Valid() && i < |guests|
      modifies this
      ensures Valid()
      ensures guests == if |old(guests)| == 1 then old(guests) else RemoveAt(old(guests), i)
      ensures legs == old(legs) && vehicles == old(vehicles) && guesthouses == old(guesthouses) && others == old(others)
      ensures purpose == old(purpose) && specialNotes == old(specialNotes) && step == old(step) && isSubmitting == old(isSubmitting)
    {
      if |guests| != 1 {
        guests := RemoveAt(guests, i);
      }
    }

    method AppendVehicle()
      requires Valid()
      modifies this
      ensures Valid()
      ensures vehicles == AppendTo(old(vehicles), NEW_VEHICLE)
      ensures legs == old(legs) && guests == old(guests) && guesthouses == old(guesthouses) && others == old(others)
      ensures purpose == old(purpose) && specialNotes == old(specialNotes) && step == old(step) && isSubmitting == old(isSubmitting)
    {
      vehicles := AppendTo(vehicles, NEW_VEHICLE);
    }

    /** Removing a vehicle row, which is never disabled. */
    method RemoveVehicle(i: nat)
      requires Valid() && vehicles.Some? && i < |vehicles.value|
      modifies this
      ensures Valid()
      ensures vehicles == Some(RemoveAt(old(vehicles).value, i))
      ensures legs == old(legs) && guests == old(guests) && guesthouses == old(guesthouses) && others == old(others)
      ensures purpose == old(purpose) && specialNotes == old(specialNotes) && step == old(step) && isSubmitting == old(isSubmitting)
    {
      vehicles := Some(RemoveAt(vehicles.value, i));
    }

    method AppendGuesthouse()
      requires Valid()
      modifies this
      ensures Valid()
      ensures guesthouses == AppendTo(old(guesthouses), NEW_GUESTHOUSE)
      ensures legs == old(legs) && guests == old(guests) && vehicles == old(vehicles) && others == old(others)
      ensures purpose == old(purpose) && specialNotes == old(specialNotes) && step == old(step) && isSubmitting == old(isSubmitting)
    {
      guesthouses := AppendTo(guesthouses, NEW_GUESTHOUSE);
    }

    method RemoveGuesthouse(i: nat)
      requires Valid() && guesthouses.Some? && i < |guesthouses.value|
      modifies this
      ensures Valid()
      ensures guesthouses == Some(RemoveAt(old(guesthouses).value, i))
      ensures legs == old(legs) && guests == old(guests) && vehicles == old(vehicles) && others == old(others)
      ensures purpose == old(purpose) && specialNotes == old(specialNotes) && step == old(step) && isSubmitting == old(isSubmitting)
    {
      guesthouses := Some(RemoveAt(guesthouses.value, i));
    }

    method AppendOther()
      requires Valid()
      modifies this
      ensures Valid()
      ensures others == AppendTo(old(others), NEW_OTHER)
      ensures legs == old(legs) && guests == old(guests) && vehicles == old(vehicles) && guesthouses == old(guesthouses)
      ensures purpose == old(purpose) && specialNotes == old(specialNotes) && step == old(step) && isSubmitting == old(isSubmitting)
    {
      others := AppendTo(others, NEW_OTHER);
    }

    method RemoveOther(i: nat)
      requires Valid() && others.Some? && i < |others.value|
      modifies this
      ensures Valid()
      ensures others == Some(RemoveAt(old(others).value, i))
      ensures legs == old(legs) && guests == old(guests) && vehicles == old(vehicles) && guesthouses == old(guesthouses)
      ensures purpose == old(purpose) && specialNotes == old(specialNotes) && step == old(step) && isSubmitting == old(isSubmitting)
    {
      others := Some(RemoveAt(others.value, i));
    }

    /** Typing in a leg's fields: its order is not an input, so it stays. */
    method EditLeg(i: nat, l: LegInput)
      requires Valid() && i < |legs|
      modifies this
      ensures Valid()
      ensures legs == old(legs)[i := l.(legOrder := old(legs)[i].legOrder)]
      ensures guests == old(guests) && vehicles == old(vehicles) && guesthouses == old(guesthouses) && others == old(others)
      ensures purpose == old(purpose) && specialNotes == old(specialNotes) && step == old(step) && isSubmitting == old(isSubmitting)
    {
      legs := legs[i := l.(legOrder := legs[i].legOrder)];
    }

    method EditGuest(i: nat, g: GuestInput)
      requires Valid() && i < |guests|
      modifies this
      ensures Valid()
      ensures guests == old(guests)[i := g]
      ensures legs == old(legs) && vehicles == old(vehicles) && guesthouses == old(guesthouses) && others == old(others)
      ensures purpose == old(purpose) && specialNotes == old(specialNotes) && step == old(step) && isSubmitting == old(isSubmitting)
    {
      guests := guests[i := g];
    }

    /** Typing in a vehicle row: pickup, destination and purpose have inputs,
        the request location has none. */
    method EditVehicle(i: nat, pickup: string, destination: string, why: string)
      requires Valid() && vehicles.Some? && i < |vehicles.value|
      modifies this
      ensures Valid()
      ensures vehicles == Some(old(vehicles).value[i := VehicleInput(Some(pickup), Some(destination), Some(why), None)])
      ensures legs == old(legs) && guests == old(guests) && guesthouses == old(guesthouses) && others == old(others)
      ensures purpose == old(purpose) && specialNotes == old(specialNotes) && step == old(step) && isSubmitting == old(isSubmitting)
    {
      vehicles := Some(vehicles.value[i := VehicleInput(Some(pickup), Some(destination), Some(why), None)]);
    }

    method EditGuesthouse(i: nat, checkIn: string, checkout: string, why: string, guestCount: string)
      requires Valid() && guesthouses.Some? && i < |guesthouses.value|
      modifies this
      ensures Valid()
      ensures guesthouses == Some(old(guesthouses).value[i := GuesthouseInput(Some(checkIn), Some(checkout), Some(why), Some(guestCount), None)])
      ensures legs == old(legs) && guests == old(guests) && vehicles == old(vehicles) && others == old(others)
      ensures purpose == old(purpose) && specialNotes == old(specialNotes) && step == old(step) && isSubmitting == old(isSubmitting)
    {
      guesthouses := Some(guesthouses.value[i := GuesthouseInput(Some(checkIn), Some(checkout), Some(why), Some(guestCount), None)]);
    }

    method EditOther(i: nat, why: string)
      requires Valid() && others.Some? && i < |others.value|
      modifies this
      ensures Valid()
      ensures others == Some(old(others).value[i := OtherInput(Some(why), None)])
      ensures legs == old(legs) && guests == old(guests) && vehicles == old(vehicles) && guesthouses == old(guesthouses)
      ensures purpose == old(purpose) && specialNotes == old(specialNotes) && step == old(step) && isSubmitting == old(isSubmitting)
    {
      others := Some(others.value[i := OtherInput(Some(why), None)]);
    }

    method EditText(newPurpose: string, notes: string)
      requires Valid()
      modifies this
      ensures Valid()
      ensures purpose == Some(newPurpose) && specialNotes == Some(notes)
      ensures legs == old(legs) && guests == old(guests) && vehicles == old(vehicles) && guesthouses == old(guesthouses) && others == old(others)
      ensures step == old(step) && isSubmitting == old(isSubmitting)
    {
      purpose, specialNotes := Some(newPurpose), Some(notes);
    }

    /** Pressing Confirm & Submit: nothing happens while a submit is under
        way (the button is disabled); values the schema rejects raise the
        warning and change nothing, not even the step; accepted values are
        sent and the form is busy until the answer. Since no control sets a
        service row's request location, a form with any service row is never
        sent. */
    method StartSubmit() returns (sent: Option<RequestInput>, warned: bool)
      requires Valid()
      modifies this
      ensures Valid()
      ensures old(isSubmitting) ==> sent == None && !warned && isSubmitting
      ensures !old(isSubmitting) && !RequestAccepted(old(Values())) ==> sent == None && warned && !isSubmitting
      ensures !old(isSubmitting) && RequestAccepted(old(Values())) ==> sent == Some(old(Values())) && !warned && isSubmitting
      ensures ServiceRows(old(Values())) > 0 ==> sent == None
      ensures Values() == old(Values()) && step == old(step)
    {
      sent, warned := None, false;
      if ServiceRows(Values()) > 0 {
        ServiceRowBlocksSubmit(Values());
      }
      if isSubmitting {
        return;
      }
      if !RequestAccepted(Values()) {
        warned := true;
        return;
      }
      isSubmitting := true;
      sent := Some(Values());
    }

    /** The answer to a sent request: on success the form goes back to its
        defaults and its first step; on failure both stay. Either way the
        form is no longer busy. */
    method FinishSubmit(succeeded: bool)
      requires Valid()
      modifies this
      ensures Valid()
      ensures !isSubmitting
      ensures succeeded ==> Values() == DEFAULTS && step == Basic
      ensures !succeeded ==> Values() == old(Values()) && step == old(step)
    {
      if succeeded {
        purpose, specialNotes := Some(""), Some("");
        legs, guests := [DEFAULT_LEG], [DEFAULT_GUEST];
        vehicles, guesthouses, others := None, None, None;
        step := Basic;
      }
      isSubmitting := false;
    }
  }
}
