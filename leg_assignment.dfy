/** The panel on which a protocol in-charge assigns an officer to each leg
    of a request's journey. The panel keeps its own list of leg assignments:
    assigning leg L drops every entry for L and appends the new one, so a
    leg has at most one assignment and reassigning replaces it. It also
    shows, per leg, whether a known officer holds it, and a summary of
    assigned and pending legs. */
module LegAssignment {
  import opened Text
  import opened LegOrder
  import opened RequestSchema

  datatype JourneyLeg = JourneyLeg(
    id: int,
    requestId: int,
    legOrder: int,
    mode: string,
    fromLocation: string,
    toLocation: string)

  datatype Assignment = Assignment(
    id: Option<int>,
    journeyLegId: int,
    requestId: int,
    assignedOfficerId: Option<int>,
    officerLocationId: Option<int>,
    modeOfTravel: string,
    assignmentStatus: string,
    assignedBy: int,
    specialInstructions: Option<string>)

  datatype Officer = Officer(id: int, username: string, email: string, location: Option<string>)

  /** The values of the assignment form; `officerId` is absent until an
      officer is chosen. */
  datatype AssignForm = AssignForm(officerId: Option<int>, specialInstructions: Option<string>)

  function LegKey(l: JourneyLeg): int {
    l.legOrder
  }

  // ---------------------------------------------------------------------------
  // The assignment form

  /** `legAssignmentSchema`: an officer must be chosen, with an id of at
      least 1; the instructions are free. */
  function FormIssues(f: AssignForm): (issues: set<Issue>)
    ensures issues == {} <==> f.officerId.Some? && f.officerId.value >= 1
    ensures forall iss :: iss in issues ==> iss.path == Field("officerId")
  {
    match f.officerId
    case None => {Issue(Field("officerId"), REQUIRED)}
    case Some(n) => Unless(n >= 1, "officerId", "Please select an officer")
  }

  // ---------------------------------------------------------------------------
  // Lookups

  /** `assignments.find(a => a.journey_leg_id === legId)`: the first entry
      for the leg, none if there is none. */
  function AssignmentForLeg(list: seq<Assignment>, legId: int): (r: Option<Assignment>)
    ensures r.None? <==> forall i :: 0 <= i < |list| ==> list[i].journeyLegId != legId
    ensures r.Some? ==> exists i :: 0 <= i < |list| && list[i] == r.value && list[i].journeyLegId == legId
                          && forall j :: 0 <= j < i ==> list[j].journeyLegId != legId
  {
    if list == [] then None
    else if list[0].journeyLegId == legId then Some(list[0])
    else
      AssignmentForLeg(list[1..], legId)
  }

  /** `officers.find(o => o.id === officerId)` */
  function OfficerById(officers: seq<Officer>, officerId: Option<int>): (r: Option<Officer>)
    ensures r.None? <==> forall i :: 0 <= i < |officers| ==> Some(officers[i].id) != officerId
    ensures r.Some? ==> exists i :: 0 <= i < |officers| && officers[i] == r.value && Some(officers[i].id) == officerId
                          && forall j :: 0 <= j < i ==> Some(officers[j].id) != officerId
  {
    if officers == [] then None
    else if Some(officers[0].id) == officerId then Some(officers[0])
    else
      OfficerById(officers[1..], officerId)
  }

  /** A leg is shown as assigned only when it has an assignment and that
      assignment's officer is one of the panel's officers. */
  function ShowsAssigned(list: seq<Assignment>, officers: seq<Officer>, legId: int): (b: bool)
    ensures b <==> exists i, k :: 0 <= i < |list| && 0 <= k < |officers|
                     && list[i].journeyLegId == legId && Some(officers[k].id) == list[i].assignedOfficerId
                     && forall j :: 0 <= j < i ==> list[j].journeyLegId != legId
  {
    var a := AssignmentForLeg(list, legId);
    a.Some? && OfficerById(officers, a.value.assignedOfficerId).Some?
  }

  /** The caption of a leg's button. */
  function ButtonCaption(list: seq<Assignment>, legId: int): (s: string)
    ensures s == "Reassign" <==> exists i :: 0 <= i < |list| && list[i].journeyLegId == legId
    ensures s == "Reassign" || s == "Assign"
  {
    if AssignmentForLeg(list, legId).Some? then "Reassign" else "Assign"
  }

  // ---------------------------------------------------------------------------
  // The list update

  /** The entries for other legs than `legId`, in order. */
  function Without(list: seq<Assignment>, legId: int): (r: seq<Assignment>)
    ensures |r| <= |list|
    ensures forall a :: a in r <==> a in list && a.journeyLegId != legId
  {
    if list == [] then []
    else if list[0].journeyLegId != legId then [list[0]] + Without(list[1..], legId)
    else Without(list[1..], legId)
  }

  /** The entries for leg `legId`, in order. */
  function OnLeg(list: seq<Assignment>, legId: int): (r: seq<Assignment>)
    ensures |r| <= |list|
    ensures forall a :: a in r <==> a in list && a.journeyLegId == legId
  {
    if list == [] then []
    else if list[0].journeyLegId == legId then [list[0]] + OnLeg(list[1..], legId)
    else OnLeg(list[1..], legId)
  }

  /** `[...prev.filter(a => a.journey_leg_id !== e.journey_leg_id), e]` */
  function Reassigned(list: seq<Assignment>, e: Assignment): seq<Assignment> {
    Without(list, e.journeyLegId) + [e]
  }

  lemma {:induction false} WithoutAppend(a: seq<Assignment>, b: seq<Assignment>, legId: int)
    ensures Without(a + b, legId) == Without(a, legId) + Without(b, legId)
  {
    if a != [] {
      WithoutAppend(a[1..], b, legId);
      assert (a + b)[1..] == a[1..] + b;
    } else {
      assert a + b == b;
    }
  }

  lemma {:induction false} OnLegAppend(a: seq<Assignment>, b: seq<Assignment>, legId: int)
    ensures OnLeg(a + b, legId) == OnLeg(a, legId) + OnLeg(b, legId)
  {
    if a != [] {
      OnLegAppend(a[1..], b, legId);
      assert (a + b)[1..] == a[1..] + b;
    } else {
      assert a + b == b;
    }
  }

  /** Filtering out another leg's entries keeps this leg's entries as they were. */
  lemma {:induction false} OnLegWithout(list: seq<Assignment>, legId: int, other: int)
    requires legId != other
    ensures OnLeg(Without(list, other), legId) == OnLeg(list, legId)
  {
    if list != [] {
      OnLegWithout(list[1..], legId, other);
    }
  }

  /** Filtering out a leg twice is filtering it out once. */
  lemma {:induction false} WithoutTwice(list: seq<Assignment>, legId: int)
    ensures Without(Without(list, legId), legId) == Without(list, legId)
  {
    if list != [] {
      WithoutTwice(list[1..], legId);
    }
  }

  /** After the update the leg has exactly one entry, the new one, and it is
      the last entry of the list. */
  lemma ReassignedLegHasOneEntry(list: seq<Assignment>, e: Assignment)
    ensures OnLeg(Reassigned(list, e), e.journeyLegId) == [e]
    ensures Reassigned(list, e)[|Reassigned(list, e)| - 1] == e
    ensures AssignmentForLeg(Reassigned(list, e), e.journeyLegId) == Some(e)
  {
    var w := Without(list, e.journeyLegId);
    OnLegAppend(w, [e], e.journeyLegId);
    NoEntryAfterWithout(list, e.journeyLegId);
    assert [e][1..] == [];
    var r := Reassigned(list, e);
    assert forall i :: 0 <= i < |w| ==> r[i] in w;
  }

  lemma {:induction false} NoEntryAfterWithout(list: seq<Assignment>, legId: int)
    ensures OnLeg(Without(list, legId), legId) == []
  {
    if list != [] {
      NoEntryAfterWithout(list[1..], legId);
    }
  }

  /** The entries of every other leg are kept, in their original order. */
  lemma ReassignedKeepsOtherLegs(list: seq<Assignment>, e: Assignment, legId: int)
    requires legId != e.journeyLegId
    ensures OnLeg(Reassigned(list, e), legId) == OnLeg(list, legId)
    ensures Without(Reassigned(list, e), e.journeyLegId) == Without(list, e.journeyLegId)
  {
    var w := Without(list, e.journeyLegId);
    OnLegAppend(w, [e], legId);
    OnLegWithout(list, legId, e.journeyLegId);
    assert [e][1..] == [];
    WithoutAppend(w, [e], e.journeyLegId);
    WithoutTwice(list, e.journeyLegId);
  }

  /** At most one entry per leg. */
  predicate OneEntryPerLeg(list: seq<Assignment>) {
    forall i, j :: 0 <= i < j < |list| ==> list[i].journeyLegId != list[j].journeyLegId
  }

  /** The update keeps the list at most one entry per leg. */
  lemma ReassignedKeepsOneEntryPerLeg(list: seq<Assignment>, e: Assignment)
    requires OneEntryPerLeg(list)
    ensures OneEntryPerLeg(Reassigned(list, e))
  {
    var w := Without(list, e.journeyLegId);
    WithoutKeepsOneEntryPerLeg(list, e.journeyLegId);
    var r := Reassigned(list, e);
    forall i, j | 0 <= i < j < |r| ensures r[i].journeyLegId != r[j].journeyLegId {
      if j == |w| {
        assert r[i] in w;
      } else {
        assert r[i] == w[i] && r[j] == w[j];
      }
    }
  }

  /** Keeping only some entries keeps any two of them in order, so no two
      entries for one leg appear where there were none. */
  lemma {:induction false} WithoutKeepsOneEntryPerLeg(list: seq<Assignment>, legId: int)
    requires OneEntryPerLeg(list)
    ensures OneEntryPerLeg(Without(list, legId))
  {
    if list != [] {
      WithoutKeepsOneEntryPerLeg(list[1..], legId);
      var rest := Without(list[1..], legId);
      if list[0].journeyLegId != legId {
        var r := [list[0]] + rest;
        forall i, j | 0 <= i < j < |r| ensures r[i].journeyLegId != r[j].journeyLegId {
          if i == 0 {
            assert r[j] in rest;
            assert r[j] in list[1..];
            var k :| 0 <= k < |list[1..]| && list[1..][k] == r[j];
            assert list[k + 1] == r[j];
          } else {
            assert r[i] == rest[i - 1] && r[j] == rest[j - 1];
          }
        }
      }
    }
  }

  /** Assigning a leg twice leaves the second assignment only: the first
      one is replaced, not kept beside it. */
  lemma ReassignTwice(list: seq<Assignment>, a: Assignment, b: Assignment)
    requires a.journeyLegId == b.journeyLegId
    ensures Reassigned(Reassigned(list, a), b) == Reassigned(list, b)
  {
    var w := Without(list, a.journeyLegId);
    WithoutAppend(w, [a], a.journeyLegId);
    assert Without([a], a.journeyLegId) == [];
    WithoutTwice(list, a.journeyLegId);
  }

  // ---------------------------------------------------------------------------
  // Summary counts

  /** `assignments.filter(a => a.assigned_officer_id).length`: entries whose
      officer id is present and not 0. */
  function AssignedCount(list: seq<Assignment>): (n: nat)
    ensures n <= |list|
  {
    if list == [] then 0
    else (if Truthy0(list[0].assignedOfficerId) then 1 else 0) + AssignedCount(list[1..])
  }

  /** JavaScript truthiness of an optional number. */
  predicate Truthy0(n: Option<int>) {
    n.Some? && n.value != 0
  }

  /** "Pending" as displayed: the number of legs minus the assigned entries,
      not clamped at zero. */
  function PendingCount(legCount: nat, list: seq<Assignment>): (n: int)
    ensures n + AssignedCount(list) == legCount
  {
    legCount - AssignedCount(list)
  }

  lemma {:induction false} AssignedCountAppend(a: seq<Assignment>, b: seq<Assignment>)
    ensures AssignedCount(a + b) == AssignedCount(a) + AssignedCount(b)
  {
    if a != [] {
      AssignedCountAppend(a[1..], b);
      assert (a + b)[1..] == a[1..] + b;
    } else {
      assert a + b == b;
    }
  }

  /** Assigning an officer to a leg counts that leg once, however many
      entries it had before. */
  lemma AssignedCountAfterReassign(list: seq<Assignment>, e: Assignment)
    requires Truthy0(e.assignedOfficerId)
    ensures AssignedCount(Reassigned(list, e)) == AssignedCount(Without(list, e.journeyLegId)) + 1
  {
    AssignedCountAppend(Without(list, e.journeyLegId), [e]);
    assert [e][1..] == [];
  }

  /** The pending count goes negative when the list holds more assigned
      entries than there are legs. */
  lemma PendingCanBeNegative(a: Assignment)
    requires Truthy0(a.assignedOfficerId)
    ensures PendingCount(0, [a]) == -1
  {
    assert [a][1..] == [];
  }

  /** No two legs share an id. */
  predicate DistinctLegIds(legs: seq<JourneyLeg>) {
    forall i, j :: 0 <= i < j < |legs| ==> legs[i].id != legs[j].id
  }

  /** Whether some leg has id `legId`. */
  predicate IsLegId(legs: seq<JourneyLeg>, legId: int) {
    exists k :: 0 <= k < |legs| && legs[k].id == legId
  }

  /** Every entry belongs to one of the legs. */
  predicate EntriesOnLegs(legs: seq<JourneyLeg>, list: seq<Assignment>) {
    forall i :: 0 <= i < |list| ==> IsLegId(legs, list[i].journeyLegId)
  }

  /** A leg is held when one of its entries has an officer id that is
      present and not 0. */
  predicate LegHeld(list: seq<Assignment>, legId: int) {
    exists i :: 0 <= i < |list| && list[i].journeyLegId == legId && Truthy0(list[i].assignedOfficerId)
  }

  /** The number of legs no entry holds. */
  function UnheldLegs(legs: seq<JourneyLeg>, list: seq<Assignment>): (n: nat)
    ensures n <= |legs|
  {
    if legs == [] then 0
    else (if LegHeld(list, legs[0].id) then 0 else 1) + UnheldLegs(legs[1..], list)
  }

  /** The assigned entries split into those of one leg and those of the rest. */
  lemma {:induction false} AssignedCountSplits(list: seq<Assignment>, legId: int)
    ensures AssignedCount(list) == AssignedCount(OnLeg(list, legId)) + AssignedCount(Without(list, legId))
  {
    if list != [] {
      AssignedCountSplits(list[1..], legId);
      var x := list[0];
      if x.journeyLegId == legId {
        assert ([x] + OnLeg(list[1..], legId))[1..] == OnLeg(list[1..], legId);
      } else {
        assert ([x] + Without(list[1..], legId))[1..] == Without(list[1..], legId);
      }
    }
  }

  /** With one entry per leg, a leg's assigned entries number 1 exactly
      when the leg is held. */
  lemma OneLegAssignedCount(list: seq<Assignment>, legId: int)
    requires OneEntryPerLeg(list)
    ensures AssignedCount(OnLeg(list, legId)) == if LegHeld(list, legId) then 1 else 0
  {
    OnLegHasOneEntry(list, legId);
    var on := OnLeg(list, legId);
    if on == [] {
      OnLegEmptyMeansNone(list, legId);
    } else {
      assert on[0] in list;
      var p :| 0 <= p < |list| && list[p] == on[0];
      forall i | 0 <= i < |list| && list[i].journeyLegId == legId
        ensures i == p
      {
      }
      assert on == [on[0]];
    }
  }

  /** A leg without entries in the filtered list has none in the list. */
  lemma {:induction false} OnLegEmptyMeansNone(list: seq<Assignment>, legId: int)
    ensures OnLeg(list, legId) == [] ==> forall i :: 0 <= i < |list| ==> list[i].journeyLegId != legId
  {
    if list != [] {
      OnLegEmptyMeansNone(list[1..], legId);
      if OnLeg(list, legId) == [] {
        forall i | 0 <= i < |list| ensures list[i].journeyLegId != legId {
          if i > 0 {
            assert list[i] == list[1..][i - 1];
          }
        }
      }
    }
  }

  /** A list with no entry for a leg has nothing to keep for it. */
  lemma {:induction false} NoneMeansOnLegEmpty(list: seq<Assignment>, legId: int)
    requires forall i :: 0 <= i < |list| ==> list[i].journeyLegId != legId
    ensures OnLeg(list, legId) == []
  {
    if list != [] {
      assert forall i :: 0 <= i < |list[1..]| ==> list[1..][i] == list[i + 1];
      NoneMeansOnLegEmpty(list[1..], legId);
    }
  }

  /** With one entry per leg, a leg has at most one entry. */
  lemma {:induction false} OnLegHasOneEntry(list: seq<Assignment>, legId: int)
    requires OneEntryPerLeg(list)
    ensures |OnLeg(list, legId)| <= 1
  {
    if list != [] {
      var tail := list[1..];
      assert forall i :: 0 <= i < |tail| ==> tail[i] == list[i + 1];
      OnLegHasOneEntry(tail, legId);
      if list[0].journeyLegId == legId {
        NoneMeansOnLegEmpty(tail, legId);
      }
    }
  }

  /** Dropping the entries of a leg outside `legs` changes no leg's being held. */
  lemma {:induction false} UnheldLegsWithout(legs: seq<JourneyLeg>, list: seq<Assignment>, legId: int)
    requires !IsLegId(legs, legId)
    ensures UnheldLegs(legs, Without(list, legId)) == UnheldLegs(legs, list)
  {
    if legs != [] {
      var w := Without(list, legId);
      var id := legs[0].id;
      assert id != legId;
      if LegHeld(list, id) {
        var i :| 0 <= i < |list| && list[i].journeyLegId == id && Truthy0(list[i].assignedOfficerId);
        assert list[i] in w;
        var k :| 0 <= k < |w| && w[k] == list[i];
      }
      if LegHeld(w, id) {
        var k :| 0 <= k < |w| && w[k].journeyLegId == id && Truthy0(w[k].assignedOfficerId);
        assert w[k] in list;
        var i :| 0 <= i < |list| && list[i] == w[k];
      }
      forall k | 0 <= k < |legs[1..]| ensures legs[1..][k].id != legId {
        assert legs[1..][k] == legs[k + 1];
      }
      UnheldLegsWithout(legs[1..], list, legId);
    }
  }

  /** When the legs have distinct ids and the list holds at most one entry
      per leg, all of them for these legs, the displayed pending count is
      the number of legs no officer holds. */
  lemma {:induction false} PendingCountIsUnheldLegs(legs: seq<JourneyLeg>, list: seq<Assignment>)
    requires DistinctLegIds(legs) && OneEntryPerLeg(list) && EntriesOnLegs(legs, list)
    ensures PendingCount(|legs|, list) == UnheldLegs(legs, list)
  {
    if legs == [] {
      assert forall x :: !IsLegId(legs, x);
    } else {
      var id := legs[0].id;
      var rest := legs[1..];
      var w := Without(list, id);
      AssignedCountSplits(list, id);
      OneLegAssignedCount(list, id);
      WithoutKeepsOneEntryPerLeg(list, id);
      assert DistinctLegIds(rest) by {
        forall i, j | 0 <= i < j < |rest| ensures rest[i].id != rest[j].id {
          assert rest[i] == legs[i + 1] && rest[j] == legs[j + 1];
        }
      }
      forall k | 0 <= k < |rest| ensures rest[k].id != id {
        assert rest[k] == legs[k + 1];
      }
      assert EntriesOnLegs(rest, w) by {
        forall i | 0 <= i < |w| ensures IsLegId(rest, w[i].journeyLegId) {
          assert w[i] in list;
          var p :| 0 <= p < |list| && list[p] == w[i];
          assert IsLegId(legs, list[p].journeyLegId);
          var k :| 0 <= k < |legs| && legs[k].id == w[i].journeyLegId;
          assert k != 0;
          assert rest[k - 1] == legs[k];
        }
      }
      PendingCountIsUnheldLegs(rest, w);
      UnheldLegsWithout(rest, list, id);
    }
  }

  // ---------------------------------------------------------------------------
  // The panel

  /** The entry the panel appends for `leg`: assigned to the chosen officer
      by user 1, with the leg's mode of travel. */
  function NewAssignment(leg: JourneyLeg, requestId: int, form: AssignForm, newId: int): Assignment {
    Assignment(Some(newId), leg.id, requestId, form.officerId, None, leg.mode, "assigned", 1, form.specialInstructions)
  }

  /** The form as `useForm` starts it and as `reset()` leaves it: no
      default values, so both inputs are `undefined`. */
  const EMPTY_FORM := AssignForm(None, None)

  class LegAssignmentPanel {
    const requestId: int
    const journeyLegs: array<JourneyLeg>
    const officers: seq<Officer>
    var assignments: seq<Assignment>
    var selectedLeg: Option<JourneyLeg>
    var form: AssignForm

    constructor(requestId: int, journeyLegs: array<JourneyLeg>, officers: seq<Officer>, existing: seq<Assignment>)
      ensures this.requestId == requestId && this.journeyLegs == journeyLegs && this.officers == officers
      ensures assignments == existing && selectedLeg == None && form == EMPTY_FORM
    {
      this.requestId := requestId;
      this.journeyLegs := journeyLegs;
      this.officers := officers;
      assignments := existing;
      selectedLeg := None;
      form := EMPTY_FORM;
    }

    /** Clicking a leg's button selects it, or deselects it when it is the
        selected leg (legs are compared by id). The form keeps its inputs. */
    method ToggleSelect(leg: JourneyLeg)
      modifies this
      ensures old(selectedLeg).Some? && old(selectedLeg).value.id == leg.id ==> selectedLeg == None
      ensures !(old(selectedLeg).Some? && old(selectedLeg).value.id == leg.id) ==> selectedLeg == Some(leg)
      ensures assignments == old(assignments) && form == old(form)
    {
      if selectedLeg.Some? && selectedLeg.value.id == leg.id {
        selectedLeg := None;
      } else {
        selectedLeg := Some(leg);
      }
    }

    /** Choosing an officer in the list stores the option's id, read back
        with `parseInt` from the id's own text. */
    method ChooseOfficer(officerId: int)
      modifies this
      ensures form == old(form).(officerId := Some(officerId))
      ensures assignments == old(assignments) && selectedLeg == old(selectedLeg)
    {
      form := form.(officerId := Some(officerId));
    }

    /** Typing in the instructions box. */
    method EditInstructions(text: string)
      modifies this
      ensures form == old(form).(specialInstructions := Some(text))
      ensures assignments == old(assignments) && selectedLeg == old(selectedLeg)
    {
      form := form.(specialInstructions := Some(text));
    }

    /** The form's Cancel button: the selection clears and the form is reset. */
    method Cancel()
      modifies this
      ensures selectedLeg == None && form == EMPTY_FORM && assignments == old(assignments)
    {
      selectedLeg := None;
      form := EMPTY_FORM;
    }

    /** Submitting the form: an invalid form is refused with its issues and
        nothing changes; with no leg selected nothing changes either;
        otherwise the leg's entries are replaced by the new one, the
        selection is cleared, the form is reset and `completed` reports
        that the parent's `onAssignmentComplete` runs. */
    method Submit(newId: int) returns (issues: set<Issue>, completed: bool)
      modifies this
      ensures issues == FormIssues(old(form))
      ensures completed <==> issues == {} && old(selectedLeg).Some?
      ensures !completed ==>
                assignments == old(assignments) && selectedLeg == old(selectedLeg) && form == old(form)
      ensures completed ==>
                && assignments == Reassigned(old(assignments), NewAssignment(old(selectedLeg).value, requestId, old(form), newId))
                && selectedLeg == None
                && form == EMPTY_FORM
    {
      completed := false;
      issues := FormIssues(form);
      if issues != {} {
        return;
      }
      if selectedLeg.None? {
        return;
      }
      var leg := selectedLeg.value;
      var entry := NewAssignment(leg, requestId, form, newId);
      assignments := Without(assignments, leg.id) + [entry];
      selectedLeg := None;
      form := EMPTY_FORM;
      completed := true;
    }

    /** The panel lists the legs after sorting the array it was given, in
        place, by `leg_order`. */
    method SortLegs()
      modifies journeyLegs
      ensures journeyLegs[..] == SortBy(old(journeyLegs[..]), LegKey)
    {
      SortInPlace(journeyLegs, LegKey);
    }
  }

  /** A successful submit leaves the selected leg with exactly one entry,
      which names the chosen officer and instructions, the leg's mode, the
      panel's request and the status "assigned", and it leaves every other
      leg's entries as they were. */
  lemma SubmittedEntry(list: seq<Assignment>, leg: JourneyLeg, requestId: int, form: AssignForm, newId: int, other: int)
    requires FormIssues(form) == {}
    requires other != leg.id
    ensures var e := NewAssignment(leg, requestId, form, newId);
      && OnLeg(Reassigned(list, e), leg.id) == [e]
      && e.assignedOfficerId == form.officerId && e.specialInstructions == form.specialInstructions
      && e.modeOfTravel == leg.mode && e.requestId == requestId && e.assignmentStatus == "assigned"
      && OnLeg(Reassigned(list, e), other) == OnLeg(list, other)
      && AssignedCount(Reassigned(list, e)) == AssignedCount(Without(list, leg.id)) + 1
  {
    var e := NewAssignment(leg, requestId, form, newId);
    ReassignedLegHasOneEntry(list, e);
    ReassignedKeepsOtherLegs(list, e, other);
    AssignedCountAfterReassign(list, e);
  }
}
