# Protocol app: the client-side rules, in Dafny

The protocol app is a web front end. Through it:

- requestees file visit requests: guests, journey legs, and vehicle, guesthouse and other services;
- a protocol in-charge assigns officers to pending requests and adds services to them;
- every user sees a role-filtered menu.

This project models the rules the client applies itself and proves what they promise. The server, the network and the rendering are outside it.

Each page module follows one source file; `Text`, `LegOrder` and `Requests` are helpers the pages share.

- `Text`: the JavaScript string and number operations these files rely on. It covers truthiness, `split`, `join`, `replace` of the first occurrence, `parseInt` on decimal text, `Number` on digit strings, truncating `%`, and upper-casing of the first letter. It also defines the shapes the forms' regular expressions accept.
- `LegOrder`: the stable sort by `leg_order` that the card, the modal, the table and the leg panel apply. `SortBy` is insertion sort. `SortInPlace` sorts an array in place and is proved equal to it.
- `Requests`: the request records the pages display. `journeyDetails` is an array, so the card's in-place sort is visible to everyone who holds the request.
- `RequestSchema`: the request form's validation schema, as the set of issues it reports. It includes the abort rule: the per-mode refinement runs only when no leg field aborted.
- `RequestForm`: the four-step request form, as a class holding the form values and the step. It covers the field arrays' append and remove, the submit guard, and the reset after success.
- `StatusCard`: the requestee's status cards. It covers status and priority badges, date and 12-hour time text, leg icons and labels, the first leg, the counts, and the modal's open and close.
- `LegAssignment`: the per-leg officer panel. Reassigning a leg drops its old entries and appends the new one. It also covers the assigned and pending counts, the selection toggle, the form the panel holds and resets, and the in-place sort of the legs. The parent's `onAssignmentComplete` callback is reported as a `completed` flag.
- `PendingRequests`: the in-charge's table of pending requests. It covers paging, how the server's answer is read, the route column, the assign dialog, and the three service forms. Each form reports the first message per field, and a valid form sends its call.
- `Api`: the API layer. It covers the error text shown for a failed call, the single refresh-and-retry on a 401 answer, the pending-requests query and the service endpoints.
- `Auth`: the authentication context, as a class holding the user, the loading flag and the initialised flag. It covers the start-up check, login with its landing page per role, register, logout, token refresh, the role tests and the role flags.
- `Sidebar`: the menu table filtered by role, the active entry, the collapse toggle and the role caption.

Server answers are parameters of the methods that await them: an `Answer` that is either a value or the failure thrown. Random ids are parameters too. Each method returns the call it would make, if any, and the navigation target.

The request form never lets the user enter `requestLocation`, yet the schema requires it in every vehicle, guesthouse and other row. So a form with any service row cannot pass validation. `RequestForm.ServiceRowBlocksSubmit` and `RequestForm.RequestFormState.StartSubmit` state this.

## Model

| member | source | states |
|---|---|---|
| Text.ReplaceFirst | src/components/layouts/sidebar.tsx:144 | without an occurrence the text is unchanged; otherwise exactly the first occurrence is replaced and the rest kept |
| Text.SplitOn | src/components/RequestStatusCard.tsx:123 | the pieces hold no separator and joining them with it gives back the text |
| Text.Capitalize | src/components/RequestStatusCard.tsx:93 | same length, first character upper-cased, the rest unchanged |
| Text.ParseInt | src/components/RequestStatusCard.tsx:124 | a string of decimal digits parses to its decimal value |
| Text.JsRem | src/components/RequestStatusCard.tsx:126 | JavaScript's remainder: dividend = divisor × truncated quotient + remainder, \|remainder\| < divisor, remainder takes the dividend's sign |
| Text.NatToStringRoundTrip | src/lib/api.ts:117 | reading back the decimal text of an id gives the id |
| Text.IntToStringInjective | src/lib/api.ts:117 | distinct ids give distinct decimal texts |
| Text.Truthy | src/schemas/request.schema.ts:24 | JavaScript truthiness of an optional text: present and non-empty; the `!data.trainNumber` and `if (!fe[k])` tests use it, and ModeRuleNamesItsField and Record state its effect |
| Text.IntToString | src/lib/api.ts:117 | `${requestId}` for any integer; NatToStringRoundTrip and IntToStringInjective state its properties |
| Text.Join | src/components/protocol/PendingRequestsTable.tsx:261 | `parts.join(sep)`; SplitOn states that joining the pieces of a split gives the text back, and JoinHead what the joined text starts with |
| Text.JoinHead | src/components/protocol/PendingRequestsTable.tsx:261 | a join of two or more parts starts with the first part and the separator |
| LegOrder.SortBySorted | src/components/RequestStatusCard.tsx:137 | the sorted legs are ordered by `leg_order` |
| LegOrder.SortBy | src/components/RequestStatusCard.tsx:137 | insertion sort by the key; SortBySorted, SortByPermutation and SortByFirstIsMinimal state its properties |
| LegOrder.SortByPermutation | src/components/RequestStatusCard.tsx:137 | sorting keeps exactly the same legs (multiset equality) |
| LegOrder.SortByFirstIsMinimal | src/components/RequestStatusCard.tsx:137 | the first sorted leg is one of the legs and has the least `leg_order` |
| LegOrder.InsertHead | src/components/RequestStatusCard.tsx:137 | inserting into a sorted list changes the head only for a strictly smaller key, so equal keys keep their order |
| LegOrder.SortByFirstIsEarliest | src/components/RequestStatusCard.tsx:137 | the first sorted leg is the earliest listed among those of least key: every leg listed before it has a larger key |
| LegOrder.InsertSorted | src/components/RequestStatusCard.tsx:286 | inserting into a sorted list keeps it sorted |
| LegOrder.InsertMultiset | src/components/RequestStatusCard.tsx:286 | inserting adds exactly the one element |
| LegOrder.InsertLast | src/components/RequestStatusCard.tsx:286 | moves the element at i into place among the sorted prefix, in the array, leaving the rest untouched |
| LegOrder.SortInPlace | src/components/protocol/JourneyLegAssignment.tsx:158-159 | the array afterwards holds the stable sort of its old contents |
| RequestSchema.NonEmptyText | src/schemas/request.schema.ts:5-6 | no issue exactly when the text is present and non-empty; any issue names the field |
| RequestSchema.ShapedText | src/schemas/request.schema.ts:7 | no issue exactly when the text is present and matches the pattern |
| RequestSchema.OptionalShapedText | src/schemas/request.schema.ts:8 | no issue exactly when the text is absent or matches the pattern |
| RequestSchema.DateText | src/schemas/request.schema.ts:75-76 | no issue exactly when the date is present and shaped YYYY-MM-DD |
| RequestSchema.LegFieldIssues | src/schemas/request.schema.ts:11-20 | no field issue exactly when order ≥ 1, a known mode, both locations, a YYYY-MM-DD date and an optional HH:mm time |
| RequestSchema.LegAborted | src/schemas/request.schema.ts:11-23 | a required field absent or a mode outside the enum, after which zod skips the `superRefine`; LegIssues and LegAcceptedIff use it |
| RequestSchema.NonEmptyArray | src/schemas/request.schema.ts:61-62 | no issue exactly when the array is present, has at least one item and every item passes |
| RequestSchema.ElementIssues | src/schemas/request.schema.ts:61-62 | every item's issues under the array name and the item's index; ElementIssueAt and ElementIssuesEmpty state its properties |
| RequestSchema.OptionalArray | src/schemas/request.schema.ts:65-71 | no issue exactly when the array is absent or every item passes |
| RequestSchema.ElementIssueAt | src/schemas/request.schema.ts:61 | an item's issue is reported under the array's name and the item's index |
| RequestSchema.ElementIssuesEmpty | src/schemas/request.schema.ts:61-62 | an array reports nothing exactly when no item does |
| RequestSchema.GuestAcceptedIff | src/schemas/request.schema.ts:4-9 | a guest passes exactly when both names are non-empty, age is digits and a given contact is ten digits |
| RequestSchema.GuestIssues | src/schemas/request.schema.ts:4-9 | the guest schema's issues; GuestAcceptedIff states when there are none |
| RequestSchema.GuestAgeAndContactEdges | src/schemas/request.schema.ts:7-8 | age "0" and a missing contact pass; an empty contact fails with the ten-digit message |
| RequestSchema.LegAcceptedIff | src/schemas/request.schema.ts:11-44 | a leg passes exactly when its fields pass and its mode's identifier is non-empty |
| RequestSchema.LegIssues | src/schemas/request.schema.ts:11-44 | the leg schema's issues, with the per-mode rule only when no field aborted; LegAcceptedIff states when there are none |
| RequestSchema.ModeRuleIssues | src/schemas/request.schema.ts:23-44 | the per-mode identifier rule; ModeRuleNamesItsField states what it reports |
| RequestSchema.ModeRuleNamesItsField | src/schemas/request.schema.ts:23-44 | a missing train, flight or vehicle number is reported on its own field with its message, and only for its own mode |
| RequestSchema.ShapeChecksOnly | src/schemas/request.schema.ts:19-20 | the date and time patterns check shape only: 2025-13-45 and 99:99 pass |
| RequestSchema.RequestAcceptedIff | src/schemas/request.schema.ts:56-89 | a request passes exactly when it has at least one leg and one guest, all pass, and every given service row passes |
| RequestSchema.RequestIssues | src/schemas/request.schema.ts:56-89 | the request schema's issues; RequestAcceptedIff states when there are none |
| RequestSchema.RequestAccepted | src/schemas/request.schema.ts:56-89 | the schema accepts exactly when there is no issue; RequestAcceptedIff states the condition |
| RequestSchema.PurposeAndNotesAreFree | src/schemas/request.schema.ts:58-59 | purpose and notes never change the outcome |
| RequestSchema.RailLegReportedAtIndex | src/schemas/request.schema.ts:24-29 | a rail leg without train number is reported at journeyDetails.i.trainNumber |
| RequestSchema.ServiceAcceptedIff | src/schemas/request.schema.ts:65-88 | each service row passes exactly when all its required texts are non-empty, dates are shaped and the guest count is digits |
| RequestSchema.VehicleIssues | src/schemas/request.schema.ts:65-71 | the vehicle row schema's issues; ServiceAcceptedIff states when there are none |
| RequestSchema.GuesthouseIssues | src/schemas/request.schema.ts:74-81 | the guesthouse row schema's issues; ServiceAcceptedIff states when there are none |
| RequestSchema.OtherIssues | src/schemas/request.schema.ts:83-88 | the other-service row schema's issues; ServiceAcceptedIff states when there are none |
| RequestSchema.GuestCountZeroPasses | src/schemas/request.schema.ts:78 | a guest count of "0" passes despite the "positive" message |
| RequestForm.Forward | src/components/RequestForm.tsx:529 | Next moves one step on, and Review has no Next |
| RequestForm.Backward | src/components/RequestForm.tsx:720 | Back moves one step back, and Basic has no Back |
| RequestForm.ForwardBackwardInverse | src/components/RequestForm.tsx:1013-1017 | Next from s reaches t exactly when Back from t reaches s |
| RequestForm.NextThreeTimesReachesReview | src/components/RequestForm.tsx:1017 | three Nexts from Basic reach Review |
| RequestForm.NewLeg | src/components/RequestForm.tsx:469-478 | an added leg is numbered count+1, goes by road and has no identifier fields |
| RequestForm.RemoveAt | src/components/RequestForm.tsx:251 | removing an item shifts the later items down by one and keeps the earlier ones |
| RequestForm.AppendTo | src/components/RequestForm.tsx:828-832 | appending to an absent array creates it with the one item |
| RequestForm.AppendKeepsNumbering | src/components/RequestForm.tsx:469-478 | appending to legs numbered 1..n gives legs numbered 1..n+1 |
| RequestForm.RemoveThenAppendDuplicatesOrder | src/components/RequestForm.tsx:251 | removing a leg other than the last and then appending gives two legs with the same order |
| RequestForm.ServiceRowBlocksSubmit | src/components/RequestForm.tsx:828-832 | with no location entered, any service row makes the request fail validation |
| RequestForm.DefaultsRejected | src/components/RequestForm.tsx:50-76 | the form's initial values do not pass validation |
| RequestForm.RequestFormState.constructor | src/components/RequestForm.tsx:42-76 | the form starts on Basic, not submitting, with one rail leg and one guest |
| RequestForm.RequestFormState.Next | src/components/RequestForm.tsx:724 | step moves forward, values unchanged |
| RequestForm.RequestFormState.Back | src/components/RequestForm.tsx:1272 | step moves back, values unchanged |
| RequestForm.RequestFormState.Edit | src/components/RequestForm.tsx:1041 | from Review the Edit buttons jump to their section |
| RequestForm.RequestFormState.CorrectAction | src/components/RequestForm.tsx:151-160 | the toast's Correct action returns to Basic |
| RequestForm.RequestFormState.AppendJourney | src/components/RequestForm.tsx:469-478 | one numbered road leg is appended, nothing else changes |
| RequestForm.RequestFormState.RemoveJourney | src/components/RequestForm.tsx:246-253 | the leg is removed unless it is the only one |
| RequestForm.RequestFormState.AppendGuest | src/components/RequestForm.tsx:701-706 | one blank guest is appended |
| RequestForm.RequestFormState.RemoveGuest | src/components/RequestForm.tsx:583-589 | the guest is removed unless it is the only one |
| RequestForm.RequestFormState.AppendVehicle | src/components/RequestForm.tsx:828-832 | one blank vehicle row is appended |
| RequestForm.RequestFormState.RemoveVehicle | src/components/RequestForm.tsx:817 | the vehicle row is removed |
| RequestForm.RequestFormState.AppendGuesthouse | src/components/RequestForm.tsx:956-961 | one guesthouse row with guest count "1" is appended |
| RequestForm.RequestFormState.RemoveGuesthouse | src/components/RequestForm.tsx:945 | the guesthouse row is removed |
| RequestForm.RequestFormState.AppendOther | src/components/RequestForm.tsx:1001 | one blank other row is appended |
| RequestForm.RequestFormState.RemoveOther | src/components/RequestForm.tsx:991 | the other row is removed |
| RequestForm.RequestFormState.EditLeg | src/components/RequestForm.tsx:296-446 | the leg's inputs change, its order does not, nothing else changes |
| RequestForm.RequestFormState.EditGuest | src/components/RequestForm.tsx:600-675 | the guest's four inputs change, nothing else changes |
| RequestForm.RequestFormState.EditVehicle | src/components/RequestForm.tsx:751-794 | the three inputs change, the location stays unset, nothing else changes |
| RequestForm.RequestFormState.EditGuesthouse | src/components/RequestForm.tsx:856-920 | the four inputs change, the location stays unset, nothing else changes |
| RequestForm.RequestFormState.EditOther | src/components/RequestForm.tsx:984 | the purpose changes, the location stays unset, nothing else changes |
| RequestForm.RequestFormState.EditText | src/components/RequestForm.tsx:50-51 | purpose and notes change, nothing else changes |
| RequestForm.RequestFormState.StartSubmit | src/components/RequestForm.tsx:124-160 | submitting is ignored; invalid values warn and send nothing; valid values are sent as they are; a form with service rows sends nothing |
| RequestForm.RequestFormState.FinishSubmit | src/components/RequestForm.tsx:130-138 | success resets the values and the step, failure keeps both; submitting ends |
| StatusCard.StatusEntry | src/components/RequestStatusCard.tsx:79-85 | a style exists exactly for the five known statuses |
| StatusCard.GetStatusBadge | src/components/RequestStatusCard.tsx:78-96 | known statuses use their style, unknown ones the pending style; the caption is the status with its first letter upper-cased |
| StatusCard.UnknownStatusLooksPending | src/components/RequestStatusCard.tsx:87 | an unknown status looks pending but keeps its own caption |
| StatusCard.PriorityEntry | src/components/RequestStatusCard.tsx:99-103 | a tone exists exactly for high, medium and low |
| StatusCard.GetPriorityBadge | src/components/RequestStatusCard.tsx:98-110 | unknown or missing priorities use the medium tone; a missing one reads "Normal", a given one capitalised |
| StatusCard.FormatDate | src/components/RequestStatusCard.tsx:112-119 | "N/A" exactly for a missing or empty date, otherwise the localised date of the given text |
| StatusCard.TwelveHour | src/components/RequestStatusCard.tsx:125-126 | a non-negative hour maps to 1..12 congruent to it mod 12; an unparsable hour gives 12 |
| StatusCard.FormatTime | src/components/RequestStatusCard.tsx:121-128 | a missing or empty time gives the empty text |
| StatusCard.FormatTimeOfShapedTime | src/components/RequestStatusCard.tsx:121-128 | an HH:mm time reads as twelve-hour hour, the same minutes, and AM before 12, PM from 12 |
| StatusCard.Meridiem | src/components/RequestStatusCard.tsx:125 | "PM" from hour 12, "AM" before; TwelveHourRoundTrip states that it and the twelve-hour value recover the hour |
| StatusCard.TwelveHourClock | src/components/RequestStatusCard.tsx:125-127 | the twelve-hour text of an hour and its minutes; FormatTimeOfShapedTime states that formatTime gives it |
| StatusCard.TwelveOClock | src/components/RequestStatusCard.tsx:126 | hours 0 and 12 both read "12" |
| StatusCard.TwelveHourRoundTrip | src/components/RequestStatusCard.tsx:126 | for hours 0..23 the twelve-hour hour and the meridiem give back the hour |
| StatusCard.MidnightHour | src/components/RequestStatusCard.tsx:125-127 | 00:mm reads as 12:mm AM |
| StatusCard.NoonHour | src/components/RequestStatusCard.tsx:125-127 | 12:mm reads as 12:mm PM |
| StatusCard.GetModeIcon | src/components/RequestStatusCard.tsx:212-219 | plane, train and car exactly for the three modes, a pin otherwise |
| StatusCard.ModeLabel | src/components/RequestStatusCard.tsx:301 | a leading "BY" is dropped |
| StatusCard.ModeLabels | src/components/RequestStatusCard.tsx:301 | the three modes read AIR, RAIL, ROAD |
| StatusCard.SortJourneys | src/components/RequestStatusCard.tsx:286 | the modal lists the legs sorted by order |
| StatusCard.FirstJourney | src/components/RequestStatusCard.tsx:137 | the card shows the head of the stably sorted legs: a leg of least `leg_order`, the earliest listed among ties by SortByFirstIsEarliest; the request's own legs are left sorted |
| StatusCard.CardArrival | src/components/RequestStatusCard.tsx:176-181 | the arrival line shows exactly when there is a first leg, with its formatted date |
| StatusCard.LatestAssignment | src/components/RequestStatusCard.tsx:136 | the first assignment listed, when there is one |
| StatusCard.GuestCount | src/components/RequestStatusCard.tsx:173 | the number of guests, 0 without a list |
| StatusCard.ShowsVehicles | src/components/RequestStatusCard.tsx:183-188 | the vehicle line shows exactly when there is a vehicle request |
| StatusCard.ShowsAccommodation | src/components/RequestStatusCard.tsx:190-195 | the accommodation line shows exactly when there is a guesthouse request |
| StatusCard.RequestDashboard.constructor | src/components/RequestStatusCard.tsx:75-76 | no request selected, modal closed |
| StatusCard.RequestDashboard.CardClick | src/components/RequestStatusCard.tsx:130-133 | clicking a card selects it and opens the modal |
| StatusCard.RequestDashboard.CloseModal | src/components/RequestStatusCard.tsx:498 | closing keeps the selection |
| LegAssignment.FormIssues | src/components/protocol/JourneyLegAssignment.tsx:61-64 | no issue exactly when an officer id ≥ 1 is given; issues name officerId |
| LegAssignment.AssignmentForLeg | src/components/protocol/JourneyLegAssignment.tsx:99-101 | none exactly when no entry is for the leg; otherwise an entry for the leg |
| LegAssignment.OfficerById | src/components/protocol/JourneyLegAssignment.tsx:103-105 | none exactly when no officer has the id; otherwise one that has it |
| LegAssignment.ShowsAssigned | src/components/protocol/JourneyLegAssignment.tsx:161-162 | the officer block shows exactly when the leg's entry names a listed officer |
| LegAssignment.ButtonCaption | src/components/protocol/JourneyLegAssignment.tsx:219 | "Reassign" exactly when the leg has an entry, "Assign" otherwise |
| LegAssignment.Without | src/components/protocol/JourneyLegAssignment.tsx:135 | keeps exactly the entries of other legs |
| LegAssignment.OnLeg | src/components/protocol/JourneyLegAssignment.tsx:135 | keeps exactly the entries of the leg |
| LegAssignment.WithoutAppend | src/components/protocol/JourneyLegAssignment.tsx:135 | the filter distributes over concatenation |
| LegAssignment.OnLegAppend | src/components/protocol/JourneyLegAssignment.tsx:135 | the leg's entries of a concatenation are those of its parts |
| LegAssignment.OnLegWithout | src/components/protocol/JourneyLegAssignment.tsx:135 | dropping another leg's entries keeps this leg's |
| LegAssignment.WithoutTwice | src/components/protocol/JourneyLegAssignment.tsx:135 | the filter is idempotent |
| LegAssignment.Reassigned | src/components/protocol/JourneyLegAssignment.tsx:135 | the other legs' entries followed by the new one; its laws are ReassignedLegHasOneEntry, ReassignedKeepsOtherLegs, ReassignedKeepsOneEntryPerLeg and ReassignTwice |
| LegAssignment.ReassignedLegHasOneEntry | src/components/protocol/JourneyLegAssignment.tsx:135 | after reassigning, the leg has exactly the new entry, which comes last and is the one found |
| LegAssignment.NoEntryAfterWithout | src/components/protocol/JourneyLegAssignment.tsx:135 | after the filter the leg has no entry |
| LegAssignment.ReassignedKeepsOtherLegs | src/components/protocol/JourneyLegAssignment.tsx:135 | reassigning one leg leaves every other leg's entries as they were |
| LegAssignment.ReassignedKeepsOneEntryPerLeg | src/components/protocol/JourneyLegAssignment.tsx:135 | at most one entry per leg is preserved by reassigning |
| LegAssignment.WithoutKeepsOneEntryPerLeg | src/components/protocol/JourneyLegAssignment.tsx:135 | at most one entry per leg is preserved by the filter |
| LegAssignment.ReassignTwice | src/components/protocol/JourneyLegAssignment.tsx:135 | reassigning a leg twice equals reassigning it once to the second entry |
| LegAssignment.AssignedCount | src/components/protocol/JourneyLegAssignment.tsx:333 | at most the number of entries |
| LegAssignment.PendingCount | src/components/protocol/JourneyLegAssignment.tsx:339 | the displayed pending figure plus the assigned count is the number of legs; what it counts is stated by PendingCountIsUnheldLegs |
| LegAssignment.AssignedCountSplits | src/components/protocol/JourneyLegAssignment.tsx:333 | the assigned entries are those of one leg plus those of the others |
| LegAssignment.LegHeld | src/components/protocol/JourneyLegAssignment.tsx:333 | a leg is held when one of its entries has a truthy officer id; the reference for PendingCountIsUnheldLegs |
| LegAssignment.UnheldLegs | src/components/protocol/JourneyLegAssignment.tsx:339 | the legs no entry holds, counted over the legs; the reference for PendingCountIsUnheldLegs |
| LegAssignment.OnLegHasOneEntry | src/components/protocol/JourneyLegAssignment.tsx:135 | with one entry per leg, a leg's entries number at most one |
| LegAssignment.OneLegAssignedCount | src/components/protocol/JourneyLegAssignment.tsx:333 | with one entry per leg, a leg adds 1 to the assigned count exactly when an officer holds it |
| LegAssignment.UnheldLegsWithout | src/components/protocol/JourneyLegAssignment.tsx:339 | dropping another leg's entries changes no leg's being held |
| LegAssignment.PendingCountIsUnheldLegs | src/components/protocol/JourneyLegAssignment.tsx:336-340 | with distinct leg ids and one entry per leg, all for these legs, "Pending" is the number of legs no officer holds |
| LegAssignment.AssignedCountAppend | src/components/protocol/JourneyLegAssignment.tsx:333 | counts add over concatenation |
| LegAssignment.AssignedCountAfterReassign | src/components/protocol/JourneyLegAssignment.tsx:135 | reassigning a leg to an officer counts the other legs' assigned entries plus one |
| LegAssignment.PendingCanBeNegative | src/components/protocol/JourneyLegAssignment.tsx:339 | an entry for a leg not in the list makes the pending count negative |
| LegAssignment.SubmittedEntry | src/components/protocol/JourneyLegAssignment.tsx:124-135 | the new entry names the leg, the request and the officer, and other legs keep their entries |
| LegAssignment.NewAssignment | src/components/protocol/JourneyLegAssignment.tsx:124-133 | the entry built for the selected leg; SubmittedEntry states what it carries |
| LegAssignment.LegAssignmentPanel.constructor | src/components/protocol/JourneyLegAssignment.tsx:83-88 | the panel starts with the existing entries, no selection and an empty form |
| LegAssignment.LegAssignmentPanel.ToggleSelect | src/components/protocol/JourneyLegAssignment.tsx:216 | clicking the selected leg unselects it; clicking another selects it; the entries and the form are kept |
| LegAssignment.LegAssignmentPanel.ChooseOfficer | src/components/protocol/JourneyLegAssignment.tsx:254 | the chosen officer id is stored in the form and nothing else changes |
| LegAssignment.LegAssignmentPanel.EditInstructions | src/components/protocol/JourneyLegAssignment.tsx:295 | the instructions are stored in the form and nothing else changes |
| LegAssignment.LegAssignmentPanel.Cancel | src/components/protocol/JourneyLegAssignment.tsx:309-312 | the selection is cleared and the form reset; the entries are kept |
| LegAssignment.LegAssignmentPanel.Submit | src/components/protocol/JourneyLegAssignment.tsx:107-143 | an invalid form or no selection changes nothing and completes nothing; otherwise the leg is reassigned, unselected, the form reset, and the parent's completion callback runs |
| LegAssignment.LegAssignmentPanel.SortLegs | src/components/protocol/JourneyLegAssignment.tsx:158-159 | the legs array ends sorted by order |
| PendingRequests.Stops | src/components/protocol/PendingRequestsTable.tsx:261 | the first leg's origin followed by every leg's destination |
| PendingRequests.RouteText | src/components/protocol/PendingRequestsTable.tsx:259-262 | the joined stops of the sorted legs, none without legs; JourneyCellShape states its shape |
| PendingRequests.JourneyCell | src/components/protocol/PendingRequestsTable.tsx:259-274 | the route or "N/A"; JourneyCellShape states when each appears |
| PendingRequests.JourneyCellShape | src/components/protocol/PendingRequestsTable.tsx:259-262 | "N/A" exactly without legs; otherwise the route starts at a least-ordered leg's origin and an arrow |
| PendingRequests.RowsOf | src/components/protocol/PendingRequestsTable.tsx:72-74 | the rows are the list the answer carries, or none |
| PendingRequests.ListOf | src/components/protocol/PendingRequestsTable.tsx:72-74 | `raw?.data ?? raw ?? []` when it is an array; RowsOf and NonListBodyShowsNothing state what is shown |
| PendingRequests.MetaOf | src/components/protocol/PendingRequestsTable.tsx:75 | the envelope's meta; TotalOf and PagesOf state how it is used |
| PendingRequests.TotalOf | src/components/protocol/PendingRequestsTable.tsx:75-81 | the meta total (0 when missing), or the number of rows without meta |
| PendingRequests.PagesOf | src/components/protocol/PendingRequestsTable.tsx:75-81 | the meta page count, or 1 |
| PendingRequests.NonListBodyShowsNothing | src/components/protocol/PendingRequestsTable.tsx:72-74 | an answer without a list shows no rows |
| PendingRequests.VehicleIssues | src/components/protocol/PendingRequestsTable.tsx:54-62 | no issue exactly when the three texts are non-empty and the contact has at least 7 allowed characters |
| PendingRequests.RequiredText | src/components/protocol/PendingRequestsTable.tsx:63-66 | the guesthouse and other schemas: no issue exactly when the text is non-empty, otherwise the one issue on that field |
| PendingRequests.ContactShape | src/components/protocol/PendingRequestsTable.tsx:61 | a non-empty text of digits, `+`, `-`, parentheses and white space; VehicleIssues states when its message appears |
| PendingRequests.FirstErrors | src/components/protocol/PendingRequestsTable.tsx:157-161 | the loop builds the field-to-message map of the issues |
| PendingRequests.Record | src/components/protocol/PendingRequestsTable.tsx:160 | one step of the loop: an unset or empty entry takes the message; ErrorMapKeepsFirst states the result |
| PendingRequests.ErrorMap | src/components/protocol/PendingRequestsTable.tsx:157-161 | the map after the whole loop; ErrorMapKeys, ErrorMapEntriesNonEmpty and ErrorMapKeepsFirst state its properties |
| PendingRequests.ErrorMapKeys | src/components/protocol/PendingRequestsTable.tsx:157-161 | a field has a message exactly when some issue names it |
| PendingRequests.ErrorMapEntriesNonEmpty | src/components/protocol/PendingRequestsTable.tsx:157-161 | every shown message is non-empty |
| PendingRequests.ErrorMapKeepsFirst | src/components/protocol/PendingRequestsTable.tsx:157-161 | each field shows its first issue's message |
| PendingRequests.FirstOfTwoWins | src/components/protocol/PendingRequestsTable.tsx:160 | of two issues on one field the earlier message stays |
| PendingRequests.ShortContactReportedFirst | src/components/protocol/PendingRequestsTable.tsx:58-61 | a short, malformed contact shows "Contact no. seems short" |
| PendingRequests.WithField | src/components/protocol/PendingRequestsTable.tsx:394-409 | `{...vehicle, [key]: value}` changes the named input to the value and no other input |
| PendingRequests.FieldKeysDistinct | src/components/protocol/PendingRequestsTable.tsx:394-409 | the four inputs clear four different error keys |
| PendingRequests.VehicleIssueKeys | src/components/protocol/PendingRequestsTable.tsx:54-62 | every vehicle issue is reported under one of the four inputs' keys |
| PendingRequests.NumberOf | src/components/protocol/PendingRequestsTable.tsx:139 | a digit string converts to its decimal value |
| PendingRequests.DigitsRoundTrip | src/components/protocol/PendingRequestsTable.tsx:139 | a digit string without leading zero converts back to itself |
| PendingRequests.OrUndefined | src/components/protocol/PendingRequestsTable.tsx:141 | the empty text is left out, any other is sent as is |
| PendingRequests.SentVehicleHasAllFields | src/components/protocol/PendingRequestsTable.tsx:166-171 | a valid vehicle form sends all four fields |
| PendingRequests.PendingRequestsTable.constructor | src/components/protocol/PendingRequestsTable.tsx:28-51 | page 1 of 1, loading, no rows, dialogs closed, empty forms |
| PendingRequests.PendingRequestsTable.StartFetch | src/components/protocol/PendingRequestsTable.tsx:68-71 | loading starts and the page's pending query goes out with limit 10 |
| PendingRequests.PendingRequestsTable.FinishFetch | src/components/protocol/PendingRequestsTable.tsx:72-87 | an answer replaces rows, total and pages; a failure keeps them; loading ends; page, selection, dialogs and forms are unchanged |
| PendingRequests.PendingRequestsTable.Previous | src/components/protocol/PendingRequestsTable.tsx:300-308 | disabled on page 1 or while loading; otherwise one page back and fetched; rows, counts, selection, dialogs and forms are unchanged |
| PendingRequests.PendingRequestsTable.Next | src/components/protocol/PendingRequestsTable.tsx:312-319 | disabled on the last page or while loading; otherwise one page on and fetched; rows, counts, selection, dialogs and forms are unchanged |
| PendingRequests.PendingRequestsTable.PreviousDisabled | src/components/protocol/PendingRequestsTable.tsx:300 | the Previous button is disabled on page 1 or while loading; Previous states that it then does nothing |
| PendingRequests.PendingRequestsTable.NextDisabled | src/components/protocol/PendingRequestsTable.tsx:312 | the Next button is disabled on the last page or while loading; Next states that it then does nothing |
| PendingRequests.PendingRequestsTable.OpenAssign | src/components/protocol/PendingRequestsTable.tsx:112-119 | the assign dialog opens for the row with a cleared form; the listing, paging and service forms are unchanged |
| PendingRequests.PendingRequestsTable.OpenServices | src/components/protocol/PendingRequestsTable.tsx:121-128 | the services dialog opens for the row with cleared forms; the listing, paging and assign form are unchanged |
| PendingRequests.PendingRequestsTable.CloseAssign | src/components/protocol/PendingRequestsTable.tsx:326-370 | Cancel or dismissing closes the assign dialog, nothing else changes |
| PendingRequests.PendingRequestsTable.CloseServices | src/components/protocol/PendingRequestsTable.tsx:378-437 | Close or dismissing closes the services dialog, nothing else changes |
| PendingRequests.PendingRequestsTable.ChooseOfficer | src/components/protocol/PendingRequestsTable.tsx:337 | the chosen officer's id text is stored, nothing else changes |
| PendingRequests.PendingRequestsTable.ChoosePriority | src/components/protocol/PendingRequestsTable.tsx:354-361 | one of high, medium, low is stored, nothing else changes |
| PendingRequests.PendingRequestsTable.EditRemarks | src/components/protocol/PendingRequestsTable.tsx:367 | the remarks are stored, nothing else changes |
| PendingRequests.PendingRequestsTable.SubmitAssign | src/components/protocol/PendingRequestsTable.tsx:130-150 | nothing without a row or officer; otherwise the call goes out, and success closes the dialog and refetches; only the dialog flag and loading can change |
| PendingRequests.PendingRequestsTable.ShowErrors | src/components/protocol/PendingRequestsTable.tsx:157-162 | the form errors become the first message per field, nothing else changes |
| PendingRequests.PendingRequestsTable.SubmitVehicle | src/components/protocol/PendingRequestsTable.tsx:152-177 | invalid forms show their errors and send nothing; valid ones send the vehicle call; only the errors and loading can change |
| PendingRequests.PendingRequestsTable.SubmitGuesthouse | src/components/protocol/PendingRequestsTable.tsx:179-201 | an empty address shows its error; otherwise the guesthouse call goes out; only the errors and loading can change |
| PendingRequests.PendingRequestsTable.SubmitOther | src/components/protocol/PendingRequestsTable.tsx:203-223 | an empty purpose shows its error; otherwise the other call goes out; only the errors and loading can change |
| PendingRequests.PendingRequestsTable.EditVehicle | src/components/protocol/PendingRequestsTable.tsx:394-409 | typing in one input changes that input only and clears that input's error, nothing else changes |
| PendingRequests.PendingRequestsTable.EditGuesthouseLocation | src/components/protocol/PendingRequestsTable.tsx:421 | the address changes and its error is cleared, nothing else changes |
| PendingRequests.PendingRequestsTable.EditOtherPurpose | src/components/protocol/PendingRequestsTable.tsx:433 | the purpose changes and its error is cleared, nothing else changes |
| Api.HandleApiError | src/lib/api.ts:137-166 | a refused connection first, then 429, then the body's error, then its message, then the error's own message; the generic text only for a non-Error |
| Api.ErrorTextComesFromTheError | src/lib/api.ts:137-166 | the text is one of the fixed texts or one the error carries |
| Api.EmptyClientErrorStaysEmpty | src/lib/api.ts:156-160 | an HTTP error with an empty message and no response shows the empty text |
| Api.Intercept | src/lib/api.ts:38-40 | refresh and retry exactly on a 401 not yet retried, marking the request |
| Api.NoRetryAfterMark | src/lib/api.ts:38-39 | a marked request is never retried |
| Api.AtMostOneRetry | src/lib/api.ts:32-58 | a request is retried at most once, and once exactly when some answer is a 401 |
| Api.RequestConfig.OnError | src/lib/api.ts:34-58 | the interceptor's decision and the new retry mark |
| Api.GetPendingRequests | src/lib/api.ts:97-98 | filtered to pending, page 1 and limit 10 by default |
| Api.ServicePathSegments | src/lib/api.ts:109-127 | a service path splits into "requests", the id's digits and the service |
| Api.ServicePath | src/lib/api.ts:117-127 | the three service endpoints; ServicePathSegments and ServicePathInjective state their shape |
| Api.ServicePathInjective | src/lib/api.ts:109-127 | distinct requests or services never share an endpoint |
| Auth.HasRole | src/contexts/auth-context.tsx:186-190 | false without a user; otherwise membership of the user's role |
| Auth.CanAccess | src/contexts/auth-context.tsx:192-195 | a user whose role is among the required ones |
| Auth.HasRoleOneIsMany | src/contexts/auth-context.tsx:186-199 | one role is a one-role list; access is role membership; holding a role implies signed in |
| Auth.IsAuthenticated | src/contexts/auth-context.tsx:199 | signed in exactly when there is a user; HasRoleOneIsMany relates it to the role tests |
| Auth.RbacOf | src/contexts/auth-context.tsx:225-251 | each flag is the matching role test |
| Auth.RbacFlags | src/contexts/auth-context.tsx:228-238 | managing protocols means admin, in-charge or officer; managing users means admin; an unknown role has no flag |
| Auth.RouteFor | src/contexts/auth-context.tsx:87-102 | each role's landing page, /dashboard otherwise |
| Auth.RoutesAreDistinct | src/contexts/auth-context.tsx:87-102 | different roles land on different pages, none on /dashboard |
| Auth.AuthProvider.constructor | src/contexts/auth-context.tsx:25-27 | no user, loading, not initialised |
| Auth.AuthProvider.Init | src/contexts/auth-context.tsx:32-66 | runs once; public pages sign out; otherwise the current user, else the user after a refresh, else none; an answer without a user signs nobody in |
| Auth.AuthProvider.Login | src/contexts/auth-context.tsx:68-112 | empty fields fail before any call; failure keeps the user; success signs in and lands by role; an answer without `data` fails with the TypeError and keeps the user; one without a user signs out and fails with the TypeError; a route is taken exactly when nothing failed |
| Auth.AuthProvider.Register | src/contexts/auth-context.tsx:114-144 | differing passwords fail before any call; the confirmation is not sent; success lands on /dashboard, with the answer's user or none; an answer without `data` fails with the TypeError and keeps the user |
| Auth.AuthProvider.Logout | src/contexts/auth-context.tsx:146-165 | signed out and sent to /login whether the call succeeds or not |
| Auth.AuthProvider.RefreshToken | src/contexts/auth-context.tsx:167-184 | a returned user replaces the user; failure signs out and rethrows |
| Auth.GuardMessagesShown | src/contexts/auth-context.tsx:73-75 | the guards' own texts are what is shown |
| Sidebar.FilteredItemsMembers | src/components/layouts/sidebar.tsx:76-79 | the menu holds exactly the visible table entries |
| Sidebar.FilterKeepsOrder | src/components/layouts/sidebar.tsx:76-79 | the menu keeps the table's order |
| Sidebar.VisibleIff | src/components/layouts/sidebar.tsx:76-79 | an entry is visible exactly to a user whose role it lists |
| Sidebar.Visible | src/components/layouts/sidebar.tsx:76-79 | the filter's test; VisibleIff states it as role membership |
| Sidebar.FilteredItems | src/components/layouts/sidebar.tsx:76-79 | the filtered menu; FilteredItemsMembers and FilterKeepsOrder state its contents and order |
| Sidebar.IsActive | src/components/layouts/sidebar.tsx:110 | an entry is highlighted when the path is its link; AtMostOneActive states its consequence |
| Sidebar.AtMostOneActive | src/components/layouts/sidebar.tsx:110 | no two table entries are highlighted on the same page |
| Sidebar.NoUserNoMenu | src/components/layouts/sidebar.tsx:27-79 | without a user the menu is empty |
| Sidebar.MenuOfRole | src/components/layouts/sidebar.tsx:76-79 | a user's menu is the entries listing their role |
| Sidebar.RequesteeMenu | src/components/layouts/sidebar.tsx:27-79 | a requestee sees Create Requests and Request Status only |
| Sidebar.AdminMenu | src/components/layouts/sidebar.tsx:27-79 | an admin sees Dashboard and the three management pages |
| Sidebar.RoleCaption | src/components/layouts/sidebar.tsx:144 | empty without a user; a role without underscore unchanged |
| Sidebar.RoleCaptionFirstUnderscore | src/components/layouts/sidebar.tsx:144 | only the first underscore becomes a space |
| Sidebar.SidebarState.Toggle | src/components/layouts/sidebar.tsx:96 | the collapse flag flips |
| Sidebar.SidebarState.ShowsUser | src/components/layouts/sidebar.tsx:133 | the user block shows exactly when expanded and signed in |

## Left out

- HTTP, cookies and the browser: axios, the CSRF and credential headers, the cookie-held tokens and the interceptor's own refresh call are not modelled. Server answers are parameters.
- Timing: the start-up check, the refresh and the 300 ms debounced officer search are modelled as answers received, not as concurrent tasks.
- Rendering: toasts, console logging, icons, colours and emojis are not modelled. Only the texts and flags the pages decide are.
- StatusCard.FormatDate: the US-locale date text is not computed; the model gives the date it would format.
- PendingRequests.NumberOf: `Number()` is modelled only on digit strings. Other strings give none, where JavaScript gives NaN, decimals or trimmed values.
- Text.ParseInt: hexadecimal prefixes and radix arguments are not modelled.
- Text.Capitalize: upper-cases ASCII letters only.
- StatusCard.StatusEntry: keys inherited from the JavaScript object prototype (such as "constructor") are not modelled as lookups.
- LegOrder.SortBy: `leg_order` is an integer; fractional orders are not modelled.
- The officer search's extra filter keeps every officer, so it is not modelled; the officer list is a constructor parameter.
- PendingRequests.PendingRequestsTable.SubmitAssign: the assign call at src/components/protocol/PendingRequestsTable.tsx:142 reads `officerLocationId`, which is not declared among the page's state (lines 28-51) or anywhere else in the file. The model treats that field as absent (`undefined`); it does not model the ReferenceError such a lookup would raise at run time.
- Zod's default messages for missing fields and invalid enums are not reproduced; such issues carry a fixed text. Lengths count characters, not UTF-16 units.
- Random ids (`Math.random()`) are a parameter.
- PendingRequests.PendingRequestsTable.ChooseOfficer: the officer search box, its debounced lookup and the list it fills (src/components/protocol/PendingRequestsTable.tsx:94-110) are not modelled; the chosen option's id text is a parameter.
- Auth.AuthProvider.Login and Auth.AuthProvider.Register: the text of the TypeError raised when a successful answer lacks `data` or a user depends on the JavaScript engine, so it is a parameter (`typeError`).
- Endpoints that are only paths (change-password, my-requests, create-request, login, logout, refresh, current user) are not modelled beyond the calls the pages make.
- Non-string values in an error body's `error` or `message` field are not modelled.
- The legacy forms under "thrash code" are not part of this model.
