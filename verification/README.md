# Tennis-court booking across orchestration patterns

The repository shows several ways of putting an LLM in front of one small
booking service. The service holds 147 court slots: 7 days, 3 courts and 7
start times. The first five slots start out booked by `existing_user`.
Callers can ask which slots are free on a date, optionally at one time.
They can book a slot by id, which issues the next `BK0001`-style booking
number, and they can read a booking back.

This project models that store together with the hand-written logic each
pattern puts around it:

- **Pattern A**: an LLM parses the message; fixed code selects and books a slot.
- **Pattern B**: a parse, check, book workflow in one process.
- **Pattern C**: the same workflow as three services that exchange
  success/error envelopes.
- **Pattern D**: the LLM calls `check_availability` and `book_slot` as functions.
- **Pattern G**: specialist availability and booking agents.
- **Pattern H**: a Bedrock agent's action-group handler.

The models live in these modules:

- `Base` holds `Option`, `Result` and `Map`, the list comprehension `[f(x) for x in xs]`.
- `Text` holds Python's string behaviour that the code relies on: `strip`,
  `replace`, `f"{n:04d}"`, `str < str` and `x or default`.
- `Llm` models the LLM and `json.loads`:
  - the LLM is an oracle: each call either failed or replied, with or
    without content;
  - `json.loads` is a function parameter from text to a decoded value;
  - it also holds the pydantic field types.
- `Store` models `shared/booking_service.py`:
  - the store is an immutable `State`, and every operation returns the next
    `State`;
  - the store's consistency (`Store.Valid`) is proved to hold initially and
    after every booking.
- `Messages` holds the reply texts that several patterns share.
- `PatternA`, `PatternB`, `PatternC`, `PatternD`, `PatternG` and `PatternH`
  model one pattern each.

## Model

| member | source | states |
|---|---|---|
| Text.TrimLeft | pattern-b-workflow-single-process/src/workflow.py:53-55 | the result is a suffix of the input; everything dropped is whitespace; the result does not start with whitespace |
| Text.TrimRight | pattern-b-workflow-single-process/src/workflow.py:53-55 | the result is a prefix of the input; everything dropped is whitespace; the result does not end with whitespace |
| Text.StripVisibleStart | pattern-b-workflow-single-process/src/workflow.py:53-55 | `strip()` of a text that starts with a visible character only trims its end |
| Text.TrimRightDropsSpaces | pattern-b-workflow-single-process/src/workflow.py:53-55 | trimming removes exactly the whitespace appended after a visible last character |
| Text.Without | shared/booking_service.py:55 | `replace(c, "")` leaves no `c`, never lengthens, and leaves a text without `c` unchanged |
| Text.WithoutConcat | shared/booking_service.py:55 | removing a character distributes over concatenation |
| Text.DigitChar | shared/booking_service.py:122 | a digit's character has that digit's value |
| Text.NatToString | shared/booking_service.py:122 | decimal text is non-empty, all digits, and without a leading zero except for 0 |
| Text.NatToStringRoundTrip | shared/booking_service.py:122 | reading the decimal text back gives the number |
| Text.NatToStringInjective | shared/booking_service.py:122 | different numbers print differently |
| Text.IntToString | pattern-a-ai-as-service/src/exceptions.py:48-50 | `str(i)` of a negative number is a minus sign and the magnitude |
| Text.Zeros | shared/booking_service.py:122 | k zero characters |
| Text.LeadingZerosValue | shared/booking_service.py:122 | zero padding does not change the value the digits read as |
| Text.ZerosValue | shared/booking_service.py:122 | a run of zeros reads as 0 |
| Text.ZeroPad | shared/booking_service.py:122 | `f"{n:0wd}"` is all digits, has the width or the number's own length if longer, and reads back as n |
| Text.ZeroPadInjective | shared/booking_service.py:122 | padded numbers of one width never collide |
| Text.OrElse | pattern-a-ai-as-service/src/booking.py:49 | `o or d` is o's text when it is a non-empty string and d otherwise |
| Text.AtSuffix | pattern-a-ai-as-service/src/exceptions.py:38 | `" at {time}"` when the time is a non-empty string, else empty |
| Text.LexLessIrreflexive | shared/booking_service.py:93 | string `<` is irreflexive |
| Text.LexLessTransitive | shared/booking_service.py:93 | string `<` is transitive |
| Text.LexLessTotal | shared/booking_service.py:93 | any two different strings are ordered one way |
| Text.LexLessAsymmetric | shared/booking_service.py:93 | string `<` is asymmetric |
| Llm.Get | pattern-a-ai-as-service/src/parser.py:117-122 | `d.get(key)` is the first entry under the key, or null when the key is absent |
| Llm.StrField | pattern-a-ai-as-service/src/parser.py:124-129 | a `str \| None` field accepts exactly null and strings, keeping the string |
| Llm.IntField | pattern-a-ai-as-service/src/parser.py:124-129 | an `int \| None` field accepts exactly null and integers, keeping the integer |
| Store.BookingIdRoundTrip | shared/booking_service.py:121-122 | the counter value can be read back out of `BK{n:04d}` |
| Store.FirstBookingId | shared/booking_service.py:121-122 | the first booking of a fresh store is numbered BK0001 |
| Store.BookingIdInjective | shared/booking_service.py:121-122 | distinct counter values give distinct booking ids |
| Store.IndexOf | shared/booking_service.py:107 | the lookup finds the first slot with the id, or reports that none has it |
| Store.IndexOfUnique | shared/booking_service.py:107-113 | with distinct ids, the lookup finds exactly the slot carrying the id |
| Store.IndexOfSameIds | shared/booking_service.py:133-136 | the lookup depends only on the ids, so a booking does not move any slot |
| Store.Initial | shared/booking_service.py:45-67 | a fresh store has 147 slots, no bookings and counter 0 |
| Store.PosDecompose | shared/booking_service.py:51-54 | the position of (day, court, time) in generation order is in range and decodes back |
| Store.PosCompose | shared/booking_service.py:51-54 | every position comes from one (day, court, time) |
| Store.CompactCourt | shared/booking_service.py:55 | `court.replace(' ', '')` is "Court" and the court letter |
| Store.CompactTime | shared/booking_service.py:55 | `time.replace(':', '')` drops the colon |
| Store.CourtsDistinct | shared/booking_service.py:47 | the court letters are distinct |
| Store.TimesDistinct | shared/booking_service.py:48 | the start hours are distinct |
| Store.SlotIdFields | shared/booking_service.py:55 | the date, court letter and hour can be read back out of a slot id |
| Store.SlotIdInjective | shared/booking_service.py:51-55 | different (date, court, time) triples get different slot ids |
| Store.InitialLayout | shared/booking_service.py:51-61 | slot (d, c, t) carries date d, court c, time t, its id and 60 minutes |
| Store.InitialSampleBookings | shared/booking_service.py:63-67 | exactly the first five slots start booked, all by `existing_user` |
| Store.InitialSampleSlots | shared/booking_service.py:63-67 | the five sample bookings are today's first five Court A times |
| Store.SampleSlot | shared/booking_service.py:63-67 | each sample booking is today's Court A at the k-th time |
| Store.InitialIdsDistinct | shared/booking_service.py:51-56 | two different positions of the fresh store never share a slot id |
| Store.InitialValid | shared/booking_service.py:45-67 | the fresh store has distinct slot ids and is consistent |
| Store.Filter | shared/booking_service.py:80-90 | the kept slots are exactly the free slots on the date (and at the time, if given), each taken from the store at most as often as it occurs |
| Store.KeyTotal | shared/booking_service.py:93 | the (time, court) key orders any two slots |
| Store.KeyTransitive | shared/booking_service.py:93 | the (time, court) key order is transitive |
| Store.Insert | shared/booking_service.py:93 | insertion keeps the list sorted and adds exactly one element |
| Store.SortByKey | shared/booking_service.py:93 | the result is sorted by (time, court) and a permutation of the input |
| Store.CheckAvailability | shared/booking_service.py:69-94 | the answer is sorted by (time, court), is a permutation of the matching slots, and holds a slot iff it is free on the date (and at the time); it returns no new state, so repeated queries between bookings agree; the stability of `sort` for equal (time, court) keys is not stated |
| Store.Claim | shared/booking_service.py:96-145 | unknown id iff no slot has it; a booked slot is refused; otherwise that one slot is taken by the user, the counter goes up by one and the booking is filed under the new id |
| Store.ClaimedAt | shared/booking_service.py:113-136 | a successful booking changes exactly the booked slot and describes it |
| Store.FreshBookingId | shared/booking_service.py:121-122 | in a consistent store the next booking id is unused |
| Store.TakenKeepsIds | shared/booking_service.py:134-135 | taking a slot keeps the ids distinct and the lookup unchanged |
| Store.FreeSlotUnbooked | shared/booking_service.py:114 | in a consistent store no booking refers to a free slot |
| Store.ClaimPreservesValid | shared/booking_service.py:96-145 | every booking attempt keeps the store consistent and never overwrites a booking |
| Store.ClaimListedSlot | shared/booking_service.py:69-145 | a slot that the availability query lists can be booked, under the next id |
| Store.ClaimTwiceFails | shared/booking_service.py:113-118 | booking the same slot again, by anyone, is refused as already booked |
| Store.GetBooking | shared/booking_service.py:147-160 | the lookup is None exactly for an unknown booking id |
| Store.ClaimThenGetBooking | shared/booking_service.py:136-160 | after a booking, `get_booking` returns its court, date, time, user and status |
| Store.ClaimEach | shared/booking_service.py:96-145 | a run of booking requests yields one outcome per request |
| Store.ClaimEachCounters | shared/booking_service.py:121-122 | across a run, successful bookings get strictly increasing counter values above the start |
| Store.ClaimEachNeverRetakes | shared/booking_service.py:113-118 | across a run, a slot that was already booked is never booked again |
| Store.ClaimEachExclusive | shared/booking_service.py:96-145 | across a run, no two successful bookings share a slot or an id, and their numbers increase |
| Store.ClaimEachIdsIncrease | shared/booking_service.py:121-122 | across a run, later successful bookings carry larger booking numbers and different ids |
| Store.ClaimEachSlotsDistinct | shared/booking_service.py:113-136 | across a run against a consistent store, the store stays consistent and no two successes book the same slot |
| Store.BookDict | shared/booking_service.py:107-145 | the dictionary reply: "Slot X not found", "Slot X is already booked", or success with the booking's fields and "Successfully booked C on D at T" |
| Store.BookObject | shared/booking_service.py:96-145 | the object convention: the booking, or the matching store error, with the same next state |
| Store.BookConventionsAgree | shared/booking_service.py:107-145 | both conventions change the store alike, succeed together, and carry the same error text |
| Messages.SlotLinesConcat | pattern-d-function-calling/src/function_caller.py:108-112 | listing two runs of slots one after the other is listing them together |
| Messages.SlotLinesEach | pattern-d-function-calling/src/function_caller.py:108-112 | each slot's line appears in the listing between the lines of the slots before and after it |
| Messages.Listing | pattern-d-function-calling/src/function_caller.py:103-112 | no slots gives the "No available slots" text; otherwise the header followed by one line per slot |
| Messages.ListingTellsEmptyApart | pattern-d-function-calling/src/function_caller.py:103-112 | the empty and the non-empty listing differ in their first character |
| PatternA.SlotErrorMessagesInjective | pattern-a-ai-as-service/src/exceptions.py:16-29 | the message of a slot error determines the error and its slot id |
| PatternA.NotFoundIsNotAlreadyBooked | pattern-a-ai-as-service/src/exceptions.py:16-29 | "not found" and "already booked" messages never coincide |
| PatternA.NoSlotsMessageShape | pattern-a-ai-as-service/src/exceptions.py:32-39 | the message starts with the date, and it continues iff a time was given |
| PatternA.SelectSlot | pattern-a-ai-as-service/src/booking.py:66-86 | no preference takes the first slot; too large a preference raises with both numbers; 1..n picks that slot; 0 and negatives index from the end; below -n an IndexError |
| PatternA.SelectSlotPicksOffered | pattern-a-ai-as-service/src/booking.py:66-86 | a selected slot is one of those offered, and selection succeeds iff the preference is absent or in -n+1..n |
| PatternA.ConfirmationShowsId | pattern-a-ai-as-service/src/booking.py:89-97 | the confirmation carries the booking id right after its first heading |
| PatternA.ProcessBooking | pattern-a-ai-as-service/src/booking.py:23-63 | it queries with `date or ""`; no slots raises NoSlotsAvailable with `date or "your requested date"`; a failed selection raises; otherwise exactly the selected slot is booked and confirmed |
| PatternA.ProcessBookingFailureKeepsStore | pattern-a-ai-as-service/src/booking.py:49-59 | whenever processing raises, the store is unchanged |
| PatternA.ProcessBookingBooksSelection | pattern-a-ai-as-service/src/booking.py:49-63 | a valid selection is a free slot on the date; it is confirmed under the next id and `get_booking` finds it |
| PatternA.IntentFromItems | pattern-a-ai-as-service/src/parser.py:117-129 | the intent is built iff date and time are strings or null and the preference an integer or null; otherwise a validation error |
| PatternA.ParseIntent | pattern-a-ai-as-service/src/parser.py:60-129 | blank message, failed call, empty reply, bad JSON and non-object JSON each give their error; an object gives its fields; the raw message is kept |
| PatternA.ParseIntentReadsFields | pattern-a-ai-as-service/src/parser.py:111-129 | a reply with string date and time and an integer preference parses to exactly those values |
| PatternA.Classify | pattern-a-ai-as-service/src/api.py:99-117 | a parse or booking error gives 400 with its message; a validation error gives 400 "Invalid data format"; an IndexError or any other exception gives 500 with the fixed detail |
| PatternA.Chat | pattern-a-ai-as-service/src/api.py:73-117 | an empty message is refused with 422; a parse failure is classified; otherwise the booking's reply is 200 or classified |
| PatternA.ChatBlankMessage | pattern-a-ai-as-service/src/api.py:99-101 | a whitespace-only message gets 400 with the "No message provided" text and books nothing |
| PatternA.ChatFailuresAreOpaque | pattern-a-ai-as-service/src/api.py:73-117 | the status is one of 200, 400, 422, 500; a 500 shows only the fixed detail; anything but 200 leaves the store unchanged |
| PatternB.IntentFromItems | pattern-b-workflow-single-process/src/steps.py:66-73 | the intent is built iff date and time are strings or null, and then holds exactly those values and the message |
| PatternB.ParseStep | pattern-b-workflow-single-process/src/steps.py:51-73 | an empty message is a ValueError; a failed call passes its error on; an empty reply gives an empty intent; bad JSON is a ValueError; non-object JSON fails on `.get`; the raw message is kept |
| PatternB.ParseStepAcceptsWhitespace | pattern-b-workflow-single-process/src/steps.py:52-53 | a whitespace-only message passes the emptiness guard |
| Base.Map | pattern-b-workflow-single-process/src/steps.py:88-96 | the list comprehension converts each element, in order; pattern B and pattern C (services/availability.py:62-74) build their SlotInfo lists with it |
| PatternB.CheckStep | pattern-b-workflow-single-process/src/steps.py:82-96 | no date gives no slots; otherwise the store's answer for the date and time |
| PatternB.CheckStepSound | pattern-b-workflow-single-process/src/steps.py:82-96 | every reported slot is a free store slot on the asked date, and at the asked time if one was given |
| PatternB.BookStepAsWritten | pattern-b-workflow-single-process/src/steps.py:105-109 | the one-argument `book(slot_id)` raises a TypeError and leaves the store as it was |
| PatternB.BookStep | pattern-b-workflow-single-process/src/steps.py:105-123 | with a user id: a failed booking is a ValueError "Booking failed: ..."; a success is confirmed with the store's fields |
| PatternB.RunWith | pattern-b-workflow-single-process/src/orchestrator.py:40-101 | parse errors are caught as replies; no slots gives the "Sorry, no tennis courts" reply; otherwise the first slot is booked, and the booking's outcome is the reply |
| PatternB.RunAsWritten | pattern-b-workflow-single-process/src/orchestrator.py:40-101 | run as written never changes the store |
| PatternB.Run | pattern-b-workflow-single-process/src/orchestrator.py:40-101 | with the booking call corrected, a parse failure still leaves the store unchanged |
| PatternB.RunAsWrittenReportsTypeError | pattern-b-workflow-single-process/src/steps.py:106 | whenever a slot is free, the reply is "An unexpected error occurred: ... missing ... 'user_id'" and nothing is booked, while the corrected run books |
| PatternB.RunBooksFirstSlot | pattern-b-workflow-single-process/src/orchestrator.py:77-95 | the corrected run books the first listed slot and confirms it under the next booking id |
| PatternB.RunNoSlotsKeepsStore | pattern-b-workflow-single-process/src/orchestrator.py:77-89 | with nothing free, both runs give the "Sorry, no tennis courts" reply and change nothing |
| PatternB.WorkflowRun | pattern-b-workflow-single-process/src/workflow.py:36-67 | parser exceptions propagate; it queries with `date or ""`; no slots gives the stripped "No slots available" text; otherwise the first slot is booked and store exceptions propagate |
| PatternB.NoSlotsTextShape | pattern-b-workflow-single-process/src/workflow.py:53-55 | the stripped text ends with the date, or with the date and the time when a time was given |
| PatternB.WorkflowBooksFirstSlot | pattern-b-workflow-single-process/src/workflow.py:59-67 | with a free slot, the workflow books the first one and names it and the next booking id |
| PatternC.Succeed | pattern-c-workflow-multi-process/src/models.py:96-104 | a success envelope carries the data and no error |
| PatternC.Fail | pattern-c-workflow-multi-process/src/models.py:96-104 | a failure envelope carries the error and no data |
| PatternC.DateField | pattern-c-workflow-multi-process/src/models.py:41-48 | a date is accepted iff it is null or matches `^\d{4}-\d{2}-\d{2}$`; otherwise the error quotes it |
| PatternC.TimeField | pattern-c-workflow-multi-process/src/models.py:50-57 | a time is accepted iff it is null or matches `^\d{2}:\d{2}$`; otherwise the error quotes it |
| PatternC.ValidatorsCheckShapeOnly | pattern-c-workflow-multi-process/src/models.py:41-57 | the validators check only the shape: "2025-13-45" and "99:99" pass, and so does a trailing newline |
| PatternC.MakeIntent | pattern-c-workflow-multi-process/src/models.py:28-57 | the intent is built iff both fields validate, and then holds exactly the validated values |
| PatternC.StepErrorsDistinct | pattern-c-workflow-multi-process/src/exceptions.py:4-35 | errors from the three services never read alike |
| PatternC.Parse | pattern-c-workflow-multi-process/src/services/intent_parser.py:73-124 | the envelope is well formed; blank message, failed call, empty reply, bad JSON, non-object JSON and failed validation each give their text; the raw message is kept |
| PatternC.ParseValidates | pattern-c-workflow-multi-process/src/services/intent_parser.py:107-120 | a parsed date and time always have the validated shapes |
| PatternC.Check | pattern-c-workflow-multi-process/src/services/availability.py:33-89 | no intent fails; a store fault fails with its text; otherwise it reports the slots for `date or today` and the count summary |
| PatternC.CheckReportsFreeSlots | pattern-c-workflow-multi-process/src/services/availability.py:55-74 | every reported slot is a free store slot on `date or today`, at the asked time if given |
| PatternC.Book | pattern-c-workflow-multi-process/src/services/booking.py:38-93 | no slot fails; only the slot id reaches the store; a store error is passed on; a success reports the booking and the reservation text |
| PatternC.BookFailureKeepsStore | pattern-c-workflow-multi-process/src/services/booking.py:48-93 | a failed booking envelope leaves the store unchanged |
| PatternC.Run | pattern-c-workflow-multi-process/src/workflow.py:61-119 | each failed envelope raises its service's error (default "Unknown error"); missing data crashes on the attribute; no slots returns the availability message; otherwise the first slot is booked |
| PatternC.ParseFailureSkipsServices | pattern-c-workflow-multi-process/src/workflow.py:80-83 | after a parse failure the other services are never consulted |
| PatternC.AvailabilityFailureSkipsBooking | pattern-c-workflow-multi-process/src/workflow.py:90-95 | after an availability failure the booking service is never consulted, and its error is raised |
| PatternC.WellFormedNeverCrashes | pattern-c-workflow-multi-process/src/workflow.py:61-119 | with well-formed envelopes every failure is a service error, never a crash |
| PatternC.DefaultRun | pattern-c-workflow-multi-process/src/workflow.py:31-59 | with the real services, a parse failure books nothing |
| PatternC.DefaultRunNoSlots | pattern-c-workflow-multi-process/src/workflow.py:100-101 | with nothing free, the reply is "No available slots found for D." and nothing changes |
| PatternC.DefaultRunBooksFirstSlot | pattern-c-workflow-multi-process/src/workflow.py:104-119 | with a free slot, the first one is booked under the next id and the reservation text is returned |
| PatternC.Chat | pattern-c-workflow-multi-process/src/api.py:16-27 | every request runs on a fresh store, as `run_workflow` builds a new `Workflow` (workflow.py:122-125) whose store is new (workflow.py:44); an empty message gets 422; success 200; a service error 400 with its message; a crash 500 |
| PatternC.ChatErrorsNameTheService | pattern-c-workflow-multi-process/src/api.py:16-27 | the real services never produce a 500, and every 400 names one of the three services |
| PatternC.ChatBooksOnFreshStore | pattern-c-workflow-multi-process/src/workflow.py:122-125 | a request that finds a free slot books the first one as BK0001 and replies 200 with its reservation, whatever earlier requests booked |
| PatternD.Query | pattern-d-function-calling/src/function_caller.py:92-103 | a string date, with a string or no time, reaches the store; other argument types find nothing |
| PatternD.CheckTool | pattern-d-function-calling/src/function_caller.py:92-112 | no slots gives "No available slots found for D", with " at T" when a time was given; otherwise the header and one line per slot |
| PatternD.CheckToolListsEachSlot | pattern-d-function-calling/src/function_caller.py:108-112 | every listed slot appears in the text with its court, time and id, in order |
| PatternD.BookTool | pattern-d-function-calling/src/function_caller.py:115-137 | a list or dictionary id raises "unhashable type"; other non-strings are not found; a string id books with the store's error or a confirmation |
| PatternD.BookToolConfirmsListedSlot | pattern-d-function-calling/src/function_caller.py:126-137 | booking a listed slot confirms it under the next id and `get_booking` finds it for the user |
| PatternD.Lookup | pattern-d-function-calling/src/function_caller.py:195-199 | the table maps a name to the tool of that name |
| PatternD.LookupExactlyTwo | pattern-d-function-calling/src/function_caller.py:142-145 | exactly `check_availability` and `book_slot` are callable |
| PatternD.FirstUnexpected | pattern-d-function-calling/src/function_caller.py:205-206 | it finds the first argument the function does not declare, or none iff all are declared |
| PatternD.Arg | pattern-d-function-calling/src/function_caller.py:115 | a passed keyword argument, else the parameter's default (`user_id="guest"`, and `time=None` on line 92) |
| PatternD.Bind | pattern-d-function-calling/src/function_caller.py:205-209 | `f(**args)` binds iff the arguments are a mapping, every key is declared, and the required one is present; otherwise CPython 3.12's TypeError text |
| PatternD.Call | pattern-d-function-calling/src/function_caller.py:199-207 | `check_availability` reads the store with `time` defaulting to None; `book_slot` books with `user_id` defaulting to "guest" |
| PatternD.Execute | pattern-d-function-calling/src/function_caller.py:168-209 | bad JSON, an unknown name, a binding error and an exception inside the tool each give their "Error ..." text; otherwise the tool's reply |
| PatternD.ExecuteChangesStoreOnlyByBooking | pattern-d-function-calling/src/function_caller.py:168-209 | only a successful `book_slot` changes the store, and its reply is a confirmation |
| PatternD.ExecuteBookSlotDefaultsToGuest | pattern-d-function-calling/src/function_caller.py:115-137 | `book_slot` without a user books for "guest" |
| PatternD.ExecuteMissingArgument | pattern-d-function-calling/src/function_caller.py:205-209 | a call without the required argument reports Python's missing-argument TypeError and changes nothing |
| PatternG.Availability | pattern-g-multi-agent-multi-process/src/availability/agent.py:16-36 | the same listing as the function-calling tool, for the store's answer |
| PatternG.ProcessAvailability | pattern-g-multi-agent-multi-process/src/availability/agent.py:39-45 | the entry point gives the specialist's listing |
| PatternG.AvailabilityAgreesWithTool | pattern-g-multi-agent-multi-process/src/availability/agent.py:16-36 | for string arguments the specialist's text equals the function-calling tool's |
| PatternG.Book | pattern-g-multi-agent-multi-process/src/booking/agent.py:13-33 | a success is confirmed with the booking's fields; a store error becomes "Booking failed: ..." and the store is unchanged |
| PatternG.ProcessBooking | pattern-g-multi-agent-multi-process/src/booking/agent.py:36-42 | the entry point books as the specialist does |
| PatternG.BookListedSlot | pattern-g-multi-agent-multi-process/src/booking/agent.py:24-31 | a free slot of the booking specialist's store is confirmed under the next id, and `get_booking` finds it for the user |
| PatternG.BookTwiceFails | pattern-g-multi-agent-multi-process/src/booking/agent.py:32-33 | a second booking of a slot replies "Booking failed: Slot X is already booked" and changes nothing |
| PatternG.BookAgreesWithTool | pattern-g-multi-agent-multi-process/src/booking/agent.py:13-33 | the specialist books and replies exactly as the function-calling tool does |
| PatternH.Fold | pattern-h-bedrock-agent/src/action/handler.py:36-38 | the parameter dictionary has exactly the names that occur in the list |
| PatternH.FoldLastWins | pattern-h-bedrock-agent/src/action/handler.py:36-38 | a repeated name keeps the value of its last occurrence |
| PatternH.CheckAction | pattern-h-bedrock-agent/src/action/handler.py:66-86 | a missing or empty date is refused; otherwise each free slot becomes one entry, in order |
| PatternH.CheckActionReportsFreeSlots | pattern-h-bedrock-agent/src/action/handler.py:74-86 | every entry is a free store slot on the asked date |
| PatternH.SlotIdOf | pattern-h-bedrock-agent/src/action/handler.py:93-101 | the value of the first property named `slot_id`, or none when there is none |
| PatternH.BookAction | pattern-h-bedrock-agent/src/action/handler.py:89-116 | a missing or empty slot id is refused; a store error becomes "Booking failed: ..."; a success reports the booking |
| PatternH.Route | pattern-h-bedrock-agent/src/action/handler.py:36-47 | `/check-availability` and `/book` go to their action; any other path is reported as unknown and changes nothing |
| PatternH.HandleAction | pattern-h-bedrock-agent/src/action/handler.py:16-63 | the envelope is always version 1.0 with status 200, echoes the action group, path and method (defaults "", "", "POST"), and carries the routed answer |
| PatternH.HandleActionChangesStoreOnlyByBooking | pattern-h-bedrock-agent/src/action/handler.py:16-63 | only a successful `/book` changes the store |
| PatternH.HandleActionBooksListedSlot | pattern-h-bedrock-agent/src/action/handler.py:103-116 | booking a listed slot's id reports that slot under the next booking id and books it |

## Left out

- The LLM calls, prompts, model settings and conversation loops: every reply is an input.
- `json.loads` is an input function; `json.dumps` of the results is not modelled.
- Logging and `print` calls.
- The store's lock and any concurrent access: each operation is a function from one state to the next.
- The clock: `datetime.now()` is replaced by the seven formatted dates, and "today" is passed in.
- The singletons `get_booking_service` and `shared/__init__.py`: callers get the state explicitly.
- `shared/__init__.py` does not match `shared/booking_service.py`: lines 5-13 of the former import `BookingError`, `SlotNotAvailableError`, `SlotNotFoundError` and `create_booking_service`, which `shared/booking_service.py` does not define, so with these two files the package import fails before any request. The model takes `shared/booking_service.py` as the dict-style store behind pattern B's steps and the Findings row, and the object-style store as a separate version of the module.
- The object-style booking service that patterns A, C, G and H obtain from `create_booking_service`, and that pattern B's `workflow.py` imports (lines 10, 31 and 60, a one-argument `book` returning a `Booking`), is not part of this model. Its `book(slot_id)` is modelled as the `book` of `shared/booking_service.py` with the user as a parameter. Its errors are modelled with the texts of `shared/booking_service.py`.
- The shared exception classes of that service are not part of this model. The exception classes are not defined in `shared/booking_service.py`, so `Store.StoreError.Message` uses its dictionary texts.
- `fault` parameters of `PatternC.Check` and `PatternC.Book` stand for exceptions raised inside the services that the store in `shared/booking_service.py` never raises.
- PatternA.Chat: FastAPI's 422 body is reduced to its `msg` text.
- Llm.IntField: pydantic's lax `int | None` also accepts integral strings such as "2", integral floats such as 2.0 and booleans; the model refuses them.
- PatternA.IntentFromItems: a `slot_preference` of "2" or 2.0, which pydantic turns into 2 so that the source selects and books, is a validation error here and the reply is 400 "Invalid data format".
- PatternB.IntentFromItems: the ValidationError text that reaches the "Sorry, I couldn't complete your booking" reply is a stand-in naming only the first failing field; pydantic's text counts every failing field ("2 validation errors for ParsedIntent") and adds the type, input and documentation lines.
- PatternC.MakeIntent: the ValidationError text that follows "Intent parsing failed: " is the same one-field stand-in, without pydantic's error count and type, input and documentation lines.
- PatternC.Run: the `model_dump()` and re-validation round trips between the services are taken as the identity.
- PatternC.DateField/PatternC.TimeField: `\d` is read as ASCII digits, while Python's `re` also matches other Unicode decimal digits.
- PatternD.Bind: the TypeError texts are those of CPython 3.10-3.12 (the repository's Lambda packaging names python:3.12). They omit the module prefix Python adds for `**` of a non-mapping. From CPython 3.13 on, an unexpected keyword close to a parameter name also gets ". Did you mean 'X'?" appended, and the model does not add it.
- PatternD.BookTool: a non-string user id is filed as its `str()`.
- PatternH.HandleAction: a missing `requestBody` at any level reads as an empty property list, and parameter values are strings only. A parameter without a "name" key, which makes `param["name"]` raise a KeyError, cannot be written as a `Param`. An `apiPath` that is present but null is not told apart from an absent one: the source then replies "Unknown API path: None" and echoes None, the model "Unknown API path: " and "".
- PatternG.BookListedSlot: the two specialists are modelled over one `State`, while each service creates its own store at module level, so the source's booking specialist does not see the slots or bookings of the availability specialist's store.
- Llm.Get: it returns the first entry under a key, while `json.loads` keeps the last of duplicate keys; the two agree when keys are unique.
- PatternH.HandleActionBooksListedSlot: it also requires the listed slot id to be non-empty, which every generated id is.
- Pattern B's own intent parser (`intent_parser.py`) is left out: it is an alternative to the step the orchestrator uses.
- The exception hierarchies are flattened into datatypes. `PatternAError.IsBookingError` holds for every case except `ParseError`. In pattern C the three step errors are the `ServiceError` cases.
- The FastAPI wrappers of patterns B, D, G and H and all health endpoints only pass values through.
- Patterns E and F, the pattern G manager, the pattern H invoker and the packaging script are out of scope: they hand the whole conversation to an LLM framework or to the network.

## Findings

| source | as written | input that shows it | evidently intended | confidence | as-written member | corrected member |
|---|---|---|---|---|---|---|
| pattern-b-workflow-single-process/src/steps.py:106 | `BookingStep.book` calls `self.booking_service.book(slot.slot_id)`, but `shared/booking_service.py:96` declares `book(self, slot_id, user_id)`; the call raises a TypeError, so the orchestrator never books and replies "An unexpected error occurred: BookingService.book() missing 1 required positional argument: 'user_id'"; this assumes a store module that both imports cleanly through `shared/__init__.py` and keeps the two-parameter `book` of `shared/booking_service.py:96`, since `shared/__init__.py` and `shared/booking_service.py` together do not import (see "## Left out") | any message that parses to a date with a free slot, e.g. tomorrow's date | pass a user id, so the first free slot is booked and confirmed | not executed | PatternB.RunAsWritten (PatternB.RunAsWrittenReportsTypeError) | PatternB.Run (PatternB.RunBooksFirstSlot) |
