/**
 * Pattern B, a fixed workflow in one process: parse, check, book, always in
 * that order. Two front ends drive it: the step orchestrator, which turns
 * every exception into a reply, and the `Workflow` class, which lets them
 * propagate.
 *
 * The steps talk to the dictionary-returning store and call its `book`
 * with the slot id alone, which that `book` rejects for the missing user id;
 * `RunAsWritten` models that, `Run` the evidently intended two-argument call.
 */
module PatternB {
  import opened Base
  import opened Text
  import opened Llm
  import opened Store
  import opened Messages

  // ---------------------------------------------------------------------
  // models.py
  // ---------------------------------------------------------------------

  datatype ParsedIntent = ParsedIntent(date: Option<string>, time: Option<string>, rawMessage: string)

  datatype SlotInfo = SlotInfo(slotId: string, court: string, date: string, time: string)

  datatype BookingResult = BookingResult(bookingId: string, court: string, date: string, time: string, message: string)

  /**
   * An exception leaving a step, split the way the orchestrator catches it:
   * `ValueError` and its subclasses (`JSONDecodeError`, pydantic's
   * `ValidationError`) apart from everything else.
   */
  datatype StepError = ValueError(text: string) | OtherError(text: string)

  // ---------------------------------------------------------------------
  // steps.py
  // ---------------------------------------------------------------------

  const NoMessage := "No message provided"

  /** The intent from a decoded dictionary; a field of the wrong type fails pydantic validation. */
  function IntentFromItems(items: seq<(string, JsonValue)>, message: string): (r: Result<ParsedIntent, StepError>)
    ensures r.Ok? <==> StrField(Get(items, "date")).Ok? && StrField(Get(items, "time")).Ok?
    ensures r.Ok? ==> r.value == ParsedIntent(StrField(Get(items, "date")).value,
                                              StrField(Get(items, "time")).value, message)
    ensures r.Err? ==> r.error.ValueError?
  {
    var date := StrField(Get(items, "date"));
    var time := StrField(Get(items, "time"));
    if date.Err? then Err(ValueError(ValidationError("ParsedIntent", "date", date.error).Text()))
    else if time.Err? then Err(ValueError(ValidationError("ParsedIntent", "time", time.error).Text()))
    else Ok(ParsedIntent(date.value, time.value, message))
  }

  /**
   * `IntentParserStep.parse(message)`: only the empty string is refused;
   * missing or empty content reads as `{}`; a failed call is not a `ValueError`.
   */
  function ParseStep(message: string, reply: Completion, decode: string -> Decoded): (r: Result<ParsedIntent, StepError>)
    ensures message == "" ==> r == Err(ValueError(NoMessage))
    ensures message != "" && reply.CallFailed? ==> r == Err(OtherError(reply.error))
    ensures message != "" && reply.Replied? && !IsTruthy(reply.content) ==> r == Ok(ParsedIntent(None, None, message))
    ensures message != "" && reply.Replied? && IsTruthy(reply.content) ==>
      match decode(reply.content.value)
      case Malformed(e) => r == Err(ValueError(e))
      case NonObject(kind) => r == Err(OtherError(NoGetText(kind)))
      case Object(items) => r == IntentFromItems(items, message)
    ensures r.Ok? ==> r.value.rawMessage == message
  {
    if message == "" then Err(ValueError(NoMessage))
    else match reply
      case CallFailed(e) => Err(OtherError(e))
      case Replied(content) =>
        var decoded := if IsTruthy(content) then decode(content.value) else Object([]);
        match decoded
        case Malformed(e) => Err(ValueError(e))
        case NonObject(kind) => Err(OtherError(NoGetText(kind)))
        case Object(items) => IntentFromItems(items, message)
  }

  /** Unlike the other parsers, this step lets a whitespace-only message through to the model. */
  lemma ParseStepAcceptsWhitespace(reply: Completion, decode: string -> Decoded)
    requires reply == Replied(None)
    ensures ParseStep(" ", reply, decode) == Ok(ParsedIntent(None, None, " "))
  {
  }

  function ToInfo(s: Slot): SlotInfo {
    SlotInfo(s.slotId, s.court, s.date, s.time)
  }

  /**
   * `AvailabilityStep.check(intent)`: the store is asked with `intent.date`
   * itself, so a missing date matches no slot at all.
   */
  function CheckStep(st: State, intent: ParsedIntent): (r: seq<SlotInfo>)
    ensures intent.date.None? ==> r == []
    ensures intent.date.Some? ==> r == Map(ToInfo, CheckAvailability(st, intent.date.value, intent.time))
  {
    match intent.date
    case None => []
    case Some(d) => Map(ToInfo, CheckAvailability(st, d, intent.time))
  }

  /** Every slot the step reports is a free slot of the store on the asked date and time. */
  lemma CheckStepSound(st: State, intent: ParsedIntent, k: nat)
    requires k < |CheckStep(st, intent)|
    ensures exists s :: (s in st.slots && s.isAvailable && Some(s.date) == intent.date
      && (intent.time.None? || Some(s.time) == intent.time) && ToInfo(s) == CheckStep(st, intent)[k])
  {
    var offered := CheckAvailability(st, intent.date.value, intent.time);
    assert offered[k] in offered;
  }

  /** `BookingStep.book(slot)` on a successful store reply: the four-line confirmation. */
  function ConfirmedResult(bookingId: string, court: string, date: string, time: string): BookingResult {
    BookingResult(bookingId, court, date, time, Confirmation(bookingId, court, date, time))
  }

  /** What Python raises for `book(slot_id)` against `book(self, slot_id, user_id)`. */
  const MissingUserId := "BookingService.book() missing 1 required positional argument: 'user_id'"

  /** `BookingStep.book(slot)` as written: the one-argument call raises a `TypeError` before the store is touched. */
  function BookStepAsWritten(st: State, slot: SlotInfo): (r: (Result<BookingResult, StepError>, State))
    ensures r == (Err(OtherError(MissingUserId)), st)
  {
    (Err(OtherError(MissingUserId)), st)
  }

  /** `BookingStep.book(slot)` with the user id passed: a store failure becomes `ValueError("Booking failed: ...")`. */
  function BookStep(st: State, slot: SlotInfo, user: string): (r: (Result<BookingResult, StepError>, State))
    ensures r.1 == BookDict(st, slot.slotId, user).1
    ensures BookDict(st, slot.slotId, user).0.BookFailed? ==>
      r.0 == Err(ValueError("Booking failed: " + BookDict(st, slot.slotId, user).0.error))
    ensures BookDict(st, slot.slotId, user).0.BookSucceeded? ==>
      var d := BookDict(st, slot.slotId, user).0;
      r.0 == Ok(ConfirmedResult(d.bookingId, d.court, d.date, d.time))
  {
    var (reply, next) := BookDict(st, slot.slotId, user);
    match reply
    case BookFailed(error) => (Err(ValueError("Booking failed: " + error)), next)
    case BookSucceeded(id, court, date, time, _) => (Ok(ConfirmedResult(id, court, date, time)), next)
  }

  // ---------------------------------------------------------------------
  // orchestrator.py
  // ---------------------------------------------------------------------

  /** The reply when nothing is free. */
  function NoCourts(intent: ParsedIntent): string {
    "Sorry, no tennis courts are available for " + OrElse(intent.date, "your requested date")
      + AtSuffix(intent.time) + ". Please try a different date or time."
  }

  /** The two `except` clauses of `run`. */
  function Caught(e: StepError): string {
    match e
    case ValueError(text) => "Sorry, I couldn't complete your booking: " + text
    case OtherError(text) => "An unexpected error occurred: " + text
  }

  /**
   * `WorkflowOrchestrator.run(message)` with the booking step given as
   * `book`: parse, check, and book the first slot when there is one. Every
   * exception becomes a reply, so `run` never raises.
   */
  function RunWith(st: State, message: string, reply: Completion, decode: string -> Decoded,
                   book: (State, SlotInfo) -> (Result<BookingResult, StepError>, State)): (r: (string, State))
    ensures ParseStep(message, reply, decode).Err? ==> r == (Caught(ParseStep(message, reply, decode).error), st)
    ensures ParseStep(message, reply, decode).Ok? ==>
      var slots := CheckStep(st, ParseStep(message, reply, decode).value);
      && (|slots| == 0 ==> r == (NoCourts(ParseStep(message, reply, decode).value), st))
      && (|slots| > 0 ==>
            var (booked, next) := book(st, slots[0]);
            && r.1 == next
            && (booked.Ok? ==> r.0 == booked.value.message)
            && (booked.Err? ==> r.0 == Caught(booked.error)))
  {
    match ParseStep(message, reply, decode)
    case Err(e) => (Caught(e), st)
    case Ok(intent) =>
      var slots := CheckStep(st, intent);
      if |slots| == 0 then (NoCourts(intent), st)
      else
        var (booked, next) := book(st, slots[0]);
        match booked
        case Ok(result) => (result.message, next)
        case Err(e) => (Caught(e), next)
  }

  /** The orchestrator as written, with the one-argument booking call. */
  function RunAsWritten(st: State, message: string, reply: Completion, decode: string -> Decoded): (r: (string, State))
    ensures r.1 == st
  {
    RunWith(st, message, reply, decode, (s, slot) => BookStepAsWritten(s, slot))
  }

  /** The orchestrator with the booking step passing `user` to the store. */
  function Run(st: State, message: string, reply: Completion, decode: string -> Decoded, user: string): (r: (string, State))
    ensures ParseStep(message, reply, decode).Err? ==> r.1 == st
  {
    RunWith(st, message, reply, decode, (s, slot) => BookStep(s, slot, user))
  }

  /**
   * As written, the orchestrator never books: whenever a slot is free the
   * reply is the `TypeError` of the one-argument call, while the corrected
   * run books that first slot.
   */
  lemma RunAsWrittenReportsTypeError(st: State, message: string, reply: Completion, decode: string -> Decoded,
                                     user: string)
    requires UniqueIds(st.slots)
    requires ParseStep(message, reply, decode).Ok?
    requires |CheckStep(st, ParseStep(message, reply, decode).value)| > 0
    ensures RunAsWritten(st, message, reply, decode)
      == ("An unexpected error occurred: " + MissingUserId, st)
    ensures Run(st, message, reply, decode, user).1.counter == st.counter + 1
  {
    var intent := ParseStep(message, reply, decode).value;
    ClaimListedSlot(st, intent.date.value, intent.time, 0, user);
  }

  /**
   * The corrected run books exactly the first listed slot and answers with
   * its confirmation.
   */
  lemma RunBooksFirstSlot(st: State, message: string, reply: Completion, decode: string -> Decoded, user: string)
    requires UniqueIds(st.slots)
    requires ParseStep(message, reply, decode).Ok?
    requires |CheckStep(st, ParseStep(message, reply, decode).value)| > 0
    ensures var intent := ParseStep(message, reply, decode).value;
      var first := CheckAvailability(st, intent.date.value, intent.time)[0];
      var id := BookingIdFor(st.counter + 1);
      && Run(st, message, reply, decode, user).0 == Confirmation(id, first.court, first.date, first.time)
      && Claim(st, first.slotId, user).Claimed?
      && Run(st, message, reply, decode, user).1 == Claim(st, first.slotId, user).next
  {
    var intent := ParseStep(message, reply, decode).value;
    ClaimListedSlot(st, intent.date.value, intent.time, 0, user);
  }

  /** With nothing free the store is untouched, whichever booking step is wired in. */
  lemma RunNoSlotsKeepsStore(st: State, message: string, reply: Completion, decode: string -> Decoded, user: string)
    requires ParseStep(message, reply, decode).Ok?
    requires |CheckStep(st, ParseStep(message, reply, decode).value)| == 0
    ensures Run(st, message, reply, decode, user) == (NoCourts(ParseStep(message, reply, decode).value), st)
    ensures RunAsWritten(st, message, reply, decode) == Run(st, message, reply, decode, user)
  {
  }

  // ---------------------------------------------------------------------
  // workflow.py
  // ---------------------------------------------------------------------

  /** An exception `Workflow.run` lets through: from the injected parser, or from the store. */
  datatype Propagated = ParserRaised(text: string) | StoreRaised(error: StoreError)

  /** `f"No slots available for {intent.date} {intent.time or ''}".strip()` */
  function NoSlotsText(intent: ParsedIntent): string {
    Strip("No slots available for " + Show(intent.date) + " " + OrElse(intent.time, ""))
  }

  /** The success reply of `Workflow.run`. */
  function BookedText(b: Booking): string {
    "Booked " + b.court + " on " + b.date + " at " + b.time + ". Booking ID: " + b.bookingId
  }

  /**
   * `Workflow.run(message)` given what the injected parser returned or
   * raised: query with `intent.date or ""`, answer when nothing is free, else
   * book `slots[0]`. Nothing is caught.
   */
  function WorkflowRun(st: State, parsed: Result<ParsedIntent, string>, user: string): (r: (Result<string, Propagated>, State))
    ensures parsed.Err? ==> r == (Err(ParserRaised(parsed.error)), st)
    ensures parsed.Ok? ==>
      var slots := CheckAvailability(st, OrElse(parsed.value.date, ""), parsed.value.time);
      && (|slots| == 0 ==> r == (Ok(NoSlotsText(parsed.value)), st))
      && (|slots| > 0 ==>
            var (booked, next) := BookObject(st, slots[0].slotId, user);
            && r.1 == next
            && (booked.Ok? ==> r.0 == Ok(BookedText(booked.value)))
            && (booked.Err? ==> r.0 == Err(StoreRaised(booked.error))))
  {
    match parsed
    case Err(e) => (Err(ParserRaised(e)), st)
    case Ok(intent) =>
      var slots := CheckAvailability(st, OrElse(intent.date, ""), intent.time);
      if |slots| == 0 then (Ok(NoSlotsText(intent)), st)
      else
        var (booked, next) := BookObject(st, slots[0].slotId, user);
        match booked
        case Ok(b) => (Ok(BookedText(b)), next)
        case Err(e) => (Err(StoreRaised(e)), next)
  }

  /**
   * The stripped no-slots text: with no time the trailing space goes, and a
   * missing date is spelled `None`.
   */
  lemma NoSlotsTextShape(intent: ParsedIntent)
    requires var d := Show(intent.date); |d| > 0 && !IsSpace(d[|d| - 1])
    ensures !IsTruthy(intent.time) ==> NoSlotsText(intent) == "No slots available for " + Show(intent.date)
    ensures IsTruthy(intent.time) && !IsSpace(intent.time.value[|intent.time.value| - 1]) ==>
      NoSlotsText(intent) == "No slots available for " + Show(intent.date) + " " + intent.time.value
  {
    var head := "No slots available for " + Show(intent.date);
    var text := head + " " + OrElse(intent.time, "");
    StripVisibleStart(text);
    if !IsTruthy(intent.time) {
      assert text == head + " ";
      TrimRightDropsSpaces(head, " ");
    } else if !IsSpace(intent.time.value[|intent.time.value| - 1]) {
      var t := intent.time.value;
      assert text[|text| - 1] == t[|t| - 1];
    }
  }

  /** Against distinct slot ids, a non-empty query always ends in a booking of its first slot. */
  lemma WorkflowBooksFirstSlot(st: State, intent: ParsedIntent, user: string)
    requires UniqueIds(st.slots)
    requires |CheckAvailability(st, OrElse(intent.date, ""), intent.time)| > 0
    ensures var first := CheckAvailability(st, OrElse(intent.date, ""), intent.time)[0];
      var id := BookingIdFor(st.counter + 1);
      WorkflowRun(st, Ok(intent), user).0
        == Ok("Booked " + first.court + " on " + first.date + " at " + first.time + ". Booking ID: " + id)
  {
    ClaimListedSlot(st, OrElse(intent.date, ""), intent.time, 0, user);
  }
}
