/**
 * Pattern A, "AI as a service": the language model only turns the message
 * into a `ParsedIntent`; fixed code selects a slot, books it and formats
 * the reply, and the HTTP layer maps every failure to a status code.
 *
 * The store is threaded explicitly. Its `book(slot_id)` takes one argument
 * here, so the user it books for is the parameter `user`.
 */
module PatternA {
  import opened Base
  import opened Text
  import opened Llm
  import opened Store
  import opened Messages

  // ---------------------------------------------------------------------
  // exceptions.py
  // ---------------------------------------------------------------------

  /**
   * `PatternAError` and its subclasses. Every case but `ParseError` is a
   * `BookingError`.
   */
  datatype PatternAError =
    | ParseError(text: string)
    | SlotNotFoundError(slotId: string)
    | SlotNotAvailableError(slotId: string)
    | NoSlotsAvailableError(date: string, time: Option<string>)
    | InvalidSlotPreferenceError(requested: int, available: int)
  {
    predicate IsBookingError() {
      !ParseError?
    }

    /** `str(e)` */
    function Message(): string {
      match this
      case ParseError(text) => text
      case SlotNotFoundError(id) => "Slot '" + id + "' not found"
      case SlotNotAvailableError(id) => "Slot '" + id + "' is already booked"
      case NoSlotsAvailableError(date, time) => "No slots available for " + date + AtSuffix(time)
      case InvalidSlotPreferenceError(requested, available) =>
        "Requested slot " + IntToString(requested) + ", but only " + IntToString(available) + " slots available"
    }
  }

  /** The message of a slot error gives back the slot id it was raised for. */
  lemma SlotErrorMessagesInjective(e1: PatternAError, e2: PatternAError)
    requires e1.SlotNotFoundError? || e1.SlotNotAvailableError?
    requires e2.SlotNotFoundError? || e2.SlotNotAvailableError?
    requires e1.Message() == e2.Message()
    ensures e1 == e2
  {
    var m := e1.Message();
    if e1.SlotNotFoundError? && e2.SlotNotFoundError? {
      assert e1.slotId == m[6..|m| - 11] == e2.slotId;
    } else if e1.SlotNotAvailableError? && e2.SlotNotAvailableError? {
      assert e1.slotId == m[6..|m| - 19] == e2.slotId;
    } else {
      NotFoundIsNotAlreadyBooked(e1.slotId, e2.slotId);
      NotFoundIsNotAlreadyBooked(e2.slotId, e1.slotId);
      assert false;
    }
  }

  lemma NotFoundIsNotAlreadyBooked(a: string, b: string)
    ensures PatternAError.SlotNotFoundError(a).Message() != PatternAError.SlotNotAvailableError(b).Message()
  {
    var m1, m2 := PatternAError.SlotNotFoundError(a).Message(), PatternAError.SlotNotAvailableError(b).Message();
    assert m1[|m1| - 2] == 'n' && m2[|m2| - 2] == 'e';
  }

  /** `No slots available for {date}` carries `" at {time}"` exactly when the time is non-empty. */
  lemma NoSlotsMessageShape(date: string, time: Option<string>)
    ensures var m := NoSlotsAvailableError(date, time).Message();
      && m[..|"No slots available for " + date|] == "No slots available for " + date
      && (IsTruthy(time) <==> |m| > |"No slots available for " + date|)
  {
  }

  // ---------------------------------------------------------------------
  // models.py
  // ---------------------------------------------------------------------

  datatype ParsedIntent = ParsedIntent(
    date: Option<string>, time: Option<string>, slotPreference: Option<int>, rawMessage: string)

  /** Everything `chat` can see raised while handling one request. */
  datatype Raised =
    | App(appError: PatternAError)
    /** A shared `BookingError` raised by the store. */
    | Shared(storeError: StoreError)
    | Invalid(validation: ValidationError)
    | IndexError
    | Unexpected(text: string)

  // ---------------------------------------------------------------------
  // booking.py
  // ---------------------------------------------------------------------

  /**
   * `_select_slot(slots, preference)`: the first slot without a preference;
   * a preference above the count is rejected; otherwise `slots[preference - 1]`
   * under Python indexing, where a preference of 0 or below counts from the
   * end and one below `1 - len(slots)` is out of range.
   */
  function SelectSlot(slots: seq<Slot>, preference: Option<int>): (r: Result<Slot, Raised>)
    requires |slots| > 0
    ensures preference.None? ==> r == Ok(slots[0])
    ensures preference.Some? && preference.value > |slots| ==>
      r == Err(App(InvalidSlotPreferenceError(preference.value, |slots|)))
    ensures preference.Some? && 1 <= preference.value <= |slots| ==> r == Ok(slots[preference.value - 1])
    ensures preference.Some? && 1 - |slots| <= preference.value <= 0 ==>
      r == Ok(slots[|slots| + preference.value - 1])
    ensures preference.Some? && preference.value < 1 - |slots| ==> r == Err(IndexError)
  {
    match preference
    case None => Ok(slots[0])
    case Some(p) =>
      if p > |slots| then Err(App(InvalidSlotPreferenceError(p, |slots|)))
      else
        var index := p - 1;
        if index >= 0 then Ok(slots[index])
        else if index >= -|slots| then Ok(slots[|slots| + index])
        else Err(IndexError)
  }

  /** A selection that succeeds always picks one of the offered slots. */
  lemma SelectSlotPicksOffered(slots: seq<Slot>, preference: Option<int>)
    requires |slots| > 0
    ensures SelectSlot(slots, preference).Ok? ==> SelectSlot(slots, preference).value in slots
    ensures SelectSlot(slots, preference).Ok? <==>
      preference.None? || 1 - |slots| <= preference.value <= |slots|
  {
  }

  /** `_format_confirmation(booking)` */
  function FormatConfirmation(b: Booking): string {
    Confirmation(b.bookingId, b.court, b.date, b.time)
  }

  /** The confirmation names the booking id right after its first line's heading. */
  lemma ConfirmationShowsId(b: Booking)
    ensures var m := FormatConfirmation(b);
      |m| >= 33 + |b.bookingId| && m[33..33 + |b.bookingId|] == b.bookingId
  {
  }

  /** The date and time the store is queried with: `intent.date or ""` and `intent.time`. */
  function QueryDate(intent: ParsedIntent): string {
    OrElse(intent.date, "")
  }

  /**
   * `process_booking(intent)`: query, fail when nothing is free, select by
   * preference, then book exactly the selected slot and confirm it.
   */
  function ProcessBooking(st: State, intent: ParsedIntent, user: string): (r: (Result<string, Raised>, State))
    ensures var offered := CheckAvailability(st, QueryDate(intent), intent.time);
      && (|offered| == 0 ==>
            r == (Err(App(NoSlotsAvailableError(OrElse(intent.date, "your requested date"), intent.time))), st))
      && (|offered| > 0 && SelectSlot(offered, intent.slotPreference).Err? ==>
            r == (Err(SelectSlot(offered, intent.slotPreference).error), st))
      && (|offered| > 0 && SelectSlot(offered, intent.slotPreference).Ok? ==>
            var chosen := SelectSlot(offered, intent.slotPreference).value;
            var (booked, next) := BookObject(st, chosen.slotId, user);
            && r.1 == next
            && (booked.Ok? ==> r.0 == Ok(FormatConfirmation(booked.value)))
            && (booked.Err? ==> r.0 == Err(Shared(booked.error))))
  {
    var offered := CheckAvailability(st, QueryDate(intent), intent.time);
    if |offered| == 0 then
      (Err(App(NoSlotsAvailableError(OrElse(intent.date, "your requested date"), intent.time))), st)
    else
      match SelectSlot(offered, intent.slotPreference)
      case Err(e) => (Err(e), st)
      case Ok(chosen) =>
        var (booked, next) := BookObject(st, chosen.slotId, user);
        match booked
        case Ok(b) => (Ok(FormatConfirmation(b)), next)
        case Err(e) => (Err(Shared(e)), next)
  }

  /** Any failure of `process_booking` leaves the store exactly as it was. */
  lemma ProcessBookingFailureKeepsStore(st: State, intent: ParsedIntent, user: string)
    ensures ProcessBooking(st, intent, user).0.Err? ==> ProcessBooking(st, intent, user).1 == st
  {
    var offered := CheckAvailability(st, QueryDate(intent), intent.time);
    if |offered| > 0 && SelectSlot(offered, intent.slotPreference).Ok? {
      var chosen := SelectSlot(offered, intent.slotPreference).value;
      var _ := Claim(st, chosen.slotId, user);
    }
  }

  /**
   * Against a store with distinct slot ids, a selectable preference always
   * ends in a booking of the selected free slot, visible to `get_booking`.
   */
  lemma ProcessBookingBooksSelection(st: State, intent: ParsedIntent, user: string)
    requires UniqueIds(st.slots)
    requires var offered := CheckAvailability(st, QueryDate(intent), intent.time);
      |offered| > 0 && SelectSlot(offered, intent.slotPreference).Ok?
    ensures var offered := CheckAvailability(st, QueryDate(intent), intent.time);
      var chosen := SelectSlot(offered, intent.slotPreference).value;
      var (reply, next) := ProcessBooking(st, intent, user);
      var id := BookingIdFor(st.counter + 1);
      && chosen.isAvailable && chosen.date == QueryDate(intent)
      && reply == Ok(Confirmation(id, chosen.court, chosen.date, chosen.time))
      && next.counter == st.counter + 1
      && GetBooking(next, id) == Some(BookingView(id, chosen.court, chosen.date, chosen.time, user, Confirmed))
  {
    var offered := CheckAvailability(st, QueryDate(intent), intent.time);
    var chosen := SelectSlot(offered, intent.slotPreference).value;
    SelectSlotPicksOffered(offered, intent.slotPreference);
    var k :| 0 <= k < |offered| && offered[k] == chosen;
    ClaimListedSlot(st, QueryDate(intent), intent.time, k, user);
  }

  // ---------------------------------------------------------------------
  // parser.py
  // ---------------------------------------------------------------------

  const NoMessage := "No message provided"
  const EmptyReply := "AI returned empty response"

  /** The `ParsedIntent(...)` constructor over the decoded dictionary, fields checked in order. */
  function IntentFromItems(items: seq<(string, JsonValue)>, message: string): (r: Result<ParsedIntent, Raised>)
    ensures r.Ok? <==>
      StrField(Get(items, "date")).Ok? && StrField(Get(items, "time")).Ok?
      && IntField(Get(items, "slot_preference")).Ok?
    ensures r.Ok? ==> r.value.rawMessage == message
    ensures r.Err? ==> r.error.Invalid?
  {
    var date := StrField(Get(items, "date"));
    var time := StrField(Get(items, "time"));
    var preference := IntField(Get(items, "slot_preference"));
    if date.Err? then Err(Invalid(ValidationError("ParsedIntent", "date", date.error)))
    else if time.Err? then Err(Invalid(ValidationError("ParsedIntent", "time", time.error)))
    else if preference.Err? then Err(Invalid(ValidationError("ParsedIntent", "slot_preference", preference.error)))
    else Ok(ParsedIntent(date.value, time.value, preference.value, message))
  }

  /**
   * `parse_intent(message)`: a blank message is refused before the model is
   * asked; then a failed call, empty content and undecodable content each
   * become a `ParseError`, and the decoded fields become the intent.
   */
  function ParseIntent(message: string, reply: Completion, decode: string -> Decoded): (r: Result<ParsedIntent, Raised>)
    ensures IsBlank(message) ==> r == Err(App(ParseError(NoMessage)))
    ensures !IsBlank(message) && reply.CallFailed? ==>
      r == Err(App(ParseError("Failed to parse message: " + reply.error)))
    ensures !IsBlank(message) && reply.Replied? && !IsTruthy(reply.content) ==> r == Err(App(ParseError(EmptyReply)))
    ensures !IsBlank(message) && reply.Replied? && IsTruthy(reply.content) ==>
      match decode(reply.content.value)
      case Malformed(e) => r == Err(App(ParseError("Invalid JSON from AI: " + e)))
      case NonObject(kind) => r == Err(Unexpected(NoGetText(kind)))
      case Object(items) => r == IntentFromItems(items, message)
    ensures r.Ok? ==> r.value.rawMessage == message
  {
    if IsBlank(message) then Err(App(ParseError(NoMessage)))
    else match reply
      case CallFailed(e) => Err(App(ParseError("Failed to parse message: " + e)))
      case Replied(content) =>
        if !IsTruthy(content) then Err(App(ParseError(EmptyReply)))
        else match decode(content.value)
          case Malformed(e) => Err(App(ParseError("Invalid JSON from AI: " + e)))
          case NonObject(kind) => Err(Unexpected(NoGetText(kind)))
          case Object(items) => IntentFromItems(items, message)
  }

  /** A reply carrying the three fields as JSON strings and an integer parses to exactly those values. */
  lemma ParseIntentReadsFields(message: string, content: string, decode: string -> Decoded,
                               date: string, time: string, preference: int)
    requires !IsBlank(message) && content != ""
    requires decode(content) == Object([("date", JString(date)), ("time", JString(time)),
                                        ("slot_preference", JInt(preference))])
    ensures ParseIntent(message, Replied(Some(content)), decode)
      == Ok(ParsedIntent(Some(date), Some(time), Some(preference), message))
  {
    var items := [("date", JString(date)), ("time", JString(time)), ("slot_preference", JInt(preference))];
    assert Get(items, "date") == JString(date);
    assert Get(items, "time") == JString(time);
    assert items[0].0 != "slot_preference" && items[1].0 != "slot_preference";
    assert items[2].0 == "slot_preference";
    assert Get(items, "slot_preference") == JInt(preference);
  }

  // ---------------------------------------------------------------------
  // api.py
  // ---------------------------------------------------------------------

  const InternalErrorDetail := "An internal error occurred. Please try again later."

  /** The `except` clauses of `chat`, in order. */
  function Classify(e: Raised): (r: Reply)
    ensures r.status == 400 || r.status == 500
    ensures r.status == 500 <==> e.IndexError? || e.Unexpected?
    ensures r.status == 500 ==> r.body == InternalErrorDetail
    ensures e.App? ==> r == Reply(400, e.appError.Message())
    ensures e.Shared? ==> r == Reply(400, e.storeError.Message())
    ensures e.Invalid? ==> r == Reply(400, "Invalid data format")
  {
    match e
    case App(ParseError(text)) => Reply(400, text)
    case App(err) => Reply(400, err.Message())
    case Shared(err) => Reply(400, err.Message())
    case Invalid(_) => Reply(400, "Invalid data format")
    case IndexError => Reply(500, InternalErrorDetail)
    case Unexpected(_) => Reply(500, InternalErrorDetail)
  }

  /**
   * `POST /chat`: validate the request, parse, then process with the store;
   * the processor runs only once the parser has returned an intent.
   */
  function Chat(st: State, message: string, reply: Completion, decode: string -> Decoded, user: string)
    : (r: (Reply, State))
    ensures message == "" ==> r == (Reply(422, TooShortDetail), st)
    ensures message != "" && ParseIntent(message, reply, decode).Err? ==>
      r == (Classify(ParseIntent(message, reply, decode).error), st)
    ensures message != "" && ParseIntent(message, reply, decode).Ok? ==>
      var (processed, next) := ProcessBooking(st, ParseIntent(message, reply, decode).value, user);
      && r.1 == next
      && (processed.Ok? ==> r.0 == Reply(200, processed.value))
      && (processed.Err? ==> r.0 == Classify(processed.error))
  {
    if message == "" then (Reply(422, TooShortDetail), st)
    else match ParseIntent(message, reply, decode)
      case Err(e) => (Classify(e), st)
      case Ok(intent) =>
        var (processed, next) := ProcessBooking(st, intent, user);
        match processed
        case Ok(text) => (Reply(200, text), next)
        case Err(e) => (Classify(e), next)
  }

  /** A whitespace-only message is a 400 "No message provided", whatever the model would have said. */
  lemma ChatBlankMessage(st: State, message: string, reply: Completion, decode: string -> Decoded, user: string)
    requires message != "" && IsBlank(message)
    ensures Chat(st, message, reply, decode, user) == (Reply(400, NoMessage), st)
  {
  }

  /** No response leaks exception text: every 500 carries the fixed detail, and failures keep the store. */
  lemma ChatFailuresAreOpaque(st: State, message: string, reply: Completion, decode: string -> Decoded, user: string)
    ensures var (response, next) := Chat(st, message, reply, decode, user);
      && response.status in {200, 400, 422, 500}
      && (response.status == 500 ==> response.body == InternalErrorDetail)
      && (response.status != 200 ==> next == st)
  {
    if message != "" && ParseIntent(message, reply, decode).Ok? {
      ProcessBookingFailureKeepsStore(st, ParseIntent(message, reply, decode).value, user);
    }
  }
}
