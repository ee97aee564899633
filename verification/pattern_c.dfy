/**
 * Pattern C, a fixed workflow over three independent services. Each service
 * answers with a `ServiceResponse` envelope instead of raising; the workflow
 * turns a failed envelope into the step's `ServiceError`, and the API turns
 * that into a 400.
 *
 * The services are modelled one function each; the workflow takes the
 * availability and booking services as function parameters, so that
 * injected services are covered, and `DefaultRun` wires in the default
 * ones over a single store.
 */
module PatternC {
  import opened Base
  import opened Text
  import opened Llm
  import opened Store
  import opened Messages

  // ---------------------------------------------------------------------
  // models.py
  // ---------------------------------------------------------------------

  /** The envelope every service returns. */
  datatype ServiceResponse<T> = ServiceResponse(success: bool, data: Option<T>, error: Option<string>) {
    /** The discipline the services keep and the type does not enforce: data exactly on success, an error exactly on failure. */
    predicate WellFormed() {
      (success <==> data.Some?) && (success <==> error.None?)
    }
  }

  function Succeed<T>(data: T): (r: ServiceResponse<T>)
    ensures r.WellFormed() && r.success && r.data == Some(data)
  {
    ServiceResponse(true, Some(data), None)
  }

  function Fail<T>(error: string): (r: ServiceResponse<T>)
    ensures r.WellFormed() && !r.success && r.error == Some(error)
  {
    ServiceResponse(false, None, Some(error))
  }

  datatype ParsedIntent = ParsedIntent(date: Option<string>, time: Option<string>, rawMessage: string)

  datatype SlotInfo = SlotInfo(slotId: string, court: string, date: string, time: string, durationMinutes: int)

  datatype AvailabilityResult = AvailabilityResult(slots: seq<SlotInfo>, message: string)

  datatype BookingResult = BookingResult(
    bookingId: Option<string>, court: Option<string>, date: Option<string>, time: Option<string>, message: string)

  /**
   * `re.match(r"^\d{4}-\d{2}-\d{2}$", v)`: the shape, where `$` also matches
   * before one final newline.
   */
  predicate DateMatches(v: string) {
    IsDateShape(v) || (|v| == 11 && v[10] == '\n' && IsDateShape(v[..10]))
  }

  /** `re.match(r"^\d{2}:\d{2}$", v)` */
  predicate TimeMatches(v: string) {
    IsTimeShape(v) || (|v| == 6 && v[5] == '\n' && IsTimeShape(v[..5]))
  }

  /** The `date` field: a string or null, then `validate_date_format`. */
  function DateField(v: JsonValue): (r: Result<Option<string>, string>)
    ensures r.Ok? <==> v.JNull? || (v.JString? && DateMatches(v.s))
    ensures r.Ok? ==> r.value == (if v.JNull? then None else Some(v.s))
    ensures v.JString? && !DateMatches(v.s) ==>
      r == Err("Value error, Date must be in YYYY-MM-DD format, got: " + v.s)
  {
    match StrField(v)
    case Err(e) => Err(e)
    case Ok(None) => Ok(None)
    case Ok(Some(s)) =>
      if DateMatches(s) then Ok(Some(s)) else Err("Value error, Date must be in YYYY-MM-DD format, got: " + s)
  }

  /** The `time` field: a string or null, then `validate_time_format`. */
  function TimeField(v: JsonValue): (r: Result<Option<string>, string>)
    ensures r.Ok? <==> v.JNull? || (v.JString? && TimeMatches(v.s))
    ensures r.Ok? ==> r.value == (if v.JNull? then None else Some(v.s))
    ensures v.JString? && !TimeMatches(v.s) ==>
      r == Err("Value error, Time must be in HH:MM format, got: " + v.s)
  {
    match StrField(v)
    case Err(e) => Err(e)
    case Ok(None) => Ok(None)
    case Ok(Some(s)) =>
      if TimeMatches(s) then Ok(Some(s)) else Err("Value error, Time must be in HH:MM format, got: " + s)
  }

  /** The validators look at the shape only: a thirteenth month, an hour 99, and a trailing newline all pass. */
  lemma ValidatorsCheckShapeOnly()
    ensures DateField(JString("2025-13-45")) == Ok(Some("2025-13-45"))
    ensures TimeField(JString("99:99")) == Ok(Some("99:99"))
    ensures DateField(JString("2025-01-15\n")).Ok?
    ensures DateField(JString("2025/01/15")).Err? && TimeField(JString("3pm")).Err?
  {
    assert IsDateShape("2025-13-45");
    assert IsTimeShape("99:99");
    assert "2025-01-15\n"[..10] == "2025-01-15";
    assert IsDateShape("2025-01-15");
    assert !IsDateShape("2025/01/15");
  }

  /** `ParsedIntent(date=..., time=..., raw_message=...)`: the date is checked before the time. */
  function MakeIntent(date: JsonValue, time: JsonValue, message: string): (r: Result<ParsedIntent, ValidationError>)
    ensures r.Ok? <==> DateField(date).Ok? && TimeField(time).Ok?
    ensures r.Ok? ==> r.value == ParsedIntent(DateField(date).value, TimeField(time).value, message)
  {
    match (DateField(date), TimeField(time))
    case (Err(e), _) => Err(ValidationError("ParsedIntent", "date", e))
    case (_, Err(e)) => Err(ValidationError("ParsedIntent", "time", e))
    case (Ok(d), Ok(t)) => Ok(ParsedIntent(d, t, message))
  }

  // ---------------------------------------------------------------------
  // exceptions.py
  // ---------------------------------------------------------------------

  /** `ServiceError(service_name, error)`; every one is also a `WorkflowError`. */
  datatype ServiceError = ServiceError(serviceName: string, error: string) {
    /** `str(e)` */
    function Message(): string {
      serviceName + " failed: " + error
    }
  }

  const ParserName := "IntentParser"
  const AvailabilityName := "AvailabilityChecker"
  const BookingName := "BookingHandler"

  function ParseError(error: string): ServiceError { ServiceError(ParserName, error) }
  function AvailabilityError(error: string): ServiceError { ServiceError(AvailabilityName, error) }
  function BookingError(error: string): ServiceError { ServiceError(BookingName, error) }

  /** The message names the service, so the three step errors never read alike. */
  lemma StepErrorsDistinct(a: string, b: string)
    ensures ParseError(a).Message() != AvailabilityError(b).Message()
    ensures ParseError(a).Message() != BookingError(b).Message()
    ensures AvailabilityError(a).Message() != BookingError(b).Message()
  {
    assert ParseError(a).Message()[0] == 'I';
    assert AvailabilityError(b).Message()[0] == 'A';
    assert BookingError(b).Message()[0] == 'B';
    assert AvailabilityError(a).Message()[0] == 'A';
  }

  // ---------------------------------------------------------------------
  // services/intent_parser.py
  // ---------------------------------------------------------------------

  const NoMessage := "No message provided"
  const EmptyReply := "AI returned empty response"

  /**
   * `IntentParserService.execute({"message": message})`, with a missing key
   * as `None`. A blank message fails before the model is asked; JSON errors
   * have their own prefix, everything else is "Intent parsing failed".
   */
  function Parse(message: Option<string>, reply: Completion, decode: string -> Decoded): (r: ServiceResponse<ParsedIntent>)
    ensures r.WellFormed()
    ensures IsBlank(message.GetOr("")) ==> r == Fail(NoMessage)
    ensures !IsBlank(message.GetOr("")) ==>
      match reply
      case CallFailed(e) => r == Fail("Intent parsing failed: " + e)
      case Replied(content) =>
        if !IsTruthy(content) then r == Fail(EmptyReply)
        else match decode(content.value)
          case Malformed(e) => r == Fail("Failed to parse AI response: " + e)
          case NonObject(kind) => r == Fail("Intent parsing failed: " + NoGetText(kind))
          case Object(items) =>
            var made := MakeIntent(Get(items, "date"), Get(items, "time"), message.value);
            && (made.Ok? ==> r == Succeed(made.value))
            && (made.Err? ==> r == Fail("Intent parsing failed: " + made.error.Text()))
    ensures r.success ==> r.data.value.rawMessage == message.value
  {
    var text := message.GetOr("");
    if IsBlank(text) then Fail(NoMessage)
    else match reply
      case CallFailed(e) => Fail("Intent parsing failed: " + e)
      case Replied(content) =>
        if !IsTruthy(content) then Fail(EmptyReply)
        else match decode(content.value)
          case Malformed(e) => Fail("Failed to parse AI response: " + e)
          case NonObject(kind) => Fail("Intent parsing failed: " + NoGetText(kind))
          case Object(items) =>
            match MakeIntent(Get(items, "date"), Get(items, "time"), text)
            case Ok(intent) => Succeed(intent)
            case Err(v) => Fail("Intent parsing failed: " + v.Text())
  }

  /** A successful parse carries only validated fields. */
  lemma ParseValidates(message: Option<string>, reply: Completion, decode: string -> Decoded)
    requires Parse(message, reply, decode).success
    ensures var intent := Parse(message, reply, decode).data.value;
      && (intent.date.None? || DateMatches(intent.date.value))
      && (intent.time.None? || TimeMatches(intent.time.value))
  {
  }

  // ---------------------------------------------------------------------
  // services/availability.py
  // ---------------------------------------------------------------------

  function ToInfo(s: Slot): SlotInfo {
    SlotInfo(s.slotId, s.court, s.date, s.time, s.durationMinutes)
  }

  /** The summary line of an availability answer. */
  function Summary(count: nat, date: string, time: Option<string>): string {
    if count > 0 then "Found " + NatToString(count) + " available slot(s) on " + date + AtSuffix(time) + "."
    else "No available slots found for " + date + "."
  }

  /**
   * `AvailabilityService.execute({"intent": intent})`: the date defaults to
   * `today`, the time filter is the intent's. `fault` stands for an exception
   * raised by the store's query; the store in shared/booking_service.py raises none.
   */
  function Check(st: State, intent: Option<ParsedIntent>, today: string, fault: Option<string>)
    : (r: ServiceResponse<AvailabilityResult>)
    ensures r.WellFormed()
    ensures intent.None? ==> r == Fail("No intent data provided")
    ensures intent.Some? && fault.Some? ==> r == Fail("Availability check failed: " + fault.value)
    ensures intent.Some? && fault.None? ==>
      var date := OrElse(intent.value.date, today);
      var slots := CheckAvailability(st, date, intent.value.time);
      && r.success
      && r.data.value.slots == Map(ToInfo, slots)
      && r.data.value.message == Summary(|slots|, date, intent.value.time)
  {
    match intent
    case None => Fail("No intent data provided")
    case Some(i) =>
      var date := OrElse(i.date, today);
      if fault.Some? then Fail("Availability check failed: " + fault.value)
      else
        var slots := Map(ToInfo, CheckAvailability(st, date, i.time));
        Succeed(AvailabilityResult(slots, Summary(|slots|, date, i.time)))
  }

  /** Each reported slot is a free slot of the store, on the asked date and at the asked time. */
  lemma CheckReportsFreeSlots(st: State, intent: ParsedIntent, today: string, k: nat)
    requires k < |Check(st, Some(intent), today, None).data.value.slots|
    ensures exists s :: (s in st.slots && s.isAvailable && s.date == OrElse(intent.date, today)
      && (intent.time.None? || Some(s.time) == intent.time)
      && ToInfo(s) == Check(st, Some(intent), today, None).data.value.slots[k])
  {
    var offered := CheckAvailability(st, OrElse(intent.date, today), intent.time);
    assert offered[k] in offered;
  }

  // ---------------------------------------------------------------------
  // services/booking.py
  // ---------------------------------------------------------------------

  /** The success message of the booking service. */
  function Reservation(b: Booking): string {
    "Booking confirmed! Your reservation:\n"
      + "- Booking ID: " + b.bookingId + "\n"
      + "- Court: " + b.court + "\n"
      + "- Date: " + b.date + "\n"
      + "- Time: " + b.time
  }

  /**
   * `BookingHandlerService.execute({"slot": slot})`: only the slot id reaches
   * the store. A store error's message is passed on verbatim; `fault` stands
   * for any other exception.
   */
  function Book(st: State, slot: Option<SlotInfo>, user: string, fault: Option<string>)
    : (r: (ServiceResponse<BookingResult>, State))
    ensures r.0.WellFormed()
    ensures slot.None? ==> r == (Fail("No slot provided for booking"), st)
    ensures slot.Some? && fault.Some? ==> r == (Fail("Booking failed: " + fault.value), st)
    ensures slot.Some? && fault.None? ==>
      var (booked, next) := BookObject(st, slot.value.slotId, user);
      && r.1 == next
      && (booked.Err? ==> r.0 == Fail(booked.error.Message()))
      && (booked.Ok? ==> r.0 == Succeed(BookingResult(Some(booked.value.bookingId), Some(booked.value.court),
                                                     Some(booked.value.date), Some(booked.value.time),
                                                     Reservation(booked.value))))
  {
    match slot
    case None => (Fail("No slot provided for booking"), st)
    case Some(s) =>
      if fault.Some? then (Fail("Booking failed: " + fault.value), st)
      else
        var (booked, next) := BookObject(st, s.slotId, user);
        match booked
        case Err(e) => (Fail(e.Message()), next)
        case Ok(b) => (Succeed(BookingResult(Some(b.bookingId), Some(b.court), Some(b.date), Some(b.time),
                                            Reservation(b))), next)
  }

  /** The booking service changes the store only when it answers with success. */
  lemma BookFailureKeepsStore(st: State, slot: Option<SlotInfo>, user: string, fault: Option<string>)
    requires !Book(st, slot, user, fault).0.success
    ensures Book(st, slot, user, fault).1 == st
  {
  }

  // ---------------------------------------------------------------------
  // workflow.py
  // ---------------------------------------------------------------------

  /** An exception `Workflow.run` raises: a step's `ServiceError`, or a crash on an envelope without data. */
  datatype Raised = Service(error: ServiceError) | Crash(text: string)

  function NoneAttribute(name: string): string {
    "'NoneType' object has no attribute '" + name + "'"
  }

  type Checker = (State, ParsedIntent) -> ServiceResponse<AvailabilityResult>
  type Booker = (State, SlotInfo) -> (ServiceResponse<BookingResult>, State)

  /**
   * `Workflow.run(message)` given the parser's envelope and the availability
   * and booking services: each failed envelope raises its step's error, a
   * success without data crashes on the attribute access, an empty slot list
   * returns the availability message, and otherwise the first slot is booked.
   * The `model_dump()` round trips between the services are the identity.
   */
  function Run(st: State, parsed: ServiceResponse<ParsedIntent>, check: Checker, book: Booker)
    : (r: (Result<string, Raised>, State))
    ensures !parsed.success ==> r == (Err(Service(ParseError(OrElse(parsed.error, "Unknown error")))), st)
    ensures parsed.success && parsed.data.None? ==> r == (Err(Crash(NoneAttribute("date"))), st)
    ensures parsed.success && parsed.data.Some? ==>
      var found := check(st, parsed.data.value);
      && (!found.success ==> r == (Err(Service(AvailabilityError(OrElse(found.error, "Unknown error")))), st))
      && (found.success && found.data.None? ==> r == (Err(Crash(NoneAttribute("slots"))), st))
      && (found.success && found.data.Some? && |found.data.value.slots| == 0 ==>
            r == (Ok(found.data.value.message), st))
      && (found.success && found.data.Some? && |found.data.value.slots| > 0 ==>
            var (booked, next) := book(st, found.data.value.slots[0]);
            && r.1 == next
            && (!booked.success ==> r.0 == Err(Service(BookingError(OrElse(booked.error, "Unknown error")))))
            && (booked.success && booked.data.None? ==> r.0 == Err(Crash(NoneAttribute("booking_id"))))
            && (booked.success && booked.data.Some? ==> r.0 == Ok(booked.data.value.message)))
  {
    if !parsed.success then (Err(Service(ParseError(OrElse(parsed.error, "Unknown error")))), st)
    else if parsed.data.None? then (Err(Crash(NoneAttribute("date"))), st)
    else
      var found := check(st, parsed.data.value);
      if !found.success then (Err(Service(AvailabilityError(OrElse(found.error, "Unknown error")))), st)
      else if found.data.None? then (Err(Crash(NoneAttribute("slots"))), st)
      else if |found.data.value.slots| == 0 then (Ok(found.data.value.message), st)
      else
        var (booked, next) := book(st, found.data.value.slots[0]);
        if !booked.success then (Err(Service(BookingError(OrElse(booked.error, "Unknown error")))), next)
        else if booked.data.None? then (Err(Crash(NoneAttribute("booking_id"))), next)
        else (Ok(booked.data.value.message), next)
  }

  /** A failed parse ends the run before either other service is called. */
  lemma ParseFailureSkipsServices(st: State, parsed: ServiceResponse<ParsedIntent>,
                                  check1: Checker, book1: Booker, check2: Checker, book2: Booker)
    requires !parsed.success
    ensures Run(st, parsed, check1, book1) == Run(st, parsed, check2, book2)
  {
  }

  /** A failed availability check ends the run before the booking service is called. */
  lemma AvailabilityFailureSkipsBooking(st: State, parsed: ServiceResponse<ParsedIntent>,
                                        check: Checker, book1: Booker, book2: Booker)
    requires parsed.success && parsed.data.Some? && !check(st, parsed.data.value).success
    ensures Run(st, parsed, check, book1) == Run(st, parsed, check, book2)
    ensures Run(st, parsed, check, book1).0 == Err(Service(AvailabilityError(
      OrElse(check(st, parsed.data.value).error, "Unknown error"))))
  {
  }

  /** With well-formed envelopes every failure is a `ServiceError`: the run never crashes. */
  lemma WellFormedNeverCrashes(st: State, parsed: ServiceResponse<ParsedIntent>, check: Checker, book: Booker)
    requires parsed.WellFormed()
    requires forall s: State, i: ParsedIntent :: check(s, i).WellFormed()
    requires forall s: State, slot: SlotInfo :: book(s, slot).0.WellFormed()
    ensures !Run(st, parsed, check, book).0.Err? || Run(st, parsed, check, book).0.error.Service?
  {
  }

  /** The default services, wired to one shared store: what availability lists, booking can book. */
  function DefaultRun(st: State, message: string, reply: Completion, decode: string -> Decoded,
                      today: string, user: string): (r: (Result<string, Raised>, State))
    ensures !Parse(Some(message), reply, decode).success ==> r.1 == st
  {
    Run(st, Parse(Some(message), reply, decode),
        (s, i) => Check(s, Some(i), today, None),
        (s, slot) => Book(s, Some(slot), user, None))
  }

  /** The default wiring with nothing free answers the availability summary and books nothing. */
  lemma DefaultRunNoSlots(st: State, message: string, reply: Completion, decode: string -> Decoded,
                          today: string, user: string)
    requires Parse(Some(message), reply, decode).success
    requires var intent := Parse(Some(message), reply, decode).data.value;
      |CheckAvailability(st, OrElse(intent.date, today), intent.time)| == 0
    ensures var intent := Parse(Some(message), reply, decode).data.value;
      DefaultRun(st, message, reply, decode, today, user)
        == (Ok("No available slots found for " + OrElse(intent.date, today) + "."), st)
  {
  }

  /**
   * With the default wiring over distinct slot ids, a listed slot is always
   * bookable: the run books the first one and answers its reservation.
   */
  lemma DefaultRunBooksFirstSlot(st: State, message: string, reply: Completion, decode: string -> Decoded,
                                 today: string, user: string)
    requires UniqueIds(st.slots)
    requires Parse(Some(message), reply, decode).success
    requires var intent := Parse(Some(message), reply, decode).data.value;
      |CheckAvailability(st, OrElse(intent.date, today), intent.time)| > 0
    ensures var intent := Parse(Some(message), reply, decode).data.value;
      var first := CheckAvailability(st, OrElse(intent.date, today), intent.time)[0];
      var claim := Claim(st, first.slotId, user);
      && claim.Claimed?
      && claim.booking.bookingId == BookingIdFor(st.counter + 1)
      && DefaultRun(st, message, reply, decode, today, user) == (Ok(Reservation(claim.booking)), claim.next)
  {
    var intent := Parse(Some(message), reply, decode).data.value;
    ClaimListedSlot(st, OrElse(intent.date, today), intent.time, 0, user);
  }

  // ---------------------------------------------------------------------
  // api.py
  // ---------------------------------------------------------------------

  /**
   * `POST /chat` over the default workflow: service errors are 400 with their
   * text, anything else a bare 500. Every request builds a new `Workflow`, and
   * so a fresh store over the current dates; no state outlives the request.
   */
  function Chat(dates: seq<string>, message: string, reply: Completion, decode: string -> Decoded,
                today: string, user: string): (r: Reply)
    requires |dates| == HorizonDays && DistinctDates(dates)
    requires forall i :: 0 <= i < |dates| ==> IsDateShape(dates[i])
    ensures message == "" ==> r == Reply(422, TooShortDetail)
    ensures message != "" ==>
      var outcome := DefaultRun(Initial(dates), message, reply, decode, today, user).0;
      && (outcome.Ok? ==> r == Reply(200, outcome.value))
      && (outcome.Err? && outcome.error.Service? ==> r == Reply(400, outcome.error.error.Message()))
      && (outcome.Err? && outcome.error.Crash? ==> r == Reply(500, "Internal error"))
  {
    if message == "" then Reply(422, TooShortDetail)
    else
      match DefaultRun(Initial(dates), message, reply, decode, today, user).0
      case Ok(text) => Reply(200, text)
      case Err(Service(e)) => Reply(400, e.Message())
      case Err(Crash(_)) => Reply(500, "Internal error")
  }

  /** Every 400 names the failing service, and the default services never cause a 500. */
  lemma ChatErrorsNameTheService(dates: seq<string>, message: string, reply: Completion, decode: string -> Decoded,
                                 today: string, user: string)
    requires |dates| == HorizonDays && DistinctDates(dates)
    requires forall i :: 0 <= i < |dates| ==> IsDateShape(dates[i])
    ensures var response := Chat(dates, message, reply, decode, today, user);
      && response.status in {200, 400, 422}
      && (response.status == 400 ==> exists service, error ::
            service in {ParserName, AvailabilityName, BookingName} && response.body == ServiceError(service, error).Message())
  {
    var parsed := Parse(Some(message), reply, decode);
    var check: Checker := (s, i) => Check(s, Some(i), today, None);
    var book: Booker := (s, slot) => Book(s, Some(slot), user, None);
    WellFormedNeverCrashes(Initial(dates), parsed, check, book);
  }

  /**
   * Because every request starts from a fresh store, a request that finds a
   * free slot always books the first one as `BK0001`, whatever earlier
   * requests booked.
   */
  lemma ChatBooksOnFreshStore(dates: seq<string>, message: string, reply: Completion, decode: string -> Decoded,
                              today: string, user: string)
    requires |dates| == HorizonDays && DistinctDates(dates)
    requires forall i :: 0 <= i < |dates| ==> IsDateShape(dates[i])
    requires message != "" && Parse(Some(message), reply, decode).success
    requires var intent := Parse(Some(message), reply, decode).data.value;
      |CheckAvailability(Initial(dates), OrElse(intent.date, today), intent.time)| > 0
    ensures var intent := Parse(Some(message), reply, decode).data.value;
      var first := CheckAvailability(Initial(dates), OrElse(intent.date, today), intent.time)[0];
      var claim := Claim(Initial(dates), first.slotId, user);
      && claim.Claimed?
      && claim.booking.bookingId == "BK0001"
      && Chat(dates, message, reply, decode, today, user) == Reply(200, Reservation(claim.booking))
  {
    var st := Initial(dates);
    InitialValid(dates);
    FirstBookingId(dates);
    DefaultRunBooksFirstSlot(st, message, reply, decode, today, user);
  }
}
