/**
 * Pattern D, function calling: the model proposes a tool call (a name and a
 * JSON argument text) and this code decides what to run. The two tools
 * answer in prose; `Execute` never raises, every failure becomes a reply.
 *
 * Arguments are whatever JSON the model produced, so the tools are modelled
 * over `JsonValue`s with Python's equality, hashing and `str()` applied to
 * them.
 */
module PatternD {
  import opened Base
  import opened Text
  import opened Llm
  import opened Store
  import opened Messages

  // ---------------------------------------------------------------------
  // check_availability
  // ---------------------------------------------------------------------

  /**
   * The store's query with JSON arguments: a slot's date equals only a string
   * date, and a time filter other than `None` equals only a string time.
   */
  function Query(st: State, date: JsonValue, time: JsonValue): (r: seq<Slot>)
    ensures date.JString? && time.JNull? ==> r == CheckAvailability(st, date.s, None)
    ensures date.JString? && time.JString? ==> r == CheckAvailability(st, date.s, Some(time.s))
    ensures !date.JString? || !(time.JNull? || time.JString?) ==> r == []
  {
    if !date.JString? then []
    else match time
      case JNull => CheckAvailability(st, date.s, None)
      case JString(t) => CheckAvailability(st, date.s, Some(t))
      case _ => []
  }

  /** `check_availability(date, time=None)`: read-only, answers the listing of `Query`. */
  function CheckTool(st: State, date: JsonValue, time: JsonValue): (r: string)
    ensures |Query(st, date, time)| == 0 ==>
      r == NoneFoundPrefix + Str(date) + (if Truthy(time) then " at " + Str(time) else "")
    ensures |Query(st, date, time)| > 0 ==> r == SlotListHeader(Str(date)) + SlotLines(Query(st, date, time))
  {
    Listing(Str(date), if Truthy(time) then " at " + Str(time) else "", Query(st, date, time))
  }

  /** Each free slot of the asked date and time has its line in the reply, in the store's order. */
  lemma CheckToolListsEachSlot(st: State, date: string, time: Option<string>, k: nat)
    requires k < |CheckAvailability(st, date, time)|
    ensures var slots := CheckAvailability(st, date, time);
      CheckTool(st, JString(date), if time.None? then JNull else JString(time.value))
        == SlotListHeader(date)
           + (SlotLines(slots[..k]) + SlotLine(slots[k].court, slots[k].time, slots[k].slotId) + SlotLines(slots[k + 1..]))
  {
    var slots := CheckAvailability(st, date, time);
    var timeArg := if time.None? then JNull else JString(time.value);
    assert Query(st, JString(date), timeArg) == slots;
    assert CheckTool(st, JString(date), timeArg) == SlotListHeader(date) + SlotLines(slots);
    SlotLinesEach(slots, k);
  }

  // ---------------------------------------------------------------------
  // book_slot
  // ---------------------------------------------------------------------

  /** `user_id` as the store files it; a non-string value is filed under its `str()` text. */
  function UserText(v: JsonValue): string {
    if v.JString? then v.s else Str(v)
  }

  /**
   * `book_slot(slot_id, user_id="guest")` over the dictionary store. A list or
   * dictionary as `slot_id` makes the membership test raise; any other
   * non-string is simply not found.
   */
  function BookTool(st: State, slotId: JsonValue, userId: JsonValue): (r: (Result<string, string>, State))
    ensures !Hashable(slotId) ==> r == (Err(UnhashableText(slotId)), st)
    ensures Hashable(slotId) && !slotId.JString? ==>
      r == (Ok("Booking failed: Slot " + Str(slotId) + " not found"), st)
    ensures slotId.JString? ==>
      var (reply, next) := BookDict(st, slotId.s, UserText(userId));
      && r.1 == next
      && (reply.BookFailed? ==> r.0 == Ok("Booking failed: " + reply.error))
      && (reply.BookSucceeded? ==> r.0 == Ok(Confirmation(reply.bookingId, reply.court, reply.date, reply.time)))
  {
    if !Hashable(slotId) then (Err(UnhashableText(slotId)), st)
    else if !slotId.JString? then (Ok("Booking failed: Slot " + Str(slotId) + " not found"), st)
    else
      var (reply, next) := BookDict(st, slotId.s, UserText(userId));
      match reply
      case BookFailed(error) => (Ok("Booking failed: " + error), next)
      case BookSucceeded(id, court, date, time, _) => (Ok(Confirmation(id, court, date, time)), next)
  }

  /** Booking a listed slot by its id confirms it under the next booking id and files it for the user. */
  lemma BookToolConfirmsListedSlot(st: State, date: string, time: Option<string>, k: nat, user: string)
    requires UniqueIds(st.slots)
    requires k < |CheckAvailability(st, date, time)|
    ensures var s := CheckAvailability(st, date, time)[k];
      var id := BookingIdFor(st.counter + 1);
      var (reply, next) := BookTool(st, JString(s.slotId), JString(user));
      && reply == Ok(Confirmation(id, s.court, s.date, s.time))
      && GetBooking(next, id) == Some(BookingView(id, s.court, s.date, s.time, user, Confirmed))
  {
    var s := CheckAvailability(st, date, time)[k];
    ClaimListedSlot(st, date, time, k, user);
    ClaimThenGetBooking(st, s.slotId, user);
  }

  // ---------------------------------------------------------------------
  // AVAILABLE_FUNCTIONS and execute_tool_call
  // ---------------------------------------------------------------------

  datatype Tool = CheckAvailabilityTool | BookSlotTool {
    function Name(): string {
      match this
      case CheckAvailabilityTool => "check_availability"
      case BookSlotTool => "book_slot"
    }

    /** The keyword parameters, in declaration order. */
    function Params(): seq<string> {
      match this
      case CheckAvailabilityTool => ["date", "time"]
      case BookSlotTool => ["slot_id", "user_id"]
    }

    /** The one parameter without a default. */
    function Required(): string {
      Params()[0]
    }
  }

  /** `AVAILABLE_FUNCTIONS[name]` */
  function Lookup(name: string): (r: Option<Tool>)
    ensures r.Some? ==> r.value.Name() == name
  {
    if name == "check_availability" then Some(CheckAvailabilityTool)
    else if name == "book_slot" then Some(BookSlotTool)
    else None
  }

  /** The table holds exactly the two tools. */
  lemma LookupExactlyTwo(name: string)
    ensures Lookup(name).Some? <==> name in {"check_availability", "book_slot"}
  {
  }

  /** The first key of `items` that is not a parameter name, if any. */
  function FirstUnexpected(items: seq<(string, JsonValue)>, params: seq<string>): (r: Option<string>)
    ensures r.None? <==> forall k :: 0 <= k < |items| ==> items[k].0 in params
    ensures r.Some? ==> exists k :: (0 <= k < |items| && items[k].0 == r.value && r.value !in params
      && forall j :: 0 <= j < k ==> items[j].0 in params)
  {
    if |items| == 0 then None
    else if items[0].0 !in params then Some(items[0].0)
    else
      var rest := FirstUnexpected(items[1..], params);
      if rest.Some? then
        var k :| 0 <= k < |items| - 1 && items[1..][k].0 == rest.value && rest.value !in params
          && forall j :: 0 <= j < k ==> items[1..][j].0 in params;
        assert items[k + 1].0 == rest.value;
        rest
      else rest
  }

  predicate HasKey(items: seq<(string, JsonValue)>, key: string) {
    exists k :: 0 <= k < |items| && items[k].0 == key
  }

  /** A keyword argument, or the parameter's default when it was not passed. */
  function Arg(items: seq<(string, JsonValue)>, key: string, default: JsonValue): (r: JsonValue)
    ensures !HasKey(items, key) ==> r == default
    ensures HasKey(items, key) ==> r == Get(items, key)
  {
    if HasKey(items, key) then Get(items, key) else default
  }

  /**
   * Binding `func(**arguments)`: a non-mapping fails, then the first unknown
   * keyword, then a missing required parameter. (Python prefixes the first
   * message with the function's module, which is not modelled.)
   */
  function Bind(tool: Tool, args: Decoded): (r: Result<seq<(string, JsonValue)>, string>)
    requires !args.Malformed?
    ensures r.Ok? <==> args.Object? && FirstUnexpected(args.items, tool.Params()).None? && HasKey(args.items, tool.Required())
    ensures r.Ok? ==> r.value == args.items
    ensures args.NonObject? ==> r == Err(tool.Name() + "() argument after ** must be a mapping, not " + args.kind)
    ensures args.Object? && FirstUnexpected(args.items, tool.Params()).Some? ==>
      r == Err(tool.Name() + "() got an unexpected keyword argument '" + FirstUnexpected(args.items, tool.Params()).value + "'")
  {
    match args
    case NonObject(kind) => Err(tool.Name() + "() argument after ** must be a mapping, not " + kind)
    case Object(items) =>
      match FirstUnexpected(items, tool.Params())
      case Some(key) => Err(tool.Name() + "() got an unexpected keyword argument '" + key + "'")
      case None =>
        if !HasKey(items, tool.Required()) then
          Err(tool.Name() + "() missing 1 required positional argument: '" + tool.Required() + "'")
        else Ok(items)
  }

  /** Running a bound tool: its reply, or the text of what it raised. */
  function Call(st: State, tool: Tool, items: seq<(string, JsonValue)>): (r: (Result<string, string>, State))
    ensures tool.CheckAvailabilityTool? ==> r == (Ok(CheckTool(st, Get(items, "date"), Arg(items, "time", JNull))), st)
    ensures tool.BookSlotTool? ==> r == BookTool(st, Get(items, "slot_id"), Arg(items, "user_id", JString("guest")))
  {
    match tool
    case CheckAvailabilityTool => (Ok(CheckTool(st, Get(items, "date"), Arg(items, "time", JNull))), st)
    case BookSlotTool => BookTool(st, Get(items, "slot_id"), Arg(items, "user_id", JString("guest")))
  }

  /**
   * `execute_tool_call(tool_call)` with the argument text already decoded:
   * unparseable arguments are reported before the name is looked up, and
   * anything raised while binding or running is reported, never re-raised.
   */
  function Execute(st: State, name: string, args: Decoded): (r: (string, State))
    ensures args.Malformed? ==> r == ("Error: Could not parse arguments for " + name, st)
    ensures !args.Malformed? && Lookup(name).None? ==> r == ("Error: Unknown function " + name, st)
    ensures !args.Malformed? && Lookup(name).Some? ==>
      var tool := Lookup(name).value;
      match Bind(tool, args)
      case Err(e) => r == ("Error executing " + name + ": " + e, st)
      case Ok(items) =>
        var (called, next) := Call(st, tool, items);
        && r.1 == next
        && (called.Ok? ==> r.0 == called.value)
        && (called.Err? ==> r.0 == "Error executing " + name + ": " + called.error)
  {
    if args.Malformed? then ("Error: Could not parse arguments for " + name, st)
    else match Lookup(name)
      case None => ("Error: Unknown function " + name, st)
      case Some(tool) =>
        match Bind(tool, args)
        case Err(e) => ("Error executing " + name + ": " + e, st)
        case Ok(items) =>
          var (called, next) := Call(st, tool, items);
          match called
          case Ok(text) => (text, next)
          case Err(e) => ("Error executing " + name + ": " + e, next)
  }

  /** Only a successful `book_slot` changes the store, and then the reply is its confirmation. */
  lemma ExecuteChangesStoreOnlyByBooking(st: State, name: string, args: Decoded)
    requires Execute(st, name, args).1 != st
    ensures name == "book_slot"
    ensures var text := Execute(st, name, args).0; |text| >= 18 && text[..18] == "Booking confirmed!"
  {
    var tool := Lookup(name).value;
    var items := Bind(tool, args).value;
    var slotId := Get(items, "slot_id");
    var (reply, next) := BookDict(st, slotId.s, UserText(Arg(items, "user_id", JString("guest"))));
    assert reply.BookSucceeded?;
  }

  /** The typical call: a slot id alone books it for `"guest"`. */
  lemma ExecuteBookSlotDefaultsToGuest(st: State, slotId: string)
    ensures Execute(st, "book_slot", Object([("slot_id", JString(slotId))]))
      == var (reply, next) := BookTool(st, JString(slotId), JString("guest")); (reply.value, next)
  {
    var items := [("slot_id", JString(slotId))];
    assert FirstUnexpected(items[1..], ["slot_id", "user_id"]) == None;
    assert items[0].0 == "slot_id";
    assert !HasKey(items, "user_id");
  }

  /** A tool call without its required argument is reported, and nothing is run. */
  lemma ExecuteMissingArgument(st: State, name: string)
    requires name in {"check_availability", "book_slot"}
    ensures var tool := Lookup(name).value;
      Execute(st, name, Object([])) == ("Error executing " + name + ": "
        + (name + "() missing 1 required positional argument: '" + tool.Required() + "'"), st)
  {
    var tool := Lookup(name).value;
    assert FirstUnexpected([], tool.Params()) == None;
    assert !HasKey([], tool.Required());
    assert Bind(tool, Object([])).Err?;
  }
}
