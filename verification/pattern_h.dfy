/**
 * Pattern H, the action group handler a Bedrock agent invokes: it routes the
 * event's API path to the store and wraps the answer in the agent's response
 * envelope. The answer itself is a datatype here; `json.dumps` of it is not
 * modelled.
 */
module PatternH {
  import opened Base
  import opened Text
  import opened Store

  /** One entry of the event's `parameters` list: its `name` and, when present, its `value`. */
  datatype Param = Param(name: string, value: Option<string>)

  /** One entry of `requestBody.content["application/json"].properties`: `name` and `value`, each optional. */
  datatype Property = Property(name: Option<string>, value: Option<string>)

  /**
   * The fields of the event the handler reads; a missing `requestBody` or
   * any missing level below it reads as an empty property list.
   */
  datatype Event = Event(
    apiPath: Option<string>,
    httpMethod: Option<string>,
    actionGroup: Option<string>,
    parameters: seq<Param>,
    properties: seq<Property>)

  datatype SlotEntry = SlotEntry(slotId: string, court: string, date: string, time: string)

  /** The dictionary the handler serialises as the response body. */
  datatype ActionResult =
    | ErrorResult(error: string)
    | SlotsResult(slots: seq<SlotEntry>)
    | BookedResult(bookingId: string, court: string, date: string, time: string, message: string)

  /** The envelope; `messageVersion` is always "1.0". */
  datatype Response = Response(
    messageVersion: string, actionGroup: string, apiPath: string, httpMethod: string,
    httpStatusCode: int, body: ActionResult)

  // ---------------------------------------------------------------------
  // Parameters
  // ---------------------------------------------------------------------

  /** `parameters[param["name"]] = param.get("value")` over the list, in order. */
  function Fold(params: seq<Param>): (r: map<string, Option<string>>)
    ensures forall n :: n in r <==> exists k :: 0 <= k < |params| && params[k].name == n
  {
    if |params| == 0 then map[]
    else
      var init := Fold(params[..|params| - 1]);
      var last := params[|params| - 1];
      assert forall k :: 0 <= k < |params| - 1 ==> params[..|params| - 1][k] == params[k];
      init[last.name := last.value]
  }

  /** A name given several times keeps the value of its last occurrence. */
  lemma {:induction false} FoldLastWins(params: seq<Param>, k: nat)
    requires k < |params|
    requires forall j :: k < j < |params| ==> params[j].name != params[k].name
    ensures params[k].name in Fold(params) && Fold(params)[params[k].name] == params[k].value
    decreases |params|
  {
    if k < |params| - 1 {
      var init := params[..|params| - 1];
      assert forall j :: k < j < |init| ==> init[j] == params[j];
      FoldLastWins(init, k);
    }
  }

  /** `params.get(name)` */
  function ParamValue(params: map<string, Option<string>>, name: string): Option<string> {
    if name in params then params[name] else None
  }

  // ---------------------------------------------------------------------
  // _check_availability and _book_slot
  // ---------------------------------------------------------------------

  function Entry(s: Slot): SlotEntry {
    SlotEntry(s.slotId, s.court, s.date, s.time)
  }

  /** `_check_availability(params)`: a falsy date is refused before the store is asked. */
  function CheckAction(st: State, params: map<string, Option<string>>): (r: ActionResult)
    ensures !IsTruthy(ParamValue(params, "date")) ==> r == ErrorResult("Date parameter is required")
    ensures IsTruthy(ParamValue(params, "date")) ==>
      var slots := CheckAvailability(st, ParamValue(params, "date").value, ParamValue(params, "time"));
      r.SlotsResult? && |r.slots| == |slots| && forall k :: 0 <= k < |slots| ==> r.slots[k] == Entry(slots[k])
  {
    var date := ParamValue(params, "date");
    if !IsTruthy(date) then ErrorResult("Date parameter is required")
    else
      var slots := CheckAvailability(st, date.value, ParamValue(params, "time"));
      SlotsResult(seq(|slots|, k requires 0 <= k < |slots| => Entry(slots[k])))
  }

  /** Each reported slot is a free slot of the store on the asked date. */
  lemma CheckActionReportsFreeSlots(st: State, params: map<string, Option<string>>, k: nat)
    requires CheckAction(st, params).SlotsResult? && k < |CheckAction(st, params).slots|
    ensures exists s :: (s in st.slots && s.isAvailable && Some(s.date) == ParamValue(params, "date")
      && Entry(s) == CheckAction(st, params).slots[k])
  {
    var slots := CheckAvailability(st, ParamValue(params, "date").value, ParamValue(params, "time"));
    assert slots[k] in slots;
  }

  /** The `value` of the first property named `slot_id`; `None` when there is none. */
  function SlotIdOf(props: seq<Property>): (r: Option<string>)
    ensures (forall k :: 0 <= k < |props| ==> props[k].name != Some("slot_id")) ==> r == None
    ensures forall k :: (0 <= k < |props| && props[k].name == Some("slot_id")
      && forall j :: 0 <= j < k ==> props[j].name != Some("slot_id")) ==> r == props[k].value
  {
    if |props| == 0 then None
    else if props[0].name == Some("slot_id") then props[0].value
    else SlotIdOf(props[1..])
  }

  /**
   * `_book_slot(request_body)`: a falsy slot id is refused; a store exception
   * becomes "Booking failed: ...".
   */
  function BookAction(st: State, props: seq<Property>, user: string): (r: (ActionResult, State))
    ensures !IsTruthy(SlotIdOf(props)) ==> r == (ErrorResult("slot_id is required in request body"), st)
    ensures IsTruthy(SlotIdOf(props)) ==>
      var (booked, next) := BookObject(st, SlotIdOf(props).value, user);
      && r.1 == next
      && (booked.Err? ==> r.0 == ErrorResult("Booking failed: " + booked.error.Message()))
      && (booked.Ok? ==> r.0 == BookedResult(booked.value.bookingId, booked.value.court, booked.value.date,
                                             booked.value.time, "Successfully booked " + booked.value.court
                                             + " on " + booked.value.date + " at " + booked.value.time))
  {
    var slotId := SlotIdOf(props);
    if !IsTruthy(slotId) then (ErrorResult("slot_id is required in request body"), st)
    else
      var (booked, next) := BookObject(st, slotId.value, user);
      match booked
      case Err(e) => (ErrorResult("Booking failed: " + e.Message()), next)
      case Ok(b) =>
        (BookedResult(b.bookingId, b.court, b.date, b.time,
                      "Successfully booked " + b.court + " on " + b.date + " at " + b.time), next)
  }

  // ---------------------------------------------------------------------
  // handle_action
  // ---------------------------------------------------------------------

  /** What `handle_action` routes to, by API path. */
  function Route(st: State, event: Event, user: string): (r: (ActionResult, State))
    ensures event.apiPath.GetOr("") == "/check-availability" ==> r == (CheckAction(st, Fold(event.parameters)), st)
    ensures event.apiPath.GetOr("") == "/book" ==> r == BookAction(st, event.properties, user)
    ensures event.apiPath.GetOr("") !in {"/check-availability", "/book"} ==>
      r == (ErrorResult("Unknown API path: " + event.apiPath.GetOr("")), st)
  {
    var path := event.apiPath.GetOr("");
    if path == "/check-availability" then (CheckAction(st, Fold(event.parameters)), st)
    else if path == "/book" then BookAction(st, event.properties, user)
    else (ErrorResult("Unknown API path: " + path), st)
  }

  /** `handle_action(event)`: the routed answer in an envelope that always says 200 and echoes the request. */
  function HandleAction(st: State, event: Event, user: string): (r: (Response, State))
    ensures r.0.httpStatusCode == 200 && r.0.messageVersion == "1.0"
    ensures r.0.apiPath == event.apiPath.GetOr("")
    ensures r.0.httpMethod == event.httpMethod.GetOr("POST")
    ensures r.0.actionGroup == event.actionGroup.GetOr("")
    ensures (r.0.body, r.1) == Route(st, event, user)
  {
    var (body, next) := Route(st, event, user);
    (Response("1.0", event.actionGroup.GetOr(""), event.apiPath.GetOr(""), event.httpMethod.GetOr("POST"), 200, body), next)
  }

  /** Only a successful booking changes the store. */
  lemma HandleActionChangesStoreOnlyByBooking(st: State, event: Event, user: string)
    requires HandleAction(st, event, user).1 != st
    ensures event.apiPath == Some("/book")
    ensures HandleAction(st, event, user).0.body.BookedResult?
  {
    var (booked, next) := BookObject(st, SlotIdOf(event.properties).value, user);
    assert booked.Ok?;
  }

  /** Booking the id of a listed slot books exactly that slot under the next booking id. */
  lemma HandleActionBooksListedSlot(st: State, date: string, time: Option<string>, k: nat, event: Event, user: string)
    requires UniqueIds(st.slots)
    requires k < |CheckAvailability(st, date, time)|
    requires event.apiPath == Some("/book")
    requires SlotIdOf(event.properties) == Some(CheckAvailability(st, date, time)[k].slotId)
    requires CheckAvailability(st, date, time)[k].slotId != ""
    ensures var s := CheckAvailability(st, date, time)[k];
      var (response, next) := HandleAction(st, event, user);
      && response.body.BookedResult?
      && response.body.bookingId == BookingIdFor(st.counter + 1)
      && response.body.court == s.court && response.body.date == s.date && response.body.time == s.time
      && next == Claim(st, s.slotId, user).next
  {
    var s := CheckAvailability(st, date, time)[k];
    ClaimListedSlot(st, date, time, k, user);
  }
}
