/**
 * Pattern G, the two specialist services behind a manager agent: one
 * answers availability questions, the other books. Each is a plain function
 * over the store with a `process_*` entry point that forwards to it.
 */
module PatternG {
  import opened Base
  import opened Text
  import opened Llm
  import opened Store
  import opened Messages
  import PatternD

  // ---------------------------------------------------------------------
  // availability/agent.py
  // ---------------------------------------------------------------------

  /** `check_availability(date, time=None)`: only reads the store. */
  function Availability(st: State, date: string, time: Option<string>): (r: string)
    ensures |CheckAvailability(st, date, time)| == 0 ==> r == NoneFoundPrefix + date + AtSuffix(time)
    ensures |CheckAvailability(st, date, time)| > 0 ==>
      r == SlotListHeader(date) + SlotLines(CheckAvailability(st, date, time))
  {
    Listing(date, AtSuffix(time), CheckAvailability(st, date, time))
  }

  /** `process_availability_request(date, time=None)`: the specialist's entry point, the same answer. */
  function ProcessAvailability(st: State, date: string, time: Option<string>): (r: string)
    ensures |CheckAvailability(st, date, time)| == 0 ==> r == NoneFoundPrefix + date + AtSuffix(time)
    ensures |CheckAvailability(st, date, time)| > 0 ==>
      r == SlotListHeader(date) + SlotLines(CheckAvailability(st, date, time))
  {
    Availability(st, date, time)
  }

  /** The specialist and the function-calling tool give the same text for string arguments. */
  lemma AvailabilityAgreesWithTool(st: State, date: string, time: Option<string>)
    ensures Availability(st, date, time)
      == PatternD.CheckTool(st, JString(date), if time.None? then JNull else JString(time.value))
  {
    var timeArg := if time.None? then JNull else JString(time.value);
    assert PatternD.Query(st, JString(date), timeArg) == CheckAvailability(st, date, time);
    assert (if Truthy(timeArg) then " at " + Str(timeArg) else "") == AtSuffix(time);
  }

  // ---------------------------------------------------------------------
  // booking/agent.py
  // ---------------------------------------------------------------------

  /**
   * `book_slot(slot_id)`: exactly the given id is booked; a store exception
   * becomes "Booking failed: ..." and the store is as before.
   */
  function Book(st: State, slotId: string, user: string): (r: (string, State))
    ensures BookObject(st, slotId, user).0.Ok? ==>
      var b := BookObject(st, slotId, user).0.value;
      r == (Confirmation(b.bookingId, b.court, b.date, b.time), BookObject(st, slotId, user).1)
    ensures BookObject(st, slotId, user).0.Err? ==>
      r == ("Booking failed: " + BookObject(st, slotId, user).0.error.Message(), st)
  {
    var (booked, next) := BookObject(st, slotId, user);
    match booked
    case Ok(b) => (Confirmation(b.bookingId, b.court, b.date, b.time), next)
    case Err(e) => ("Booking failed: " + e.Message(), next)
  }

  /** `process_booking_request(slot_id)`: the specialist's entry point, the same booking. */
  function ProcessBooking(st: State, slotId: string, user: string): (r: (string, State))
    ensures BookObject(st, slotId, user).0.Ok? ==>
      var b := BookObject(st, slotId, user).0.value;
      r == (Confirmation(b.bookingId, b.court, b.date, b.time), BookObject(st, slotId, user).1)
    ensures BookObject(st, slotId, user).0.Err? ==>
      r == ("Booking failed: " + BookObject(st, slotId, user).0.error.Message(), st)
  {
    Book(st, slotId, user)
  }

  /** A free slot of the booking specialist's store is booked under the next id and filed for the user. */
  lemma BookListedSlot(st: State, date: string, time: Option<string>, k: nat, user: string)
    requires UniqueIds(st.slots)
    requires k < |CheckAvailability(st, date, time)|
    ensures var s := CheckAvailability(st, date, time)[k];
      var id := BookingIdFor(st.counter + 1);
      var (reply, next) := Book(st, s.slotId, user);
      && reply == Confirmation(id, s.court, s.date, s.time)
      && next.counter == st.counter + 1
      && GetBooking(next, id) == Some(BookingView(id, s.court, s.date, s.time, user, Confirmed))
  {
    var s := CheckAvailability(st, date, time)[k];
    ClaimListedSlot(st, date, time, k, user);
    ClaimThenGetBooking(st, s.slotId, user);
  }

  /** A second booking of the same slot always fails and changes nothing. */
  lemma BookTwiceFails(st: State, slotId: string, user1: string, user2: string)
    requires Valid(st)
    requires BookObject(st, slotId, user1).0.Ok?
    ensures var next := Book(st, slotId, user1).1;
      Book(next, slotId, user2) == ("Booking failed: " + ("Slot " + slotId + " is already booked"), next)
  {
    ClaimTwiceFails(st, slotId, user1, user2);
  }

  /** With the stores' error texts equal, the specialist replies as the function-calling tool does. */
  lemma BookAgreesWithTool(st: State, slotId: string, user: string)
    ensures PatternD.BookTool(st, JString(slotId), JString(user)) == (Ok(Book(st, slotId, user).0), Book(st, slotId, user).1)
  {
    BookConventionsAgree(st, slotId, user);
  }
}
