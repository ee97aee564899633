/** Reply texts that several callers of the store print in the same words. */
module Messages {
  import opened Store

  /**
   * The four-line confirmation printed after a booking:
   * `Booking confirmed!` then the id, court, date and time, each on its own
   * line indented by two spaces.
   */
  function Confirmation(bookingId: string, court: string, date: string, time: string): string {
    "Booking confirmed!\n"
      + "  Booking ID: " + bookingId + "\n"
      + "  Court: " + court + "\n"
      + "  Date: " + date + "\n"
      + "  Time: " + time
  }

  /** `"No available slots found for {date}"`, plus `" at {time}"` when one is given. */
  const NoneFoundPrefix := "No available slots found for "

  /** `"Available slots for {date}:\n"` */
  function SlotListHeader(date: string): string {
    "Available slots for " + date + ":\n"
  }

  /** `"  - {court} at {time} (ID: {slot_id})\n"` */
  function SlotLine(court: string, time: string, slotId: string): string {
    "  - " + court + " at " + time + " (ID: " + slotId + ")\n"
  }

  /** The slot lines of a listing, one per slot in the store's order, appended the way the loop does. */
  function SlotLines(slots: seq<Slot>): string {
    if |slots| == 0 then ""
    else SlotLines(slots[..|slots| - 1]) + SlotLine(slots[|slots| - 1].court, slots[|slots| - 1].time, slots[|slots| - 1].slotId)
  }

  /** Listing two runs of slots one after the other is listing them together. */
  lemma {:induction false} SlotLinesConcat(a: seq<Slot>, b: seq<Slot>)
    ensures SlotLines(a + b) == SlotLines(a) + SlotLines(b)
    decreases |b|
  {
    if |b| == 0 {
      assert a + b == a;
    } else {
      var b' := b[..|b| - 1];
      assert (a + b)[..|a + b| - 1] == a + b';
      assert (a + b)[|a + b| - 1] == b[|b| - 1];
      SlotLinesConcat(a, b');
    }
  }

  /** Every slot has its own line, at its own place: the lines before it, its line, the lines after it. */
  lemma SlotLinesEach(slots: seq<Slot>, k: nat)
    requires k < |slots|
    ensures SlotLines(slots)
      == SlotLines(slots[..k]) + SlotLine(slots[k].court, slots[k].time, slots[k].slotId) + SlotLines(slots[k + 1..])
  {
    var upTo := slots[..k + 1];
    assert upTo + slots[k + 1..] == slots;
    SlotLinesConcat(upTo, slots[k + 1..]);
    assert upTo[..k] == slots[..k];
  }

  /**
   * The availability reply of the tool functions: "No available slots found
   * for" the date and the time suffix when nothing is free, else the header
   * and one line per slot.
   */
  function Listing(date: string, suffix: string, slots: seq<Slot>): (r: string)
    ensures |slots| == 0 ==> r == NoneFoundPrefix + date + suffix
    ensures |slots| > 0 ==> r == SlotListHeader(date) + SlotLines(slots)
  {
    if |slots| == 0 then NoneFoundPrefix + date + suffix else SlotListHeader(date) + SlotLines(slots)
  }

  /** A listing with slots never reads like the answer that there are none. */
  lemma ListingTellsEmptyApart(date: string, suffix: string, slots: seq<Slot>)
    ensures Listing(date, suffix, slots)[0] == (if |slots| == 0 then 'N' else 'A')
  {
  }

  /** An HTTP answer of a `/chat` endpoint: the status code and the body or `detail` text. */
  datatype Reply = Reply(status: int, body: string)

  /** The 422 that request validation gives for an empty `message` (`min_length=1`). */
  const TooShortDetail := "String should have at least 1 character"
}
