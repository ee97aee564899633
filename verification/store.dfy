/**
 * The shared in-memory booking store: a catalogue of court slots, a table of
 * bookings and a booking counter. The state is an immutable value and every
 * operation is a pure transition; the dictionary of slots (ordered by
 * insertion, keyed by slot id) is a sequence whose ids are pairwise distinct.
 */
module Store {
  import opened Base
  import opened Text

  const Courts: seq<string> := ["Court A", "Court B", "Court C"]
  const Times: seq<string> := ["09:00", "10:00", "11:00", "14:00", "15:00", "16:00", "17:00"]
  /** Days generated at start-up, today included. */
  const HorizonDays: nat := 7
  /** HorizonDays * |Courts| * |Times| */
  const SlotCount: nat := 147
  const DefaultDurationMinutes: int := 60
  /** How many of the first generated slots start out booked. */
  const SampleBookedCount: nat := 5
  const SampleBookedBy: string := "existing_user"
  const Confirmed: string := "confirmed"

  datatype Slot = Slot(
    slotId: string,
    court: string,
    date: string,
    time: string,
    durationMinutes: int,
    isAvailable: bool,
    bookedBy: Option<string>)

  datatype Booking = Booking(
    bookingId: string,
    slotId: string,
    userId: string,
    court: string,
    date: string,
    time: string,
    status: string)

  datatype State = State(slots: seq<Slot>, bookings: map<string, Booking>, counter: nat)

  // ---------------------------------------------------------------------
  // Identifiers
  // ---------------------------------------------------------------------

  /** `f"{date}_{court.replace(' ', '')}_{time.replace(':', '')}"` */
  function SlotId(date: string, court: string, time: string): string {
    date + "_" + Without(court, ' ') + "_" + Without(time, ':')
  }

  /** `f"BK{n:04d}"` */
  function BookingIdFor(n: nat): string {
    "BK" + ZeroPad(n, 4)
  }

  /** Reads the counter value back out of a booking id. */
  function BookingNumber(id: string): Option<nat> {
    if |id| >= 2 && id[..2] == "BK" && AllDigits(id[2..]) then Some(DigitsValue(id[2..]))
    else None
  }

  lemma BookingIdRoundTrip(n: nat)
    ensures BookingNumber(BookingIdFor(n)) == Some(n)
  {
    var id := BookingIdFor(n);
    assert id[..2] == "BK" && id[2..] == ZeroPad(n, 4);
  }

  /** The first booking of a fresh store is numbered `BK0001`. */
  lemma FirstBookingId(dates: seq<string>)
    requires |dates| == HorizonDays && DistinctDates(dates)
    requires forall i :: 0 <= i < |dates| ==> IsDateShape(dates[i])
    ensures BookingIdFor(Initial(dates).counter + 1) == "BK0001"
  {
    assert NatToString(1) == "1";
    assert Zeros(3) == "000";
  }

  /** Different counter values give different booking ids. */
  lemma BookingIdInjective(m: nat, n: nat)
    requires BookingIdFor(m) == BookingIdFor(n)
    ensures m == n
  {
    BookingIdRoundTrip(m);
    BookingIdRoundTrip(n);
  }

  // ---------------------------------------------------------------------
  // Lookup
  // ---------------------------------------------------------------------

  /** Position of the slot with the given id (`slot_id in self._slots`). */
  function IndexOf(slots: seq<Slot>, slotId: string): (r: Option<nat>)
    ensures r.Some? ==> r.value < |slots| && slots[r.value].slotId == slotId
    ensures r.Some? ==> forall i :: 0 <= i < r.value ==> slots[i].slotId != slotId
    ensures r.None? ==> forall i :: 0 <= i < |slots| ==> slots[i].slotId != slotId
  {
    if |slots| == 0 then None
    else if slots[0].slotId == slotId then Some(0)
    else match IndexOf(slots[1..], slotId)
      case None => None
      case Some(i) => Some(i + 1)
  }

  predicate UniqueIds(slots: seq<Slot>) {
    forall i, j :: 0 <= i < j < |slots| ==> slots[i].slotId != slots[j].slotId
  }

  /** With distinct ids, the lookup finds exactly the slot carrying the id. */
  lemma IndexOfUnique(slots: seq<Slot>, i: nat)
    requires UniqueIds(slots) && i < |slots|
    ensures IndexOf(slots, slots[i].slotId) == Some(i)
  {
  }

  /** The lookup sees only the ids, so re-valuing slots in place does not move it. */
  lemma {:induction false} IndexOfSameIds(a: seq<Slot>, b: seq<Slot>, slotId: string)
    requires |a| == |b| && forall i :: 0 <= i < |a| ==> a[i].slotId == b[i].slotId
    ensures IndexOf(a, slotId) == IndexOf(b, slotId)
    decreases |a|
  {
    if |a| > 0 && a[0].slotId != slotId {
      IndexOfSameIds(a[1..], b[1..], slotId);
    }
  }

  predicate HasSlot(st: State, slotId: string) {
    exists i :: 0 <= i < |st.slots| && st.slots[i].slotId == slotId
  }

  // ---------------------------------------------------------------------
  // Invariant
  // ---------------------------------------------------------------------

  /** Ids `BK0001` .. `BK{counter}` that the counter has handed out. */
  ghost function IssuedIds(counter: nat): set<string> {
    set n: nat | 1 <= n <= counter :: BookingIdFor(n)
  }

  /** A booking is backed by an existing, unavailable slot that it describes. */
  predicate Backed(st: State, b: Booking) {
    match IndexOf(st.slots, b.slotId)
    case None => false
    case Some(i) =>
      var s := st.slots[i];
      && !s.isAvailable
      && s.bookedBy == Some(b.userId)
      && s.court == b.court && s.date == b.date && s.time == b.time
  }

  /**
   * The store's consistency: slot ids are distinct, every booking is filed
   * under its own id, that id was issued by the counter, it is backed by its
   * slot, and no two bookings share a slot.
   */
  ghost predicate Valid(st: State) {
    && UniqueIds(st.slots)
    && (forall id | id in st.bookings :: id in IssuedIds(st.counter))
    && (forall id | id in st.bookings :: st.bookings[id].bookingId == id && st.bookings[id].status == Confirmed)
    && (forall id | id in st.bookings :: Backed(st, st.bookings[id]))
    && (forall a, b | a in st.bookings && b in st.bookings ::
          st.bookings[a].slotId == st.bookings[b].slotId ==> a == b)
  }

  // ---------------------------------------------------------------------
  // Initialisation
  // ---------------------------------------------------------------------

  /** Flat position of (day, court, time) in generation order. */
  function Pos(d: nat, c: nat, t: nat): nat {
    21 * d + 7 * c + t
  }

  lemma PosDecompose(d: nat, c: nat, t: nat)
    requires d < 7 && c < 3 && t < 7
    ensures Pos(d, c, t) < SlotCount
    ensures Pos(d, c, t) / 21 == d && Pos(d, c, t) / 7 % 3 == c && Pos(d, c, t) % 7 == t
  {
    assert Pos(d, c, t) == 7 * (3 * d + c) + t;
    assert Pos(d, c, t) / 7 == 3 * d + c;
  }

  lemma PosCompose(k: nat)
    requires k < SlotCount
    ensures k == Pos(k / 21, k / 7 % 3, k % 7) && k / 21 < 7
  {
    assert k / 7 == 3 * (k / 21) + k / 7 % 3;
  }

  /** The slot generated at flat position `k`, before any sample booking. */
  function GeneratedSlot(dates: seq<string>, k: nat): Slot
    requires |dates| == HorizonDays && k < SlotCount
  {
    var date, court, time := dates[k / 21], Courts[k / 7 % 3], Times[k % 7];
    Slot(SlotId(date, court, time), court, date, time, DefaultDurationMinutes, true, None)
  }

  /** The first five generated slots start out booked by `existing_user`. */
  function InitialSlot(dates: seq<string>, k: nat): Slot
    requires |dates| == HorizonDays && k < SlotCount
  {
    var s := GeneratedSlot(dates, k);
    if k < SampleBookedCount then s.(isAvailable := false, bookedBy := Some(SampleBookedBy)) else s
  }

  predicate DistinctDates(dates: seq<string>) {
    forall i, j :: 0 <= i < j < |dates| ==> dates[i] != dates[j]
  }

  /**
   * `BookingService()` with the seven dates `today + 0 .. today + 6` formatted
   * as `%Y-%m-%d`, which the clock supplies.
   */
  function Initial(dates: seq<string>): (st: State)
    requires |dates| == HorizonDays && DistinctDates(dates)
    requires forall i :: 0 <= i < |dates| ==> IsDateShape(dates[i])
    ensures |st.slots| == SlotCount && st.bookings == map[] && st.counter == 0
  {
    State(seq(SlotCount, k requires 0 <= k < SlotCount => InitialSlot(dates, k)), map[], 0)
  }

  /** `"Court X".replace(" ", "")` is `"CourtX"`. */
  lemma CompactCourt(c: nat)
    requires c < 3
    ensures |Courts[c]| == 7
    ensures Without(Courts[c], ' ') == "Court" + [Courts[c][6]]
  {
    var letter := Courts[c][6];
    assert Courts[c] == "Court" + " " + [letter] by {
      if c == 0 {} else if c == 1 {} else {}
    }
    WithoutConcat("Court" + " ", [letter], ' ');
    WithoutConcat("Court", " ", ' ');
  }

  /** `"HH:MM".replace(":", "")` is `"HHMM"`. */
  lemma CompactTime(t: nat)
    requires t < 7
    ensures |Times[t]| == 5
    ensures Without(Times[t], ':') == Times[t][..2] + Times[t][3..]
  {
    var time := Times[t];
    var h, m := time[..2], time[3..];
    assert time == h + ":" + m by {
      if t == 0 {} else if t == 1 {} else if t == 2 {} else if t == 3 {}
      else if t == 4 {} else if t == 5 {} else {}
    }
    assert Without(h, ':') == h && Without(m, ':') == m by {
      if t == 0 {} else if t == 1 {} else if t == 2 {} else if t == 3 {}
      else if t == 4 {} else if t == 5 {} else {}
    }
    WithoutConcat(h + ":", m, ':');
    WithoutConcat(h, ":", ':');
  }

  lemma CourtsDistinct(c1: nat, c2: nat)
    requires c1 < 3 && c2 < 3 && Courts[c1][6] == Courts[c2][6]
    ensures c1 == c2
  {
  }

  lemma TimesDistinct(t1: nat, t2: nat)
    requires t1 < 7 && t2 < 7 && Times[t1][..2] == Times[t2][..2]
    ensures t1 == t2
  {
    assert Times[t1][1] == Times[t1][..2][1] && Times[t2][1] == Times[t2][..2][1];
  }

  /** Where the date, the court letter and the hour sit inside a generated slot id. */
  lemma SlotIdFields(d: string, court: string, time: string)
    requires |d| == 10 && |court| == 6 && |time| == 4
    ensures var id := d + "_" + court + "_" + time;
      id[..10] == d && id[16] == court[5] && id[18..20] == time[..2]
  {
  }

  /** A slot id determines its date, court and time among the generated combinations. */
  lemma SlotIdInjective(d1: string, c1: nat, t1: nat, d2: string, c2: nat, t2: nat)
    requires IsDateShape(d1) && IsDateShape(d2)
    requires c1 < 3 && c2 < 3 && t1 < 7 && t2 < 7
    requires SlotId(d1, Courts[c1], Times[t1]) == SlotId(d2, Courts[c2], Times[t2])
    ensures d1 == d2 && c1 == c2 && t1 == t2
  {
    CompactCourt(c1);
    CompactCourt(c2);
    CompactTime(t1);
    CompactTime(t2);
    var court1, court2 := Without(Courts[c1], ' '), Without(Courts[c2], ' ');
    var time1, time2 := Without(Times[t1], ':'), Without(Times[t2], ':');
    SlotIdFields(d1, court1, time1);
    SlotIdFields(d2, court2, time2);
    assert court1[5] == Courts[c1][6] && court2[5] == Courts[c2][6];
    assert time1[..2] == Times[t1][..2] && time2[..2] == Times[t2][..2];
    CourtsDistinct(c1, c2);
    TimesDistinct(t1, t2);
  }

  /** Generation yields one slot per (day, court, time), at its flat position. */
  lemma InitialLayout(dates: seq<string>, d: nat, c: nat, t: nat)
    requires |dates| == HorizonDays && DistinctDates(dates)
    requires forall i :: 0 <= i < |dates| ==> IsDateShape(dates[i])
    requires d < 7 && c < 3 && t < 7
    ensures Pos(d, c, t) < SlotCount
    ensures var s := Initial(dates).slots[Pos(d, c, t)];
      && s.slotId == SlotId(dates[d], Courts[c], Times[t])
      && s.date == dates[d] && s.court == Courts[c] && s.time == Times[t]
      && s.durationMinutes == DefaultDurationMinutes
  {
    PosDecompose(d, c, t);
  }

  /** Exactly the first five generated slots start out booked, by `existing_user`. */
  lemma InitialSampleBookings(dates: seq<string>)
    requires |dates| == HorizonDays && DistinctDates(dates)
    requires forall i :: 0 <= i < |dates| ==> IsDateShape(dates[i])
    ensures forall k :: 0 <= k < SlotCount ==>
      && (Initial(dates).slots[k].isAvailable <==> k >= SampleBookedCount)
      && Initial(dates).slots[k].bookedBy == (if k < SampleBookedCount then Some(SampleBookedBy) else None)
  {
    var slots := Initial(dates).slots;
    forall k | 0 <= k < SlotCount
      ensures (slots[k].isAvailable <==> k >= SampleBookedCount)
      ensures slots[k].bookedBy == (if k < SampleBookedCount then Some(SampleBookedBy) else None)
    {
      assert slots[k] == InitialSlot(dates, k);
      assert !GeneratedSlot(dates, k).bookedBy.Some?;
    }
  }

  /** The sample bookings are day 0, Court A, 09:00 to 15:00. */
  lemma InitialSampleSlots(dates: seq<string>)
    requires |dates| == HorizonDays && DistinctDates(dates)
    requires forall i :: 0 <= i < |dates| ==> IsDateShape(dates[i])
    ensures forall k :: 0 <= k < SampleBookedCount ==>
      && Initial(dates).slots[k].date == dates[0]
      && Initial(dates).slots[k].court == "Court A"
      && Initial(dates).slots[k].time == Times[k]
  {
    forall k | 0 <= k < SampleBookedCount
      ensures Initial(dates).slots[k].date == dates[0]
      ensures Initial(dates).slots[k].court == "Court A"
      ensures Initial(dates).slots[k].time == Times[k]
    {
      SampleSlot(dates, k);
    }
  }

  lemma SampleSlot(dates: seq<string>, k: nat)
    requires |dates| == HorizonDays && DistinctDates(dates)
    requires forall i :: 0 <= i < |dates| ==> IsDateShape(dates[i])
    requires k < SampleBookedCount
    ensures var s := Initial(dates).slots[k];
      s.date == dates[0] && s.court == "Court A" && s.time == Times[k]
  {
    assert k / 21 == 0 && k / 7 == 0 && k % 7 == k;
    assert Initial(dates).slots[k] == InitialSlot(dates, k);
  }

  /** All 147 generated ids are distinct, and the initial store is consistent. */
  lemma InitialValid(dates: seq<string>)
    requires |dates| == HorizonDays && DistinctDates(dates)
    requires forall i :: 0 <= i < |dates| ==> IsDateShape(dates[i])
    ensures UniqueIds(Initial(dates).slots)
    ensures Valid(Initial(dates))
  {
    var slots := Initial(dates).slots;
    forall i, j | 0 <= i < j < |slots|
      ensures slots[i].slotId != slots[j].slotId
    {
      InitialIdsDistinct(dates, i, j);
    }
  }

  /** Two different positions of the fresh store carry different ids. */
  lemma InitialIdsDistinct(dates: seq<string>, i: nat, j: nat)
    requires |dates| == HorizonDays && DistinctDates(dates)
    requires forall k :: 0 <= k < |dates| ==> IsDateShape(dates[k])
    requires i < j < SlotCount
    ensures Initial(dates).slots[i].slotId != Initial(dates).slots[j].slotId
  {
    var slots := Initial(dates).slots;
    assert slots[i] == InitialSlot(dates, i) && slots[j] == InitialSlot(dates, j);
    PosCompose(i);
    PosCompose(j);
    if slots[i].slotId == slots[j].slotId {
      SlotIdInjective(dates[i / 21], i / 7 % 3, i % 7, dates[j / 21], j / 7 % 3, j % 7);
    }
  }

  // ---------------------------------------------------------------------
  // Availability query
  // ---------------------------------------------------------------------

  /** The filter of `check_availability`: the date, free, and the time when one is given. */
  predicate Matches(s: Slot, date: string, time: Option<string>) {
    s.date == date && s.isAvailable && (time.None? || s.time == time.value)
  }

  /** The matching slots in store order. */
  function Filter(slots: seq<Slot>, date: string, time: Option<string>): (r: seq<Slot>)
    ensures multiset(r) <= multiset(slots)
    ensures forall s :: s in r <==> s in slots && Matches(s, date, time)
  {
    if |slots| == 0 then []
    else
      var rest := Filter(slots[1..], date, time);
      assert slots == [slots[0]] + slots[1..];
      if Matches(slots[0], date, time) then [slots[0]] + rest else rest
  }

  /** The sort key `(time, court)` compared the way Python compares tuples of strings. */
  predicate KeyLessEq(a: Slot, b: Slot) {
    LexLess(a.time, b.time) || (a.time == b.time && LexLessEq(a.court, b.court))
  }

  lemma KeyTotal(a: Slot, b: Slot)
    ensures KeyLessEq(a, b) || KeyLessEq(b, a)
  {
    if a.time != b.time {
      LexLessTotal(a.time, b.time);
    } else if a.court != b.court {
      LexLessTotal(a.court, b.court);
    }
  }

  lemma KeyTransitive(a: Slot, b: Slot, c: Slot)
    requires KeyLessEq(a, b) && KeyLessEq(b, c)
    ensures KeyLessEq(a, c)
  {
    if LexLess(a.time, b.time) && LexLess(b.time, c.time) {
      LexLessTransitive(a.time, b.time, c.time);
    } else if a.time == b.time && b.time == c.time && LexLess(a.court, b.court) && LexLess(b.court, c.court) {
      LexLessTransitive(a.court, b.court, c.court);
    }
  }

  predicate SortedByKey(s: seq<Slot>) {
    forall i, j :: 0 <= i < j < |s| ==> KeyLessEq(s[i], s[j])
  }

  /** A sorted list stays sorted when an element no greater than all of it goes in front. */
  lemma ConsSorted(b: Slot, t: seq<Slot>)
    requires SortedByKey(t)
    requires forall j :: 0 <= j < |t| ==> KeyLessEq(b, t[j])
    ensures SortedByKey([b] + t)
  {
    forall i, j | 0 <= i < j < |[b] + t| ensures KeyLessEq(([b] + t)[i], ([b] + t)[j]) {
      if i == 0 {
        assert ([b] + t)[j] == t[j - 1];
      } else {
        assert ([b] + t)[i] == t[i - 1] && ([b] + t)[j] == t[j - 1];
      }
    }
  }

  /** A lower bound of a list and of `x` bounds every element of a permutation of both. */
  lemma LowerBoundKept(b: Slot, s: seq<Slot>, x: Slot, t: seq<Slot>)
    requires forall j :: 0 <= j < |s| ==> KeyLessEq(b, s[j])
    requires KeyLessEq(b, x)
    requires multiset(t) == multiset(s) + multiset{x}
    ensures forall j :: 0 <= j < |t| ==> KeyLessEq(b, t[j])
  {
    forall j | 0 <= j < |t| ensures KeyLessEq(b, t[j]) {
      assert t[j] in multiset(t);
      if t[j] != x {
        assert t[j] in multiset(s);
        var i :| 0 <= i < |s| && s[i] == t[j];
      }
    }
  }

  /** Places `x` before the first element it does not exceed, so equal keys keep their order. */
  function Insert(x: Slot, s: seq<Slot>): (r: seq<Slot>)
    requires SortedByKey(s)
    ensures SortedByKey(r)
    ensures multiset(r) == multiset(s) + multiset{x}
    ensures |r| == |s| + 1
  {
    if |s| == 0 then [x]
    else if KeyLessEq(x, s[0]) then
      assert forall j :: 0 <= j < |s| ==> KeyLessEq(x, s[j]) by {
        forall j | 0 <= j < |s| ensures KeyLessEq(x, s[j]) {
          if j > 0 { KeyTransitive(x, s[0], s[j]); }
        }
      }
      ConsSorted(x, s);
      [x] + s
    else
      KeyTotal(x, s[0]);
      assert s == [s[0]] + s[1..];
      var tail := Insert(x, s[1..]);
      LowerBoundKept(s[0], s[1..], x, tail);
      ConsSorted(s[0], tail);
      [s[0]] + tail
  }

  /** Stable insertion sort by `(time, court)`, the model of `list.sort(key=...)`. */
  function SortByKey(s: seq<Slot>): (r: seq<Slot>)
    ensures SortedByKey(r)
    ensures multiset(r) == multiset(s)
  {
    if |s| == 0 then []
    else
      assert s == [s[0]] + s[1..];
      Insert(s[0], SortByKey(s[1..]))
  }

  /**
   * `check_availability(date, time)`: the free slots of that date (and time,
   * when given), ordered by time and then court. It returns no new state.
   * `Insert` keeps equal keys in store order as `list.sort` does, but the
   * contract does not state that stability: it matters only for two free
   * slots of one date with the same time and court, and the generated store
   * has none.
   */
  function CheckAvailability(st: State, date: string, time: Option<string>): (r: seq<Slot>)
    ensures SortedByKey(r)
    ensures multiset(r) == multiset(Filter(st.slots, date, time))
    ensures forall s :: s in r <==> s in st.slots && Matches(s, date, time)
  {
    var r := SortByKey(Filter(st.slots, date, time));
    assert forall s :: s in r <==> s in multiset(r);
    r
  }

  // ---------------------------------------------------------------------
  // Booking
  // ---------------------------------------------------------------------

  /** What a booking attempt did: the new booking and state, or why nothing changed. */
  datatype ClaimOutcome =
    | Claimed(booking: Booking, next: State)
    | SlotNotFound(slotId: string)
    | SlotNotAvailable(slotId: string)

  /** The state after an attempt: unchanged unless the attempt succeeded. */
  function After(st: State, r: ClaimOutcome): State {
    if r.Claimed? then r.next else st
  }

  /** The slot as it is after a successful booking by `userId`. */
  function Taken(s: Slot, userId: string): Slot {
    s.(isAvailable := false, bookedBy := Some(userId))
  }

  /**
   * `book(slot_id, user_id)`: check existence, then availability, then take a
   * fresh booking number, flip the slot and file the booking.
   */
  function Claim(st: State, slotId: string, userId: string): (r: ClaimOutcome)
    ensures r.SlotNotFound? <==> !HasSlot(st, slotId)
    ensures !r.Claimed? ==> r.slotId == slotId
    ensures r.SlotNotAvailable? ==>
      exists i :: 0 <= i < |st.slots| && st.slots[i].slotId == slotId && !st.slots[i].isAvailable
    ensures r.Claimed? ==>
      exists i :: (
        && 0 <= i < |st.slots| && st.slots[i].slotId == slotId
        && st.slots[i].isAvailable
        && r.next.slots == st.slots[i := Taken(st.slots[i], userId)]
        && r.booking == Booking(BookingIdFor(st.counter + 1), slotId, userId,
                                st.slots[i].court, st.slots[i].date, st.slots[i].time, Confirmed))
    ensures r.Claimed? ==>
      && r.next.counter == st.counter + 1
      && r.next.bookings == st.bookings[r.booking.bookingId := r.booking]
  {
    match IndexOf(st.slots, slotId)
    case None => SlotNotFound(slotId)
    case Some(i) =>
      var slot := st.slots[i];
      if !slot.isAvailable then SlotNotAvailable(slotId)
      else
        var n := st.counter + 1;
        var booking := Booking(BookingIdFor(n), slotId, userId, slot.court, slot.date, slot.time, Confirmed);
        Claimed(booking, State(st.slots[i := Taken(slot, userId)], st.bookings[booking.bookingId := booking], n))
  }

  /** A successful booking took the slot the lookup found, and only that slot. */
  lemma ClaimedAt(st: State, slotId: string, userId: string) returns (i: nat)
    requires Claim(st, slotId, userId).Claimed?
    ensures IndexOf(st.slots, slotId) == Some(i) && i < |st.slots| && st.slots[i].isAvailable
    ensures var r := Claim(st, slotId, userId);
      && r.next == State(st.slots[i := Taken(st.slots[i], userId)], r.next.bookings, st.counter + 1)
      && r.booking.slotId == slotId && r.booking.userId == userId
      && r.booking.court == st.slots[i].court && r.booking.date == st.slots[i].date
      && r.booking.time == st.slots[i].time
  {
    i := IndexOf(st.slots, slotId).value;
  }

  /** The next counter value names a booking that does not exist yet. */
  lemma FreshBookingId(st: State)
    requires Valid(st)
    ensures BookingIdFor(st.counter + 1) !in st.bookings
  {
    if BookingIdFor(st.counter + 1) in st.bookings {
      var n: nat :| 1 <= n <= st.counter && BookingIdFor(st.counter + 1) == BookingIdFor(n);
      BookingIdInjective(n, st.counter + 1);
    }
  }

  /** Taking a slot changes no id, so uniqueness and every lookup survive it. */
  lemma TakenKeepsIds(slots: seq<Slot>, i: nat, userId: string)
    requires i < |slots| && UniqueIds(slots)
    ensures UniqueIds(slots[i := Taken(slots[i], userId)])
    ensures forall x :: IndexOf(slots[i := Taken(slots[i], userId)], x) == IndexOf(slots, x)
  {
    var next := slots[i := Taken(slots[i], userId)];
    forall p, q | 0 <= p < q < |next| ensures next[p].slotId != next[q].slotId {
      assert next[p].slotId == slots[p].slotId && next[q].slotId == slots[q].slotId;
    }
    forall x ensures IndexOf(next, x) == IndexOf(slots, x) {
      IndexOfSameIds(next, slots, x);
    }
  }

  /** In a consistent store no booking refers to a slot that is still available. */
  lemma FreeSlotUnbooked(st: State, i: nat)
    requires Valid(st) && i < |st.slots| && st.slots[i].isAvailable
    ensures forall id | id in st.bookings :: st.bookings[id].slotId != st.slots[i].slotId
  {
    forall id | id in st.bookings ensures st.bookings[id].slotId != st.slots[i].slotId {
      assert Backed(st, st.bookings[id]);
      if st.bookings[id].slotId == st.slots[i].slotId {
        IndexOfUnique(st.slots, i);
      }
    }
  }

  /** Booking keeps the store consistent; the new id was never used before. */
  lemma ClaimPreservesValid(st: State, slotId: string, userId: string)
    requires Valid(st)
    ensures Valid(After(st, Claim(st, slotId, userId)))
    ensures Claim(st, slotId, userId).Claimed? ==> Claim(st, slotId, userId).booking.bookingId !in st.bookings
  {
    var r := Claim(st, slotId, userId);
    if r.Claimed? {
      var i := ClaimedAt(st, slotId, userId);
      var next, b := r.next, r.booking;
      FreshBookingId(st);
      TakenKeepsIds(st.slots, i, userId);
      FreeSlotUnbooked(st, i);
      IndexOfUnique(next.slots, i);
      assert Backed(next, b);
      forall id | id in next.bookings ensures id in IssuedIds(next.counter) {
        if id != b.bookingId {
          var n: nat :| 1 <= n <= st.counter && id == BookingIdFor(n);
        }
      }
      forall id | id in next.bookings && id != b.bookingId ensures Backed(next, next.bookings[id]) {
        assert Backed(st, st.bookings[id]);
      }
    }
  }

  /** Any slot the availability query lists can be booked at once, with its own details. */
  lemma ClaimListedSlot(st: State, date: string, time: Option<string>, k: nat, userId: string)
    requires UniqueIds(st.slots) && k < |CheckAvailability(st, date, time)|
    ensures var s := CheckAvailability(st, date, time)[k];
      && Claim(st, s.slotId, userId).Claimed?
      && Claim(st, s.slotId, userId).booking
         == Booking(BookingIdFor(st.counter + 1), s.slotId, userId, s.court, s.date, s.time, Confirmed)
  {
    var s := CheckAvailability(st, date, time)[k];
    assert s in st.slots && Matches(s, date, time);
    var i :| 0 <= i < |st.slots| && st.slots[i] == s;
    IndexOfUnique(st.slots, i);
  }

  /** A slot that was just booked cannot be booked again, by anyone. */
  lemma ClaimTwiceFails(st: State, slotId: string, userId: string, otherUser: string)
    requires Valid(st) && Claim(st, slotId, userId).Claimed?
    ensures Claim(Claim(st, slotId, userId).next, slotId, otherUser) == SlotNotAvailable(slotId)
  {
    var r := Claim(st, slotId, userId);
    var i :| 0 <= i < |st.slots| && st.slots[i].slotId == slotId && st.slots[i].isAvailable
      && r.next.slots == st.slots[i := Taken(st.slots[i], userId)];
    IndexOfSameIds(r.next.slots, st.slots, slotId);
    IndexOfUnique(st.slots, i);
  }

  // ---------------------------------------------------------------------
  // get_booking
  // ---------------------------------------------------------------------

  /** The dictionary `get_booking` returns. */
  datatype BookingView = BookingView(
    bookingId: string, court: string, date: string, time: string, userId: string, status: string)

  /** `get_booking(booking_id)`: the filed booking, or `None` for an unknown id. */
  function GetBooking(st: State, bookingId: string): (r: Option<BookingView>)
    ensures r.None? <==> bookingId !in st.bookings
  {
    if bookingId !in st.bookings then None
    else
      var b := st.bookings[bookingId];
      Some(BookingView(b.bookingId, b.court, b.date, b.time, b.userId, b.status))
  }

  /** After a successful booking, looking it up returns the claimed slot's details and the user. */
  lemma ClaimThenGetBooking(st: State, slotId: string, userId: string)
    requires Claim(st, slotId, userId).Claimed?
    ensures var r := Claim(st, slotId, userId);
      exists i :: 0 <= i < |st.slots| && st.slots[i].slotId == slotId
        && GetBooking(r.next, r.booking.bookingId)
           == Some(BookingView(r.booking.bookingId, st.slots[i].court, st.slots[i].date, st.slots[i].time,
                               userId, Confirmed))
  {
  }

  // ---------------------------------------------------------------------
  // Many bookings in sequence
  // ---------------------------------------------------------------------

  /** A run of booking requests `(slot id, user id)` applied one after another. */
  function ClaimEach(st: State, requests: seq<(string, string)>): (r: (seq<ClaimOutcome>, State))
    ensures |r.0| == |requests|
    decreases |requests|
  {
    if |requests| == 0 then ([], st)
    else
      var first := Claim(st, requests[0].0, requests[0].1);
      var rest := ClaimEach(After(st, first), requests[1..]);
      ([first] + rest.0, rest.1)
  }

  /** Every success in a run draws a counter value above the starting one. */
  lemma {:induction false} ClaimEachCounters(st: State, requests: seq<(string, string)>)
    ensures var (outcomes, last) := ClaimEach(st, requests);
      && last.counter >= st.counter
      && (forall k :: 0 <= k < |outcomes| && outcomes[k].Claimed? ==>
            && st.counter < outcomes[k].next.counter <= last.counter
            && outcomes[k].booking.bookingId == BookingIdFor(outcomes[k].next.counter))
      && (forall k, l :: 0 <= k < l < |outcomes| && outcomes[k].Claimed? && outcomes[l].Claimed? ==>
            outcomes[k].next.counter < outcomes[l].next.counter)
    decreases |requests|
  {
    if |requests| > 0 {
      var first := Claim(st, requests[0].0, requests[0].1);
      ClaimEachCounters(After(st, first), requests[1..]);
    }
  }

  /** A slot that is already taken stays taken: no request in a run can book it. */
  lemma {:induction false} ClaimEachNeverRetakes(st: State, requests: seq<(string, string)>, i: nat)
    requires Valid(st) && i < |st.slots| && !st.slots[i].isAvailable
    ensures var (outcomes, last) := ClaimEach(st, requests);
      && Valid(last) && |last.slots| == |st.slots|
      && last.slots[i].slotId == st.slots[i].slotId && !last.slots[i].isAvailable
      && forall k :: 0 <= k < |outcomes| && outcomes[k].Claimed? ==>
           outcomes[k].booking.slotId != st.slots[i].slotId
    decreases |requests|
  {
    if |requests| > 0 {
      var first := Claim(st, requests[0].0, requests[0].1);
      var mid := After(st, first);
      ClaimPreservesValid(st, requests[0].0, requests[0].1);
      IndexOfUnique(st.slots, i);
      if first.Claimed? {
        var j := ClaimedAt(st, requests[0].0, requests[0].1);
      }
      ClaimEachNeverRetakes(mid, requests[1..], i);
    }
  }

  /**
   * Exclusivity: in any run of requests against a consistent store, no slot
   * is booked twice and booking ids are pairwise distinct and increasing.
   */
  lemma {:induction false} ClaimEachExclusive(st: State, requests: seq<(string, string)>)
    requires Valid(st)
    ensures var (outcomes, last) := ClaimEach(st, requests);
      && Valid(last)
      && forall k, l :: 0 <= k < l < |outcomes| && outcomes[k].Claimed? && outcomes[l].Claimed? ==>
           && outcomes[k].booking.slotId != outcomes[l].booking.slotId
           && outcomes[k].booking.bookingId != outcomes[l].booking.bookingId
           && BookingNumber(outcomes[k].booking.bookingId).Some?
           && BookingNumber(outcomes[l].booking.bookingId).Some?
           && BookingNumber(outcomes[k].booking.bookingId).value < BookingNumber(outcomes[l].booking.bookingId).value
    decreases |requests|
  {
    ClaimEachSlotsDistinct(st, requests);
    ClaimEachIdsIncrease(st, requests);
  }

  /** In a run, later successes carry larger booking numbers. */
  lemma ClaimEachIdsIncrease(st: State, requests: seq<(string, string)>)
    ensures var outcomes := ClaimEach(st, requests).0;
      forall k, l :: 0 <= k < l < |outcomes| && outcomes[k].Claimed? && outcomes[l].Claimed? ==>
        && BookingNumber(outcomes[k].booking.bookingId).Some?
        && BookingNumber(outcomes[l].booking.bookingId).Some?
        && BookingNumber(outcomes[k].booking.bookingId).value < BookingNumber(outcomes[l].booking.bookingId).value
        && outcomes[k].booking.bookingId != outcomes[l].booking.bookingId
  {
    var outcomes := ClaimEach(st, requests).0;
    ClaimEachCounters(st, requests);
    forall k, l | 0 <= k < l < |outcomes| && outcomes[k].Claimed? && outcomes[l].Claimed?
      ensures BookingNumber(outcomes[k].booking.bookingId).Some?
      ensures BookingNumber(outcomes[l].booking.bookingId).Some?
      ensures BookingNumber(outcomes[k].booking.bookingId).value < BookingNumber(outcomes[l].booking.bookingId).value
      ensures outcomes[k].booking.bookingId != outcomes[l].booking.bookingId
    {
      BookingIdRoundTrip(outcomes[k].next.counter);
      BookingIdRoundTrip(outcomes[l].next.counter);
    }
  }

  /** In a run against a consistent store, no two successes book the same slot. */
  lemma {:induction false} ClaimEachSlotsDistinct(st: State, requests: seq<(string, string)>)
    requires Valid(st)
    ensures var (outcomes, last) := ClaimEach(st, requests);
      && Valid(last)
      && forall k, l :: 0 <= k < l < |outcomes| && outcomes[k].Claimed? && outcomes[l].Claimed? ==>
           outcomes[k].booking.slotId != outcomes[l].booking.slotId
    decreases |requests|
  {
    if |requests| == 0 {
      return;
    }
    var outcomes := ClaimEach(st, requests).0;
    var first := Claim(st, requests[0].0, requests[0].1);
    var mid := After(st, first);
    ClaimPreservesValid(st, requests[0].0, requests[0].1);
    ClaimEachSlotsDistinct(mid, requests[1..]);
    var rest := ClaimEach(mid, requests[1..]).0;
    assert outcomes == [first] + rest;
    if first.Claimed? {
      var j := ClaimedAt(st, requests[0].0, requests[0].1);
      ClaimEachNeverRetakes(mid, requests[1..], j);
    }
    forall k, l | 0 <= k < l < |outcomes| && outcomes[k].Claimed? && outcomes[l].Claimed?
      ensures outcomes[k].booking.slotId != outcomes[l].booking.slotId
    {
      if k > 0 {
        assert rest[k - 1] == outcomes[k] && rest[l - 1] == outcomes[l];
      } else {
        assert rest[l - 1] == outcomes[l];
      }
    }
  }

  // ---------------------------------------------------------------------
  // The two calling conventions
  // ---------------------------------------------------------------------

  /** The dictionary that `book` in shared/booking_service.py returns. */
  datatype BookReply =
    | BookSucceeded(bookingId: string, court: string, date: string, time: string, message: string)
    | BookFailed(error: string)

  /** `book(slot_id, user_id)` as shared/booking_service.py implements it: a dictionary, never an exception. */
  function BookDict(st: State, slotId: string, userId: string): (r: (BookReply, State))
    ensures r.1 == After(st, Claim(st, slotId, userId))
    ensures Claim(st, slotId, userId).SlotNotFound? ==> r.0 == BookFailed("Slot " + slotId + " not found")
    ensures Claim(st, slotId, userId).SlotNotAvailable? ==> r.0 == BookFailed("Slot " + slotId + " is already booked")
    ensures Claim(st, slotId, userId).Claimed? ==>
      var b := Claim(st, slotId, userId).booking;
      r.0 == BookSucceeded(b.bookingId, b.court, b.date, b.time,
                           "Successfully booked " + b.court + " on " + b.date + " at " + b.time)
  {
    match Claim(st, slotId, userId)
    case SlotNotFound(id) => (BookFailed("Slot " + id + " not found"), st)
    case SlotNotAvailable(id) => (BookFailed("Slot " + id + " is already booked"), st)
    case Claimed(b, next) =>
      (BookSucceeded(b.bookingId, b.court, b.date, b.time,
                     "Successfully booked " + b.court + " on " + b.date + " at " + b.time), next)
  }

  /** The exceptions the object-returning store raises (`SlotNotFoundError`, `SlotNotAvailableError`). */
  datatype StoreError = SlotNotFoundError(slotId: string) | SlotNotAvailableError(slotId: string) {
    /** `str(e)`; the exception classes are not defined in shared/booking_service.py, so its dictionary texts stand in. */
    function Message(): string {
      match this
      case SlotNotFoundError(id) => "Slot " + id + " not found"
      case SlotNotAvailableError(id) => "Slot " + id + " is already booked"
    }
  }

  /** `book(slot_id)` in the convention most callers expect: a `Booking`, or an exception. */
  function BookObject(st: State, slotId: string, userId: string): (r: (Result<Booking, StoreError>, State))
    ensures r.1 == After(st, Claim(st, slotId, userId))
    ensures r.0.Ok? <==> Claim(st, slotId, userId).Claimed?
    ensures r.0.Ok? ==> r.0.value == Claim(st, slotId, userId).booking
    ensures Claim(st, slotId, userId).SlotNotFound? ==> r.0 == Err(SlotNotFoundError(slotId))
    ensures Claim(st, slotId, userId).SlotNotAvailable? ==> r.0 == Err(SlotNotAvailableError(slotId))
  {
    match Claim(st, slotId, userId)
    case SlotNotFound(id) => (Err(SlotNotFoundError(id)), st)
    case SlotNotAvailable(id) => (Err(SlotNotAvailableError(id)), st)
    case Claimed(b, next) => (Ok(b), next)
  }

  /** The two conventions report the same outcome and reach the same state. */
  lemma BookConventionsAgree(st: State, slotId: string, userId: string)
    ensures BookDict(st, slotId, userId).1 == BookObject(st, slotId, userId).1
    ensures BookDict(st, slotId, userId).0.BookSucceeded? <==> BookObject(st, slotId, userId).0.Ok?
    ensures BookObject(st, slotId, userId).0.Err? ==>
      BookDict(st, slotId, userId).0 == BookFailed(BookObject(st, slotId, userId).0.error.Message())
  {
  }
}
