/**
 * The member's studio page (frontend/src/components/dashboard/UserDashboard.tsx):
 * statistics and three tabs computed from the member's bookings by filters
 * and sorts. Clock readings are parameters: `now` is the current instant,
 * `parse` turns an ISO text into an instant (date-fns `parseISO(...).getTime()`),
 * and `monthOf` gives the calendar month an instant falls in.
 */
module UserDashboard {
  import opened Wrappers
  import opened Strings
  import opened Ordering

  /** One entry of `GET /reservations/my` as the page reads it. */
  datatype Booking = Booking(id: string, createdAt: string, status: string, courtName: string,
                             date: string, startTime: string, endTime: string, totalAmount: int)

  /** `getScheduleDate`'s text: the date part before the first 'T', a 'T', then the start time. */
  function ScheduleDateText(dateStr: string, timeStr: string): string {
    BeforeFirst(dateStr, 'T') + "T" + timeStr
  }

  /** A date sent as "YYYY-MM-DDT00:00:00Z" keeps only its day: the session starts at that day's start time. */
  lemma ScheduleDateJoinsDayAndTime(day: string, rest: string, timeStr: string)
    requires 'T' !in day
    ensures ScheduleDateText(day + "T" + rest, timeStr) == day + "T" + timeStr
  {
    BeforeFirstOfJoin(day, 'T', rest);
  }

  /** The instant a booked session starts. */
  function Start(b: Booking, parse: string -> int): int {
    parse(ScheduleDateText(b.date, b.startTime))
  }

  /** `b.status === "paid" || b.status === "confirmed"`: a session the member has paid for. */
  predicate IsPaid(b: Booking) {
    b.status == "paid" || b.status == "confirmed"
  }

  /** Selecting in two passes is selecting once by both conditions. */
  lemma {:induction false} FilterTwice<T(!new)>(s: seq<T>, p: T -> bool, q: T -> bool, both: T -> bool)
    requires forall x :: both(x) == (p(x) && q(x))
    ensures Filter(Filter(s, p), q) == Filter(s, both)
  {
    if s != [] {
      FilterTwice(s[..|s| - 1], p, q, both);
    }
  }

  /** The sort key of the start-time sorts. */
  function StartKey(parse: string -> int): Booking -> int {
    b => Start(b, parse)
  }

  /** The reversed key: sorting ascending by it sorts by start, latest first. */
  function LatestFirstKey(parse: string -> int): Booking -> int {
    b => -Start(b, parse)
  }

  /** date-fns `isFuture` of the session start. */
  function StartsLater(now: int, parse: string -> int): Booking -> bool {
    b => Start(b, parse) > now
  }

  /** Paid and starting after `now`: the upcoming tab's condition. */
  function PaidAndLater(now: int, parse: string -> int): Booking -> bool {
    b => IsPaid(b) && Start(b, parse) > now
  }

  /** The history tab's condition. */
  function InHistory(now: int, parse: string -> int): Booking -> bool {
    b => IsHistory(b, now, parse)
  }

  // ---------------------------------------------------------------- stats

  datatype Stats = Stats(totalSessions: nat, thisMonthSessions: nat, nextSession: Option<Booking>, workoutDates: seq<string>)

  /** The paid sessions starting after `now`, earliest first: the `upcoming` list of the stats. */
  function UpcomingPaid(bookings: seq<Booking>, now: int, parse: string -> int): seq<Booking> {
    SortByKey(Filter(Filter(bookings, IsPaid), StartsLater(now, parse)), StartKey(parse))
  }

  /** The `stats` memo. */
  function DashboardStats(bookings: seq<Booking>, now: int, parse: string -> int, monthOf: int -> int): (st: Stats)
    ensures st.thisMonthSessions <= st.totalSessions <= |bookings|
    ensures st.totalSessions == |Filter(bookings, IsPaid)|
    ensures |st.workoutDates| == st.totalSessions
  {
    var paid := Filter(bookings, IsPaid);
    var upcoming := UpcomingPaid(bookings, now, parse);
    Stats(|paid|,
          |Filter(paid, (b: Booking) => monthOf(parse(b.date)) == monthOf(now))|,
          if |upcoming| > 0 then Some(upcoming[0]) else None,
          seq(|paid|, i requires 0 <= i < |paid| => paid[i].date))
  }

  /**
   * The next session is the paid booking that starts soonest after `now`,
   * and there is one exactly when some paid booking starts after `now`.
   */
  lemma NextSessionIsEarliest(bookings: seq<Booking>, now: int, parse: string -> int, monthOf: int -> int)
    ensures var next := DashboardStats(bookings, now, parse, monthOf).nextSession;
      (next.Some? <==> exists b :: b in bookings && IsPaid(b) && Start(b, parse) > now)
      && (next.Some? ==>
            next.value in bookings && IsPaid(next.value) && Start(next.value, parse) > now
            && forall b :: b in bookings && IsPaid(b) && Start(b, parse) > now ==> Start(next.value, parse) <= Start(b, parse))
  {
    var chosen := Filter(Filter(bookings, IsPaid), StartsLater(now, parse));
    var upcoming := UpcomingPaid(bookings, now, parse);
    SortedHeadIsLeast(upcoming, chosen, StartKey(parse));
    assert forall b :: b in chosen <==> b in bookings && IsPaid(b) && Start(b, parse) > now;
  }

  /** The head of a sorted arrangement of `chosen` is a least element of `chosen`. */
  lemma SortedHeadIsLeast<T>(sorted: seq<T>, chosen: seq<T>, key: T -> int)
    requires SortedByKey(sorted, key) && multiset(sorted) == multiset(chosen)
    ensures |sorted| > 0 <==> |chosen| > 0
    ensures |sorted| > 0 ==> sorted[0] in chosen && forall x :: x in chosen ==> key(sorted[0]) <= key(x)
  {
    assert |sorted| == |multiset(sorted)| == |multiset(chosen)| == |chosen|;
    if |sorted| > 0 {
      assert sorted[0] in multiset(chosen);
      forall x | x in chosen ensures key(sorted[0]) <= key(x) {
        assert x in multiset(sorted);
        var j :| 0 <= j < |sorted| && sorted[j] == x;
        assert j == 0 || key(sorted[0]) <= key(sorted[j]);
      }
    }
  }

  // ---------------------------------------------------------------- tabs

  datatype Tab = PendingTab | UpcomingTab | HistoryTab

  predicate IsPending(b: Booking) {
    b.status == "pending"
  }

  /** Started before `now`, or cancelled or failed: what the history tab shows. */
  predicate IsHistory(b: Booking, now: int, parse: string -> int) {
    Start(b, parse) < now || b.status == "cancelled" || b.status == "failed"
  }

  /** `filteredBookings` for the active tab. */
  function TabList(bookings: seq<Booking>, tab: Tab, now: int, parse: string -> int): seq<Booking> {
    match tab
    case PendingTab => Filter(bookings, IsPending)
    case UpcomingTab => SortByKey(Filter(bookings, PaidAndLater(now, parse)), StartKey(parse))
    case HistoryTab => SortByKey(Filter(bookings, InHistory(now, parse)), LatestFirstKey(parse))
  }

  /** The "Awaiting Payment (n)" label counts the pending bookings: n is the length of the pending tab. */
  function PendingCount(bookings: seq<Booking>): (n: nat)
    ensures n == |TabList(bookings, PendingTab, 0, _ => 0)|
    ensures n <= |bookings|
  {
    |Filter(bookings, IsPending)|
  }

  /**
   * The pending tab lists the pending bookings in the order received: the
   * k-th entry is the booking at the k-th pending position.
   */
  lemma PendingTabContents(bookings: seq<Booking>, now: int, parse: string -> int)
    ensures var l := TabList(bookings, PendingTab, now, parse);
      (forall b :: b in l <==> b in bookings && IsPending(b))
      && multiset(l) <= multiset(bookings)
      && |l| == PendingCount(bookings)
    ensures var l := TabList(bookings, PendingTab, now, parse);
      var at := KeptPositions(bookings, IsPending);
      |l| == |at| && forall k :: 0 <= k < |l| ==> l[k] == bookings[at[k]]
  {
    FilterKeepsOrder(bookings, IsPending);
  }

  /** The upcoming tab lists the paid bookings that start after `now`, earliest first. */
  lemma UpcomingTabContents(bookings: seq<Booking>, now: int, parse: string -> int)
    ensures var l := TabList(bookings, UpcomingTab, now, parse);
      (forall b :: b in l <==> b in bookings && IsPaid(b) && Start(b, parse) > now)
      && (forall i, j :: 0 <= i < j < |l| ==> Start(l[i], parse) <= Start(l[j], parse))
      && l == UpcomingPaid(bookings, now, parse)
  {
    var l := TabList(bookings, UpcomingTab, now, parse);
    var chosen := Filter(bookings, PaidAndLater(now, parse));
    assert multiset(l) == multiset(chosen);
    forall b ensures b in l <==> b in chosen {
      assert b in l <==> b in multiset(l);
    }
    FilterTwice(bookings, IsPaid, StartsLater(now, parse), PaidAndLater(now, parse));
  }

  /** The history tab lists the past, cancelled and failed bookings, latest start first. */
  lemma HistoryTabContents(bookings: seq<Booking>, now: int, parse: string -> int)
    ensures var l := TabList(bookings, HistoryTab, now, parse);
      (forall b :: b in l <==> b in bookings && IsHistory(b, now, parse))
      && (forall i, j :: 0 <= i < j < |l| ==> Start(l[i], parse) >= Start(l[j], parse))
      && multiset(l) <= multiset(bookings)
  {
    var l := TabList(bookings, HistoryTab, now, parse);
    var chosen := Filter(bookings, InHistory(now, parse));
    assert multiset(l) == multiset(chosen);
    forall b ensures b in l <==> b in chosen {
      assert b in l <==> b in multiset(l);
    }
    assert SortedByKey(l, LatestFirstKey(parse));
  }

  /** The tabs overlap: a pending booking whose start has passed is both awaiting payment and history. */
  lemma PendingPastInTwoTabs(bookings: seq<Booking>, b: Booking, now: int, parse: string -> int)
    requires b in bookings && IsPending(b) && Start(b, parse) < now
    ensures b in TabList(bookings, PendingTab, now, parse)
    ensures b in TabList(bookings, HistoryTab, now, parse)
  {
    HistoryTabContents(bookings, now, parse);
  }

  /** The tabs do not cover every booking: a paid session starting at exactly `now` is in none of them. */
  lemma PaidStartingNowInNoTab(bookings: seq<Booking>, b: Booking, now: int, parse: string -> int)
    requires b in bookings && IsPaid(b) && Start(b, parse) == now
    ensures b !in TabList(bookings, PendingTab, now, parse)
    ensures b !in TabList(bookings, UpcomingTab, now, parse)
    ensures b !in TabList(bookings, HistoryTab, now, parse)
  {
    UpcomingTabContents(bookings, now, parse);
    HistoryTabContents(bookings, now, parse);
  }
}
