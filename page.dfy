/** The pure helpers of the main page (app/page.tsx): the dashboard statistics, the search
    filter, pagination, the list updates applied after a successful create, update, delete
    or toggle response, and the stopwatch and timer formatters. Server responses are
    parameters: `None` when the request failed or did not answer `ok`. */
module Page {
  import opened Common
  import opened Text
  import opened ReminderModel

  // ---------------------------------------------------------------------------------------
  // Filtering
  // ---------------------------------------------------------------------------------------

  /** `rs.filter(p)`: the reminders satisfying `p`, in their order. */
  function Filter(rs: seq<Reminder>, p: Reminder -> bool): (r: seq<Reminder>)
    ensures |r| <= |rs|
    ensures forall i :: 0 <= i < |r| ==> p(r[i])
    ensures forall x :: x in r <==> x in rs && p(x)
  {
    if rs == [] then []
    else (if p(rs[0]) then [rs[0]] else []) + Filter(rs[1..], p)
  }

  /** Filtering keeps a list whose every element passes. */
  lemma {:induction false} FilterAll(rs: seq<Reminder>, p: Reminder -> bool)
    requires forall i :: 0 <= i < |rs| ==> p(rs[i])
    ensures Filter(rs, p) == rs
  {
    if rs != [] {
      FilterAll(rs[1..], p);
      assert [rs[0]] + rs[1..] == rs;
    }
  }

  /** A filter and its complement split the list. */
  lemma {:induction false} FilterSplit(rs: seq<Reminder>, p: Reminder -> bool, q: Reminder -> bool)
    requires forall x :: q(x) == !p(x)
    ensures |Filter(rs, p)| + |Filter(rs, q)| == |rs|
  {
    if rs != [] {
      FilterSplit(rs[1..], p, q);
    }
  }

  /** Filtering by a stronger test keeps no more. */
  lemma {:induction false} FilterWeaker(rs: seq<Reminder>, p: Reminder -> bool, q: Reminder -> bool)
    requires forall x :: p(x) ==> q(x)
    ensures |Filter(rs, p)| <= |Filter(rs, q)|
  {
    if rs != [] {
      FilterWeaker(rs[1..], p, q);
    }
  }

  // ---------------------------------------------------------------------------------------
  // Dashboard statistics
  // ---------------------------------------------------------------------------------------

  datatype Stats = Stats(total: nat, completed: nat, pending: nat, highPriority: nat)

  predicate IsCompleted(r: Reminder) { r.completed }
  predicate IsPending(r: Reminder) { !r.completed }
  predicate IsUrgent(r: Reminder) { r.priority == High && !r.completed }

  function DashboardStats(rs: seq<Reminder>): Stats {
    Stats(|rs|, |Filter(rs, IsCompleted)|, |Filter(rs, IsPending)|, |Filter(rs, IsUrgent)|)
  }

  /** Completed and pending reminders add up to the total; high-priority pending ones are a
      part of the pending ones. */
  lemma StatsPartition(rs: seq<Reminder>)
    ensures DashboardStats(rs).completed + DashboardStats(rs).pending == DashboardStats(rs).total
    ensures DashboardStats(rs).highPriority <= DashboardStats(rs).pending
  {
    FilterSplit(rs, IsCompleted, IsPending);
    FilterWeaker(rs, IsUrgent, IsPending);
  }

  // ---------------------------------------------------------------------------------------
  // Search
  // ---------------------------------------------------------------------------------------

  /** The lower-cased title or description contains the lower-cased term. */
  predicate Matches(r: Reminder, term: string) {
    Contains(ToLower(r.title), ToLower(term)) || Contains(ToLower(r.description.GetOr("")), ToLower(term))
  }

  /** `filteredReminders`. */
  function Search(rs: seq<Reminder>, term: string): (r: seq<Reminder>)
    ensures forall x :: x in r <==> x in rs && Matches(x, term)
    ensures |r| <= |rs|
  {
    Filter(rs, x => Matches(x, term))
  }

  /** An empty search term keeps the whole list, in order. */
  lemma EmptySearch(rs: seq<Reminder>)
    ensures Search(rs, "") == rs
  {
    forall i | 0 <= i < |rs| ensures Matches(rs[i], "") {
      EmptyContained(ToLower(rs[i].title));
    }
    FilterAll(rs, x => Matches(x, ""));
  }

  // ---------------------------------------------------------------------------------------
  // Pagination
  // ---------------------------------------------------------------------------------------

  const ItemsPerPage: nat := 8

  /** `Math.ceil(n / itemsPerPage)`. */
  function TotalPages(n: nat): (t: nat)
    ensures t * ItemsPerPage >= n
    ensures t > 0 ==> (t - 1) * ItemsPerPage < n
  {
    (n + ItemsPerPage - 1) / ItemsPerPage
  }

  /** `Array.prototype.slice(start, end)`: negative positions count from the end, and every
      position is clamped to the list. */
  function Slice<T>(s: seq<T>, start: int, end: int): (r: seq<T>)
    ensures |r| <= |s|
  {
    var from := if start < 0 then Max0(|s| + start) else MinNat(start, |s|);
    var to := if end < 0 then Max0(|s| + end) else MinNat(end, |s|);
    if from < to then s[from..to] else []
  }

  function Max0(x: int): nat { if x < 0 then 0 else x }
  function MinNat(a: nat, b: nat): nat { if a <= b then a else b }

  /** `currentReminders` on page `currentPage`. */
  function CurrentPage(filtered: seq<Reminder>, currentPage: int): seq<Reminder> {
    var startIndex := (currentPage - 1) * ItemsPerPage;
    Slice(filtered, startIndex, startIndex + ItemsPerPage)
  }

  /** A page never holds more than eight reminders; a page in range holds at least one. */
  lemma PageSize(filtered: seq<Reminder>, page: int)
    ensures |CurrentPage(filtered, page)| <= ItemsPerPage
    ensures 1 <= page <= TotalPages(|filtered|) ==> CurrentPage(filtered, page) != []
  {}

  /** Reminder `i` of the filtered list is item `i % 8` of page `i / 8 + 1`. */
  lemma PageOfIndex(filtered: seq<Reminder>, i: nat)
    requires i < |filtered|
    ensures 1 <= i / ItemsPerPage + 1 <= TotalPages(|filtered|)
    ensures i % ItemsPerPage < |CurrentPage(filtered, i / ItemsPerPage + 1)|
    ensures CurrentPage(filtered, i / ItemsPerPage + 1)[i % ItemsPerPage] == filtered[i]
  {
    var start := (i / ItemsPerPage) * ItemsPerPage;
    assert start + i % ItemsPerPage == i;
  }

  /** A page past the last one (left over after the search narrowed the list) is empty. */
  lemma StalePageEmpty(filtered: seq<Reminder>, page: int)
    requires page > TotalPages(|filtered|)
    ensures CurrentPage(filtered, page) == []
  {}

  /** `handlePageChange`: moves only to a page in [1, totalPages]. */
  function HandlePageChange(currentPage: int, page: int, totalPages: nat): (r: int)
    ensures 1 <= page <= totalPages ==> r == page
    ensures !(1 <= page <= totalPages) ==> r == currentPage
  {
    if page >= 1 && page <= totalPages then page else currentPage
  }

  /** Page changes keep the current page in range once it is in range. */
  lemma PageChangeInRange(currentPage: int, page: int, totalPages: nat)
    requires 1 <= currentPage <= totalPages
    ensures 1 <= HandlePageChange(currentPage, page, totalPages) <= totalPages
  {}

  // ---------------------------------------------------------------------------------------
  // List updates after a successful response
  // ---------------------------------------------------------------------------------------

  /** `reminders.map(r => r._id === id ? replacement : r)`. An absent `_id` equals an absent
      `_id`, as `undefined === undefined` does. */
  function ReplaceById(rs: seq<Reminder>, id: Option<string>, replacement: Reminder): (r: seq<Reminder>)
    ensures |r| == |rs|
    ensures forall i :: 0 <= i < |rs| ==> r[i] == (if rs[i].id == id then replacement else rs[i])
  {
    seq(|rs|, i requires 0 <= i < |rs| => if rs[i].id == id then replacement else rs[i])
  }

  /** Update (PUT): the answered record replaces every reminder with its `_id`. */
  function AfterUpdate(rs: seq<Reminder>, answer: Option<Reminder>): seq<Reminder> {
    match answer
    case None => rs
    case Some(updated) => ReplaceById(rs, updated.id, updated)
  }

  /** Create (POST): the answered record goes first. */
  function AfterCreate(rs: seq<Reminder>, answer: Option<Reminder>): seq<Reminder> {
    match answer
    case None => rs
    case Some(created) => [created] + rs
  }

  /** Delete: every reminder with that `_id` goes. */
  function AfterDelete(rs: seq<Reminder>, id: string, ok: bool): seq<Reminder> {
    if ok then Filter(rs, (r: Reminder) => r.id != Some(id)) else rs
  }

  /** Toggle: the value of `completed` sent, or `None` (no request at all) when no reminder
      has that `_id`. */
  function ToggleRequest(rs: seq<Reminder>, id: string): (r: Option<bool>)
    ensures r.None? <==> forall i :: 0 <= i < |rs| ==> rs[i].id != Some(id)
    ensures r.Some? ==> exists i :: (0 <= i < |rs| && rs[i].id == Some(id) && r.value == !rs[i].completed
      && forall j :: 0 <= j < i ==> rs[j].id != Some(id))
  {
    if rs == [] then None
    else if rs[0].id == Some(id) then Some(!rs[0].completed)
    else
      var r := ToggleRequest(rs[1..], id);
      assert forall j :: 1 <= j < |rs| ==> rs[j] == rs[1..][j - 1];
      r
  }

  /** Toggle: the answered record replaces the reminders with the requested `_id`. */
  function AfterToggle(rs: seq<Reminder>, id: string, answer: Option<Reminder>): seq<Reminder> {
    if ToggleRequest(rs, id).None? then rs
    else match answer
      case None => rs
      case Some(toggled) => ReplaceById(rs, Some(id), toggled)
  }

  /** Updating and toggling keep the length and the order; only matching entries change. */
  lemma UpdateKeepsOthers(rs: seq<Reminder>, answer: Option<Reminder>, i: nat)
    requires i < |rs|
    ensures |AfterUpdate(rs, answer)| == |rs|
    ensures answer.None? || rs[i].id != answer.value.id ==> AfterUpdate(rs, answer)[i] == rs[i]
    ensures answer.Some? && rs[i].id == answer.value.id ==> AfterUpdate(rs, answer)[i] == answer.value
  {}

  lemma ToggleKeepsOthers(rs: seq<Reminder>, id: string, answer: Option<Reminder>, i: nat)
    requires i < |rs|
    ensures |AfterToggle(rs, id, answer)| == |rs|
    ensures rs[i].id != Some(id) ==> AfterToggle(rs, id, answer)[i] == rs[i]
    ensures answer.Some? && rs[i].id == Some(id) ==> AfterToggle(rs, id, answer)[i] == answer.value
  {}

  /** Deleting removes exactly the reminders with that `_id` and keeps the rest. */
  lemma DeleteRemovesId(rs: seq<Reminder>, id: string)
    ensures forall x :: x in AfterDelete(rs, id, true) <==> x in rs && x.id != Some(id)
    ensures |AfterDelete(rs, id, true)| <= |rs|
  {}

  /** Creating prepends: the new record is first and the old list follows unchanged. */
  lemma CreatePrepends(rs: seq<Reminder>, created: Reminder)
    ensures AfterCreate(rs, Some(created))[0] == created
    ensures AfterCreate(rs, Some(created))[1..] == rs
  {}

  // ---------------------------------------------------------------------------------------
  // Formatters
  // ---------------------------------------------------------------------------------------

  /** `n.toString().padStart(2, '0')`. */
  function TwoDigits(n: nat): string { Pad2(NatToString(n)) }

  /** `formatStopwatchTime(time)` for a stopwatch value in milliseconds:
      minutes, then seconds and centiseconds of the current minute, `MM:SS.CC`. */
  function FormatStopwatchTime(time: nat): (r: string)
    ensures |r| >= 8 && r[|r| - 3] == '.' && r[|r| - 6] == ':'
  {
    var minutes := time / 60000;
    var seconds := (time % 60000) / 1000;
    var centiseconds := (time % 1000) / 10;
    Pad2Value(seconds);
    Pad2Value(centiseconds);
    TwoDigits(minutes) + ":" + TwoDigits(seconds) + "." + TwoDigits(centiseconds)
  }

  /** `x % m` in JavaScript: the remainder takes the sign of `x` (`-0` prints as `0`). */
  function JsRem(x: int, m: nat): int
    requires m > 0
  {
    if x >= 0 then x % m else -((-x) % m)
  }

  /** `String(n).padStart(2, '0')` for any integer. */
  function PadInt(i: int): string { Pad2(IntToString(i)) }

  /** `formatTimerTime(time)` for a timer value in seconds, `None` being NaN (an unparsable
      minutes entry). `Math.floor(time / 60)` is Dafny's division, which floors for a
      positive divisor. */
  function FormatTimerTime(time: Option<int>): (r: string)
    ensures time.Some? && time.value >= 0 ==> |r| >= 5 && r[|r| - 3] == ':'
  {
    match time
    case None => "NaN:NaN"
    case Some(t) =>
      Pad2Value(t % 60);
      PadInt(t / 60) + ":" + PadInt(JsRem(t, 60))
  }

  /** The three fields of the stopwatch display recompose the time, up to the last 10 ms. */
  lemma StopwatchFields(time: nat)
    ensures var m, s, c := time / 60000, (time % 60000) / 1000, (time % 1000) / 10;
      s < 60 && c < 100 && m * 60000 + s * 1000 + c * 10 + time % 10 == time
  {
    var m, r1 := time / 60000, time % 60000;
    var s, r2 := r1 / 1000, r1 % 1000;
    var c, r3 := r2 / 10, r2 % 10;
    assert time == 1000 * (60 * m + s) + r2;
    DivModUnique(time, 1000, 60 * m + s, r2);
    assert time == 10 * (6000 * m + 100 * s + c) + r3;
    DivModUnique(time, 10, 6000 * m + 100 * s + c, r3);
  }

  /** The quotient and remainder are the only ones. */
  lemma DivModUnique(x: int, d: int, q: int, r: int)
    requires d > 0 && 0 <= r < d && x == q * d + r
    ensures x / d == q && x % d == r
  {
    var q', r' := x / d, x % d;
    assert q' * d + r' == x;
    if q' < q {
      MulAtLeast(q - q', d);
    } else if q' > q {
      MulAtLeast(q' - q, d);
    }
  }

  lemma {:induction false} MulAtLeast(k: int, d: int)
    requires k >= 1 && d > 0
    ensures k * d >= d
  {
    if k > 1 {
      MulAtLeast(k - 1, d);
      assert k * d == (k - 1) * d + d;
    }
  }

  /** How a `TwoDigits` field reads back. */
  lemma TwoDigitsValue(n: nat)
    requires n < 100
    ensures |TwoDigits(n)| == 2 && AllDigits(TwoDigits(n)) && DigitsValue(TwoDigits(n)) == n
  {
    Pad2Value(n);
  }

  /** Reading the stopwatch display back: minutes before the `:`, two digits of seconds,
      a `.`, two digits of centiseconds, each denoting its field. */
  lemma StopwatchReadBack(time: nat)
    ensures var r := FormatStopwatchTime(time); var n := |r|;
      n >= 8 && r[n - 3] == '.' && r[n - 6] == ':'
      && AllDigits(r[..n - 6]) && DigitsValue(r[..n - 6]) == time / 60000
      && AllDigits(r[n - 5..n - 3]) && DigitsValue(r[n - 5..n - 3]) == (time % 60000) / 1000
      && AllDigits(r[n - 2..]) && DigitsValue(r[n - 2..]) == (time % 1000) / 10
  {
    var a, b, c := TwoDigits(time / 60000), TwoDigits((time % 60000) / 1000), TwoDigits((time % 1000) / 10);
    Pad2Value(time / 60000);
    TwoDigitsValue((time % 60000) / 1000);
    TwoDigitsValue((time % 1000) / 10);
    var r := a + ":" + b + "." + c;
    assert r[..|r| - 6] == a;
    assert r[|r| - 5..|r| - 3] == b;
    assert r[|r| - 2..] == c;
  }

  /** Reading a non-negative timer display back: minutes before the `:`, then two digits of
      seconds, and the two recompose the value. */
  lemma TimerReadBack(time: nat)
    ensures var r := FormatTimerTime(Some(time)); var n := |r|;
      n >= 5 && r[n - 3] == ':'
      && AllDigits(r[..n - 3]) && DigitsValue(r[..n - 3]) == time / 60
      && AllDigits(r[n - 2..]) && DigitsValue(r[n - 2..]) == time % 60
      && (time / 60) * 60 + time % 60 == time
  {
    var a, b := TwoDigits(time / 60), TwoDigits(time % 60);
    Pad2Value(time / 60);
    TwoDigitsValue(time % 60);
    assert PadInt(time / 60) == a && PadInt(JsRem(time, 60)) == b;
    var r := a + ":" + b;
    assert r[..|r| - 3] == a;
    assert r[|r| - 2..] == b;
  }

  /** A negative timer (a negative minutes entry) shows the floored minute count and a seconds
      field that carries the sign of the value. */
  lemma NegativeTimer()
    ensures FormatTimerTime(Some(-300)) == "-5:00"
    ensures FormatTimerTime(Some(-90)) == "-2:-30"
  {
    assert JsRem(-300, 60) == 0;
    assert -300 / 60 == -5;
    assert -90 / 60 == -2;
    assert JsRem(-90, 60) == -30;
    assert IntToString(-5) == "-5";
    assert IntToString(0) == "0";
    assert IntToString(-2) == "-2";
    assert IntToString(-30) == "-30";
  }
}
