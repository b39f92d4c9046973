/** The due-reminder watcher of the main page (app/page.tsx). Every five seconds, and once when
    the reminder list changes, it walks the list and delivers each reminder whose due instant is
    within five seconds of now, unless its key is already in a ledger of fired keys. A key enters
    the ledger just before delivery and leaves it one minute later. Delivery itself (chime,
    vibration, speech, notification, alarm) is recorded as an entry of a log. */
module DueWatcher {
  import opened Common
  import opened Text
  import opened ReminderModel

  /** How far from its due instant a reminder may still fire, in milliseconds. */
  const Window: nat := 5000
  /** How long a fired key stays in the ledger, in milliseconds. */
  const Forget: nat := 60000

  /** `getDueDate`. `dueAt(date, hh, mm)` stands for `new Date(date)` followed by
      `setHours(hh, mm, 0, 0)`, in milliseconds, or `None` when the result is not a valid
      instant. Setting the clock fields of a local date (daylight-saving changes, out-of-range
      values carrying into neighbouring days) is the runtime's and is left to that function.
      The parts of `time` before and after the first ':' are read with `parseInt`; one that is
      not a number counts as 0, as `hh || 0` does. */
  function DueDate(r: Reminder, dueAt: (string, int, int) -> Option<int>): (d: Option<int>)
    ensures d.Some? ==>
      r.date.Some? && r.date.value != "" && r.time.Some? && r.time.value != "" &&
      d == dueAt(r.date.value, ClockOf(r.time.value).0, ClockOf(r.time.value).1)
  {
    if r.date.None? || r.date.value == "" || r.time.None? || r.time.value == "" then None
    else
      var clock := ClockOf(r.time.value);
      dueAt(r.date.value, clock.0, clock.1)
  }

  /** The hour and minute `getDueDate` reads: the parts of `time` before and after the first
      ':' through `parseInt`, 0 for a part that is missing or not a number. */
  function ClockOf(time: string): (int, int) {
    var parts := Split(time, ':');
    (ParseInt(parts[0]).GetOr(0), if |parts| > 1 then ParseInt(parts[1]).GetOr(0) else 0)
  }

  /** `getDueDate` as the page computes it: split and parse the time, then build the date
      and set its clock. */
  method GetDueDate(r: Reminder, dueAt: (string, int, int) -> Option<int>) returns (d: Option<int>)
    ensures d == DueDate(r, dueAt)
  {
    if r.date.None? || r.date.value == "" || r.time.None? || r.time.value == "" {
      return None;
    }
    var clock := ClockOf(r.time.value);
    d := dueAt(r.date.value, clock.0, clock.1);
  }

  /** There is no due instant exactly when a date or a time is missing or the date with its
      clock set is invalid: a garbled time never makes the due date disappear by itself. */
  lemma DueDateNone(r: Reminder, dueAt: (string, int, int) -> Option<int>)
    ensures DueDate(r, dueAt).None? <==>
      r.date.None? || r.date.value == "" || r.time.None? || r.time.value == "" ||
      dueAt(r.date.value, ClockOf(r.time.value).0, ClockOf(r.time.value).1).None?
  {}

  /** A time written as digits, a colon and digits reads as that hour and minute. */
  lemma ClockParts(hh: string, mm: string)
    requires hh != [] && AllDigits(hh) && mm != [] && AllDigits(mm)
    ensures ClockOf(hh + ":" + mm) == (DigitsValue(hh), DigitsValue(mm))
  {
    NoColonInDigits(hh);
    NoColonInDigits(mm);
    SplitTwo(hh, mm, ':');
    assert hh + ":" + mm == hh + [':'] + mm;
    ParseIntDigits(hh);
    ParseIntDigits(mm);
  }

  /** A reminder timed "hh:mm" in digits is due when its date's clock is set to that hour and
      minute. */
  lemma DueDateDigits(r: Reminder, hh: string, mm: string, dueAt: (string, int, int) -> Option<int>)
    requires r.date.Some? && r.date.value != ""
    requires hh != [] && AllDigits(hh) && mm != [] && AllDigits(mm) && r.time == Some(hh + ":" + mm)
    ensures DueDate(r, dueAt) == dueAt(r.date.value, DigitsValue(hh), DigitsValue(mm))
  {
    ClockParts(hh, mm);
  }

  lemma NoColonInDigits(s: string)
    requires AllDigits(s)
    ensures ':' !in s
  {
    forall k | 0 <= k < |s| ensures s[k] != ':' { assert IsDigit(s[k]); }
  }

  /** A time without a colon that does not start with a number sets the date's clock to
      00:00. */
  lemma GarbledTimeIsMidnight(r: Reminder, dueAt: (string, int, int) -> Option<int>)
    requires r.date.Some? && r.date.value != "" && r.time.Some? && r.time.value != ""
    requires ':' !in r.time.value && ParseInt(r.time.value).None?
    ensures DueDate(r, dueAt) == dueAt(r.date.value, 0, 0)
  {
    assert Split(r.time.value, ':') == [r.time.value];
    assert ClockOf(r.time.value) == (0, 0);
  }

  /** The ledger key `r._id || r.title`: the identifier unless it is absent or empty. */
  function Key(r: Reminder): string {
    if r.id.Some? && r.id.value != "" then r.id.value else r.title
  }

  /** `getDueDate` for a fixed date function, as a function of the reminder. */
  function DueOf(dueAt: (string, int, int) -> Option<int>): Reminder -> Option<int> {
    r => DueDate(r, dueAt)
  }

  /** Whether `r` is an open reminder whose due instant by `due` is within the window around
      `now`. */
  predicate InWindow(r: Reminder, now: int, due: Reminder -> Option<int>) {
    !r.completed && due(r).Some? && Abs(now - due(r).value) <= Window
  }

  /** A pending `setTimeout` that deletes `key` from the ledger at instant `at`. */
  datatype Eviction = Eviction(key: string, at: int)

  /** Everything the watcher keeps: the fired keys, the pending evictions and the deliveries. */
  datatype Ledger = Ledger(fired: set<string>, pending: seq<Eviction>, log: seq<Reminder>)

  function PendingKeys(p: seq<Eviction>): set<string> {
    set e | e in p :: e.key
  }

  predicate DistinctKeys(p: seq<Eviction>) {
    forall i, j :: 0 <= i < j < |p| ==> p[i].key != p[j].key
  }

  /** The ledger holds exactly the keys that still have an eviction pending, one each. */
  predicate Consistent(l: Ledger) {
    l.fired == PendingKeys(l.pending) && DistinctKeys(l.pending)
  }

  /** One reminder of a check at `now`. */
  function CheckOne(l: Ledger, r: Reminder, now: int, due: Reminder -> Option<int>): Ledger {
    if InWindow(r, now, due) && Key(r) !in l.fired then
      Ledger(l.fired + {Key(r)}, l.pending + [Eviction(Key(r), now + Forget)], l.log + [r])
    else l
  }

  /** `checkReminders` at `now` over the list, in list order. */
  function CheckAll(l: Ledger, rs: seq<Reminder>, now: int, due: Reminder -> Option<int>): (n: Ledger)
    decreases |rs|
    ensures |l.log| <= |n.log| <= |l.log| + |rs| && n.log[..|l.log|] == l.log
  {
    if rs == [] then l else CheckAll(CheckOne(l, rs[0], now, due), rs[1..], now, due)
  }

  /** The evictions a check schedules for the reminders it delivered, in delivery order. */
  function Schedule(delivered: seq<Reminder>, now: int): seq<Eviction>
    decreases |delivered|
  {
    if delivered == [] then []
    else [Eviction(Key(delivered[0]), now + Forget)] + Schedule(delivered[1..], now)
  }

  lemma CheckOneConsistent(l: Ledger, r: Reminder, now: int, due: Reminder -> Option<int>)
    requires Consistent(l)
    ensures Consistent(CheckOne(l, r, now, due))
  {
    if InWindow(r, now, due) && Key(r) !in l.fired {
      var e := Eviction(Key(r), now + Forget);
      var p := l.pending + [e];
      assert PendingKeys(p) == PendingKeys(l.pending) + {e.key} by {
        assert forall x :: x in p <==> x in l.pending || x == e;
      }
      forall i | 0 <= i < |l.pending| ensures l.pending[i].key != e.key {
        assert l.pending[i] in l.pending;
      }
    }
  }

  /** A check keeps the ledger consistent with its pending evictions. */
  lemma {:induction false} CheckConsistent(l: Ledger, rs: seq<Reminder>, now: int, due: Reminder -> Option<int>)
    requires Consistent(l)
    ensures Consistent(CheckAll(l, rs, now, due))
    decreases |rs|
  {
    if rs != [] {
      CheckOneConsistent(l, rs[0], now, due);
      CheckConsistent(CheckOne(l, rs[0], now, due), rs[1..], now, due);
    }
  }

  /** A check only appends to the log, and everything it delivers is an open reminder of the
      list, due within the window, whose key was not in the ledger; no two deliveries of one
      check share a key. */
  lemma {:induction false} CheckDelivers(l: Ledger, rs: seq<Reminder>, now: int, due: Reminder -> Option<int>)
    ensures var n := CheckAll(l, rs, now, due);
      |l.log| <= |n.log| && n.log[..|l.log|] == l.log &&
      (forall k :: |l.log| <= k < |n.log| ==>
        n.log[k] in rs && InWindow(n.log[k], now, due) && Key(n.log[k]) !in l.fired) &&
      (forall j, k :: |l.log| <= j < k < |n.log| ==> Key(n.log[j]) != Key(n.log[k]))
    decreases |rs|
  {
    if rs != [] {
      var l' := CheckOne(l, rs[0], now, due);
      CheckDelivers(l', rs[1..], now, due);
      CheckFiredGrows(l', rs[1..], now, due);
      var n := CheckAll(l', rs[1..], now, due);
      assert n == CheckAll(l, rs, now, due);
      assert forall x :: x in rs[1..] ==> x in rs;
      if l' != l {
        assert l'.log == l.log + [rs[0]];
        assert n.log[..|l'.log|] == l'.log;
        assert n.log[..|l.log|] == l.log by {
          assert n.log[..|l.log|] == n.log[..|l'.log|][..|l.log|];
        }
        assert n.log[|l.log|] == rs[0] by {
          assert n.log[|l.log|] == n.log[..|l'.log|][|l.log|];
        }
        assert Key(rs[0]) in l'.fired;
      }
    }
  }

  /** A check never removes a key from the ledger. */
  lemma {:induction false} CheckFiredGrows(l: Ledger, rs: seq<Reminder>, now: int, due: Reminder -> Option<int>)
    ensures l.fired <= CheckAll(l, rs, now, due).fired
    decreases |rs|
  {
    if rs != [] {
      CheckFiredGrows(CheckOne(l, rs[0], now, due), rs[1..], now, due);
    }
  }

  /** After a check the ledger holds the keys it held and those of every open reminder of
      the list due within the window, and nothing else: each such key was delivered once. */
  lemma {:induction false} CheckFired(l: Ledger, rs: seq<Reminder>, now: int, due: Reminder -> Option<int>)
    ensures forall k :: k in CheckAll(l, rs, now, due).fired <==>
      k in l.fired || exists r :: r in rs && InWindow(r, now, due) && Key(r) == k
    decreases |rs|
  {
    if rs != [] {
      var l' := CheckOne(l, rs[0], now, due);
      CheckFired(l', rs[1..], now, due);
      assert l'.fired == l.fired + (if InWindow(rs[0], now, due) then {Key(rs[0])} else {});
      forall k | k in l.fired || exists r :: r in rs && InWindow(r, now, due) && Key(r) == k
        ensures k in l'.fired || exists r :: r in rs[1..] && InWindow(r, now, due) && Key(r) == k
      {
        if k !in l.fired {
          var r :| r in rs && InWindow(r, now, due) && Key(r) == k;
          if r != rs[0] {
            assert r in rs[1..];
          }
        }
      }
    }
  }

  /** The evictions a check adds are one per delivery, each a minute after `now`. */
  lemma {:induction false} CheckSchedules(l: Ledger, rs: seq<Reminder>, now: int, due: Reminder -> Option<int>)
    ensures var n := CheckAll(l, rs, now, due);
      |l.log| <= |n.log| && n.pending == l.pending + Schedule(n.log[|l.log|..], now)
    decreases |rs|
  {
    var n := CheckAll(l, rs, now, due);
    if rs == [] {
      assert n.log[|l.log|..] == [];
    } else {
      var l' := CheckOne(l, rs[0], now, due);
      CheckSchedules(l', rs[1..], now, due);
      CheckDelivers(l', rs[1..], now, due);
      assert n == CheckAll(l', rs[1..], now, due);
      if l' != l {
        var x := n.log[|l'.log|..];
        assert n.log[|l.log|] == rs[0] by {
          assert n.log[|l.log|] == n.log[..|l'.log|][|l.log|];
        }
        assert n.log[|l.log|..] == [rs[0]] + x;
        assert ([rs[0]] + x)[1..] == x;
        assert Schedule(n.log[|l.log|..], now) == [Eviction(Key(rs[0]), now + Forget)] + Schedule(x, now);
      }
    }
  }

  /** Running the timeout of `pending[i]` keeps the ledger consistent. */
  lemma EvictConsistent(l: Ledger, i: nat)
    requires Consistent(l) && i < |l.pending|
    ensures Consistent(Ledger(l.fired - {l.pending[i].key}, l.pending[..i] + l.pending[i + 1..], l.log))
  {
    var q := l.pending;
    var p := q[..i] + q[i + 1..];
    var key := q[i].key;
    assert forall j :: 0 <= j < i ==> p[j] == q[j];
    assert forall j :: i <= j < |p| ==> p[j] == q[j + 1];
    assert DistinctKeys(p) by {
      forall j, k | 0 <= j < k < |p| ensures p[j].key != p[k].key {
        var j' := if j < i then j else j + 1;
        var k' := if k < i then k else k + 1;
        assert p[j] == q[j'] && p[k] == q[k'];
      }
    }
    forall x | x in PendingKeys(p) ensures x in PendingKeys(q) && x != key {
      var e :| e in p && e.key == x;
      var j :| 0 <= j < |p| && p[j] == e;
      var j' := if j < i then j else j + 1;
      assert e == q[j'];
    }
    forall x | x in PendingKeys(q) && x != key ensures x in PendingKeys(p) {
      var e :| e in q && e.key == x;
      var j :| 0 <= j < |q| && q[j] == e;
      assert j != i;
      var j' := if j < i then j else j - 1;
      assert e == p[j'];
    }
  }

  /** The watcher state of the main page: the `firedIdsRef` ledger with its pending
      `setTimeout` deletions, the deliveries made through `triggerReminderEffects`, and whether
      the five-second interval is installed. */
  class Watcher {
    var fired: set<string>
    var pending: seq<Eviction>
    var delivered: seq<Reminder>
    var intervalActive: bool

    function State(): Ledger
      reads this
    {
      Ledger(fired, pending, delivered)
    }

    predicate Valid()
      reads this
    {
      Consistent(State())
    }

    constructor()
      ensures Valid()
      ensures fired == {} && pending == [] && delivered == [] && !intervalActive
    {
      fired := {};
      pending := [];
      delivered := [];
      intervalActive := false;
    }

    /** `checkReminders` at instant `now`. */
    method Tick(reminders: seq<Reminder>, now: int, dueAt: (string, int, int) -> Option<int>)
      requires Valid()
      modifies this
      ensures Valid()
      ensures State() == CheckAll(old(State()), reminders, now, DueOf(dueAt))
      ensures intervalActive == old(intervalActive)
    {
      var i := 0;
      while i < |reminders|
        invariant 0 <= i <= |reminders|
        invariant CheckAll(State(), reminders[i..], now, DueOf(dueAt)) ==
          CheckAll(old(State()), reminders, now, DueOf(dueAt))
        invariant intervalActive == old(intervalActive)
      {
        var r := reminders[i];
        assert reminders[i..][1..] == reminders[i + 1..];
        if !r.completed {
          var due := GetDueDate(r, dueAt);
          if due.Some? {
            var rid := Key(r);
            if Abs(now - due.value) <= Window && rid !in fired {
              fired := fired + {rid};
              delivered := delivered + [r];
              pending := pending + [Eviction(rid, now + Forget)];
            }
          }
        }
        i := i + 1;
      }
      assert reminders[i..] == [];
      CheckConsistent(old(State()), reminders, now, DueOf(dueAt));
    }

    /** The effect that runs whenever the reminder list changes: one check at once, then the
        interval. The ledger carries over from the previous list. */
    method Mount(reminders: seq<Reminder>, now: int, dueAt: (string, int, int) -> Option<int>)
      requires Valid()
      modifies this
      ensures Valid()
      ensures State() == CheckAll(old(State()), reminders, now, DueOf(dueAt))
      ensures intervalActive
    {
      Tick(reminders, now, dueAt);
      intervalActive := true;
    }

    /** The effect's cleanup clears the interval and nothing else: pending deletions still run. */
    method Unmount()
      modifies this
      ensures !intervalActive
      ensures fired == old(fired) && pending == old(pending) && delivered == old(delivered)
    {
      intervalActive := false;
    }

    /** The timeout `pending[i]` runs (at instant `pending[i].at`): its key leaves the ledger. */
    method Evict(i: nat)
      requires Valid() && i < |pending|
      modifies this
      ensures Valid()
      ensures fired == old(fired) - {old(pending)[i].key}
      ensures pending == old(pending[..i] + pending[i + 1..])
      ensures delivered == old(delivered) && intervalActive == old(intervalActive)
    {
      EvictConsistent(State(), i);
      fired := fired - {pending[i].key};
      pending := pending[..i] + pending[i + 1..];
    }
  }

  /** Two open reminders sharing a key, both due now and neither fired before: one check
      delivers exactly the first of them. */
  lemma SharedKeyFiresOnce(a: Reminder, b: Reminder, now: int, due: Reminder -> Option<int>)
    requires InWindow(a, now, due) && InWindow(b, now, due) && Key(a) == Key(b)
    ensures CheckAll(Ledger({}, [], []), [a, b], now, due) ==
      Ledger({Key(a)}, [Eviction(Key(a), now + Forget)], [a])
  {
    var l1 := CheckOne(Ledger({}, [], []), a, now, due);
    assert l1 == Ledger({Key(a)}, [Eviction(Key(a), now + Forget)], [a]);
    assert [a, b][1..] == [b];
    assert CheckOne(l1, b, now, due) == l1;
    assert CheckAll(l1, [b], now, due) == CheckAll(l1, [], now, due) by { assert [b][1..] == []; }
  }
  /** One reminder checked three times: the first check delivers it, a later check while its
      key is held delivers nothing, and once the eviction has run a check delivers it again. */
  lemma FiresOnceUntilEvicted(r: Reminder, t1: int, t2: int, t3: int, due: Reminder -> Option<int>)
    requires InWindow(r, t1, due) && InWindow(r, t3, due)
    ensures var l1 := CheckAll(Ledger({}, [], []), [r], t1, due);
      l1 == Ledger({Key(r)}, [Eviction(Key(r), t1 + Forget)], [r])
      && CheckAll(l1, [r], t2, due) == l1
      && CheckAll(Ledger(l1.fired - {l1.pending[0].key}, l1.pending[1..], l1.log), [r], t3, due)
         == Ledger({Key(r)}, [Eviction(Key(r), t3 + Forget)], [r, r])
  {
    assert [r][1..] == [];
    var l1 := CheckOne(Ledger({}, [], []), r, t1, due);
    assert CheckAll(Ledger({}, [], []), [r], t1, due) == CheckAll(l1, [], t1, due);
    assert CheckAll(l1, [r], t2, due) == CheckAll(CheckOne(l1, r, t2, due), [], t2, due);
    var l2 := Ledger(l1.fired - {l1.pending[0].key}, l1.pending[1..], l1.log);
    assert l2 == Ledger({}, [], [r]);
    assert CheckAll(l2, [r], t3, due) == CheckAll(CheckOne(l2, r, t3, due), [], t3, due);
  }
}
