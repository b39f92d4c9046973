/** The stopwatch and countdown timer of the main page (app/page.tsx). Each is a value that an
    interval steps while it runs, plus the buttons that start, pause and reset it. The interval
    firing is an explicit `Tick`; the timer's effect, which stops a timer that has reached zero,
    runs at the end of every operation that changes the timer. */
module Clocks {
  import opened Common
  import opened Text
  import opened Page

  /** The stopwatch: elapsed milliseconds, advanced by 10 every 10 ms while running. */
  class Stopwatch {
    var time: nat
    var running: bool

    /** The display is driven in whole steps of 10 ms. */
    predicate Valid()
      reads this
    {
      time % 10 == 0
    }

    constructor()
      ensures Valid() && time == 0 && !running
    {
      time := 0;
      running := false;
    }

    /** The interval while the stopwatch runs. */
    method Tick()
      requires Valid() && running
      modifies this
      ensures Valid() && time == old(time) + 10 && running
    {
      time := time + 10;
    }

    /** The Start button, shown while the stopwatch is stopped. */
    method Start()
      requires Valid()
      modifies this
      ensures Valid() && running && time == old(time)
    {
      running := true;
    }

    /** The Pause button, shown while it runs. */
    method Pause()
      requires Valid()
      modifies this
      ensures Valid() && !running && time == old(time)
    {
      running := false;
    }

    /** The Reset button stops the stopwatch and zeroes it. */
    method Reset()
      modifies this
      ensures Valid() && !running && time == 0
    {
      running := false;
      time := 0;
    }
  }

  /** A stopwatch value, a multiple of 10 ms, is shown without loss: the minutes, seconds and
      centiseconds of the display add up to it exactly. */
  lemma StopwatchDisplayExact(time: nat)
    requires time % 10 == 0
    ensures time / 60000 * 60000 + (time % 60000) / 1000 * 1000 + (time % 1000) / 10 * 10 == time
  {
    StopwatchFields(time);
  }

  /** The timer's initial and reset value, five minutes in seconds. */
  const TimerDefault: int := 300

  /** The countdown timer: seconds left, `None` being NaN after an unparsable minutes entry. */
  class CountdownTimer {
    var time: Option<int>
    var running: bool

    /** The effect never leaves a timer running at zero. */
    predicate Valid()
      reads this
    {
      !(running && time == Some(0))
    }

    constructor()
      ensures Valid() && time == Some(TimerDefault) && !running
    {
      time := Some(TimerDefault);
      running := false;
    }

    /** The timer effect: with no interval to install (not running or not positive), a time of
        exactly zero stops the timer. NaN and negative times change nothing. */
    method Settle()
      modifies this
      ensures Valid()
      ensures time == old(time)
      ensures running == (old(running) && time != Some(0))
    {
      if !(running && time.Some? && time.value > 0) && time == Some(0) {
        running := false;
      }
    }

    /** The one-second interval, installed only while running with a positive time. */
    method Tick()
      requires running && time.Some? && time.value > 0
      modifies this
      ensures Valid()
      ensures time == Some(old(time).value - 1)
      ensures running == (old(time).value != 1)
    {
      time := Some(time.value - 1);
      Settle();
    }

    /** The Start button: a timer at zero stops again at once. */
    method Start()
      modifies this
      ensures Valid()
      ensures time == old(time) && running == (time != Some(0))
    {
      running := true;
      Settle();
    }

    /** The Pause button. */
    method Pause()
      modifies this
      ensures Valid() && time == old(time) && !running
    {
      running := false;
    }

    /** The Reset button. */
    method Reset()
      modifies this
      ensures Valid() && time == Some(TimerDefault) && !running
    {
      running := false;
      time := Some(TimerDefault);
    }

    /** The minutes input: `parseInt(value) * 60`. The input is disabled while the timer
        runs, so then nothing changes. */
    method SetMinutes(value: string)
      requires Valid()
      modifies this
      ensures Valid() && running == old(running)
      ensures old(running) ==> time == old(time)
      ensures !old(running) ==> time == MinutesEntry(value)
    {
      if !running {
        time := MinutesEntry(value);
        Settle();
      }
    }
  }

  /** The timer value a minutes entry sets, NaN staying NaN. */
  function MinutesEntry(value: string): (t: Option<int>)
    ensures t.None? <==> ParseIntAuto(value).None?
    ensures t.Some? ==> t.value % 60 == 0
  {
    match ParseIntAuto(value)
    case None => None
    case Some(m) => Some(m * 60)
  }

  /** The minutes the input shows for a timer value, `Math.floor(time / 60)`. */
  function MinutesShown(time: Option<int>): Option<int> {
    match time
    case None => None
    case Some(t) => Some(t / 60)
  }

  /** The input reads back the minutes just entered. */
  lemma EntryShown(value: string)
    ensures MinutesShown(MinutesEntry(value)) == ParseIntAuto(value)
  {
    match ParseIntAuto(value)
    case None =>
    case Some(m) =>
      assert (m * 60) / 60 == m;
  }

  /** A plain number of minutes sets that many minutes in seconds. */
  lemma DigitsEntry(value: string)
    requires value != [] && AllDigits(value)
    ensures MinutesEntry(value) == Some(DigitsValue(value) * 60)
  {
    assert 'x' !in value && 'X' !in value by {
      forall k | 0 <= k < |value| ensures value[k] != 'x' && value[k] != 'X' {
        assert IsDigit(value[k]);
      }
    }
    ParseIntDigits(value);
  }
}
