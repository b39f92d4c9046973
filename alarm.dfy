/** The dismissible alarm (lib/alarm.ts): while it plays, two oscillators sound and three spots
    are on screen; clicking all three distinct spots stops it. Audio nodes are recorded by their
    settings, spots by their positions, and the on-screen notifications and the invocations of
    the `onClose` callback as logs. A callback is identified by a number. */
module Alarm {
  import opened Common
  import opened Text

  datatype Spot = Spot(x: real, y: real)

  /** An oscillator by its waveform and base frequency. */
  datatype Tone = Tone(waveform: string, frequency: real)

  const MainTone: Tone := Tone("triangle", 440.0)
  const SecondTone: Tone := Tone("sine", 554.37)
  const MainGain: real := 0.3
  const SecondGain: real := 0.2

  /** The number of spots to click. */
  const SpotCount: nat := 3

  const StartMessage: string := "Click all 3 spots to dismiss the alarm!"
  const DismissedMessage: string := "Alarm dismissed!"

  /** The notification after a click that leaves `remaining` spots. */
  function RemainingMessage(remaining: nat): string {
    NatToString(remaining) + " more spot" + (if remaining > 1 then "s" else "") + " to go!"
  }

  lemma RemainingMessages()
    ensures RemainingMessage(2) == "2 more spots to go!"
    ensures RemainingMessage(1) == "1 more spot to go!"
  {}

  /** Every clicked index is one of the three spots. */
  predicate SpotIndices(s: set<nat>) {
    forall i :: i in s ==> i < SpotCount
  }

  /** A set of spot indices has at most three elements. */
  lemma SpotIndicesBound(s: set<nat>)
    requires SpotIndices(s)
    ensures |s| <= SpotCount
  {
    assert s <= {0, 1, 2};
    SubsetCard(s, {0, 1, 2});
  }

  lemma {:induction false} SubsetCard(a: set<nat>, b: set<nat>)
    requires a <= b
    ensures |a| <= |b|
    decreases |b|
  {
    if a != {} {
      var x :| x in a;
      SubsetCard(a - {x}, b - {x});
    }
  }

  class AudioAlarm {
    /** Whether an audio context exists. */
    var hasContext: bool
    var oscillators: seq<Tone>
    var gains: seq<real>
    /** Whether the 500 ms modulation interval is installed. */
    var modulating: bool
    var isPlaying: bool
    var spots: seq<Spot>
    var onClose: Option<nat>
    var clickedSpots: set<nat>
    var notifications: seq<string>
    /** One entry per invocation of the stored `onClose`. */
    var closeCalls: seq<nat>

    /** Stopped, nothing is held; playing, both tones sound and fewer than three of the three
        spots are clicked. */
    predicate Valid()
      reads this
    {
      (!isPlaying ==> oscillators == [] && gains == [] && !modulating && spots == [] && clickedSpots == {}) &&
      (isPlaying ==>
        hasContext && oscillators == [MainTone, SecondTone] && gains == [MainGain, SecondGain] &&
        modulating && |spots| == SpotCount && SpotIndices(clickedSpots) && |clickedSpots| < SpotCount)
    }

    /** The constructor tries to create an audio context; `contextCreated` is the outcome. */
    constructor(contextCreated: bool)
      ensures Valid() && !isPlaying && hasContext == contextCreated
      ensures onClose.None? && notifications == [] && closeCalls == []
    {
      hasContext := contextCreated;
      oscillators := [];
      gains := [];
      modulating := false;
      isPlaying := false;
      spots := [];
      onClose := None;
      clickedSpots := {};
      notifications := [];
      closeCalls := [];
    }

    /** `start(onClose)`. Without a context it tries once more to create one, with outcome
        `retrySucceeds`; `a`, `b` and `c` are the three random spot positions. */
    method Start(callback: Option<nat>, retrySucceeds: bool, a: Spot, b: Spot, c: Spot)
      requires Valid()
      modifies this
      ensures Valid()
      ensures old(isPlaying) ==>
        hasContext == old(hasContext) && spots == old(spots) && onClose == old(onClose) &&
        clickedSpots == old(clickedSpots) && notifications == old(notifications) && isPlaying
      ensures !old(isPlaying) && !old(hasContext) && !retrySucceeds ==>
        !isPlaying && !hasContext && onClose == old(onClose) && notifications == old(notifications)
      ensures !old(isPlaying) && (old(hasContext) || retrySucceeds) ==>
        isPlaying && hasContext && onClose == callback && clickedSpots == {} &&
        spots == [a, b, c] && oscillators == [MainTone, SecondTone] && gains == [MainGain, SecondGain] &&
        notifications == old(notifications) + [StartMessage]
      ensures closeCalls == old(closeCalls)
    {
      if isPlaying {
        return;
      }
      if !hasContext {
        hasContext := retrySucceeds;
        if !hasContext {
          return;
        }
      }
      onClose := callback;
      clickedSpots := {};
      // createAlarmSound
      oscillators := oscillators + [MainTone];
      gains := gains + [MainGain];
      oscillators := oscillators + [SecondTone];
      gains := gains + [SecondGain];
      modulating := true;
      spots := [a, b, c];
      isPlaying := true;
      notifications := notifications + [StartMessage];
    }

    /** `stop()`: releases everything and calls the stored `onClose`, on every call, since
        nothing ever clears it. */
    method Stop()
      modifies this
      ensures Valid() && !isPlaying
      ensures oscillators == [] && gains == [] && !modulating && spots == [] && clickedSpots == {}
      ensures onClose == old(onClose) && hasContext == old(hasContext)
      ensures notifications == old(notifications)
      ensures closeCalls == old(closeCalls) + (if onClose.Some? then [onClose.value] else [])
    {
      oscillators := [];
      gains := [];
      modulating := false;
      spots := [];
      clickedSpots := {};
      isPlaying := false;
      if onClose.Some? {
        closeCalls := closeCalls + [onClose.value];
      }
    }

    /** A click on spot `index`; the handler is attached to the on-screen spots only. */
    method HandleSpotClick(index: nat)
      requires Valid() && index < |spots|
      modifies this
      ensures Valid()
      ensures index in old(clickedSpots) ==>
        clickedSpots == old(clickedSpots) && isPlaying && notifications == old(notifications) &&
        closeCalls == old(closeCalls)
      ensures index !in old(clickedSpots) && |old(clickedSpots)| < SpotCount - 1 ==>
        clickedSpots == old(clickedSpots) + {index} && isPlaying &&
        notifications == old(notifications) + [RemainingMessage(SpotCount - |clickedSpots|)] &&
        closeCalls == old(closeCalls)
      ensures index !in old(clickedSpots) && |old(clickedSpots)| == SpotCount - 1 ==>
        !isPlaying && clickedSpots == {} && spots == [] &&
        notifications == old(notifications) + [DismissedMessage] &&
        closeCalls == old(closeCalls) + (if onClose.Some? then [onClose.value] else [])
      ensures onClose == old(onClose)
    {
      if index in clickedSpots {
        return;
      }
      clickedSpots := clickedSpots + {index};
      assert SpotIndices(clickedSpots);
      SpotIndicesBound(clickedSpots);
      var remaining := SpotCount - |clickedSpots|;
      if remaining > 0 {
        notifications := notifications + [RemainingMessage(remaining)];
      } else {
        Stop();
        notifications := notifications + [DismissedMessage];
      }
    }

    /** `isActive()`. */
    method IsActive() returns (active: bool)
      ensures active == isPlaying
    {
      active := isPlaying;
    }

    /** `cleanup()`: stop, then close and drop the audio context. */
    method Cleanup()
      modifies this
      ensures Valid() && !isPlaying && !hasContext
      ensures spots == [] && clickedSpots == {} && onClose == old(onClose)
      ensures notifications == old(notifications)
      ensures closeCalls == old(closeCalls) + (if onClose.Some? then [onClose.value] else [])
    {
      Stop();
      hasContext := false;
    }
  }
}
