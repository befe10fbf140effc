/** The level controller of Assets/Scripts/GameController.cs: a countdown
    from totalSeconds, the two on-screen counters, and the end-of-level test
    that asks for the scene to be reloaded. */
module LevelTimer {

  /** The delay, in seconds, with which Update schedules RestartGame. */
  const RestartDelay: real := 1.0

  /** The scene index RestartGame loads. */
  const FirstScene: nat := 0

  /** C#'s (int) cast of a float: truncation toward zero. */
  function Trunc(r: real): (n: int)
    ensures 0.0 <= r ==> 0 <= n && n as real <= r < n as real + 1.0
    ensures r < 0.0 ==> n <= 0 && n as real - 1.0 < r <= n as real
  {
    if r >= 0.0 then r.Floor else -((-r).Floor)
  }

  /** Truncation never decreases when its argument grows. */
  lemma TruncMonotone(a: real, b: real)
    requires a <= b
    ensures Trunc(a) <= Trunc(b)
  {
  }

  /** The seconds shown on the timer: totalSeconds less the truncated elapsed
      time, clamped at 0. */
  function SecondsLeft(totalSeconds: int, elapsedTime: real): (s: int)
    ensures 0 <= s
    ensures s == 0 <==> totalSeconds <= Trunc(elapsedTime)
    ensures 0 < s ==> s == totalSeconds - Trunc(elapsedTime)
    ensures 0.0 <= elapsedTime && 0 <= totalSeconds ==> s <= totalSeconds
  {
    var left := totalSeconds - Trunc(elapsedTime);
    if left < 0 then 0 else left
  }

  /** The countdown never goes up as time passes. */
  lemma SecondsLeftNonIncreasing(totalSeconds: int, e1: real, e2: real)
    requires e1 <= e2
    ensures SecondsLeft(totalSeconds, e2) <= SecondsLeft(totalSeconds, e1)
  {
    TruncMonotone(e1, e2);
  }

  /** The end-of-level test on the gem count and the countdown at elapsedTime.
      With a non-negative elapsed time, time is up exactly when elapsedTime
      has reached totalSeconds. */
  predicate LevelOver(items: int, totalSeconds: int, elapsedTime: real)
    ensures 0.0 <= elapsedTime ==>
              (LevelOver(items, totalSeconds, elapsedTime) <==>
               items == 0 || totalSeconds as real <= elapsedTime)
  {
    var secondsLeft := SecondsLeft(totalSeconds, elapsedTime);
    items == 0 || secondsLeft == 0
  }

  // ---------------------------------------------------------------------
  // int.ToString() on the non-negative values the two texts show.

  function Digit(d: nat): (c: char)
    requires d < 10
    ensures '0' <= c <= '9'
  {
    "0123456789"[d]
  }

  function DigitValue(c: char): (d: nat)
    requires '0' <= c <= '9'
    ensures d < 10
  {
    (c as int - '0' as int) as nat
  }

  predicate AllDigits(s: string)
  {
    forall i :: 0 <= i < |s| ==> '0' <= s[i] <= '9'
  }

  /** The decimal text of n: at least one digit, only digits, no leading zero. */
  function DecimalString(n: nat): (s: string)
    ensures 1 <= |s|
    ensures AllDigits(s)
    ensures 1 < |s| ==> s[0] != '0'
    decreases n
  {
    if n < 10 then [Digit(n)] else DecimalString(n / 10) + [Digit(n % 10)]
  }

  /** The number a string of decimal digits denotes. */
  function ParseDecimal(s: string): nat
    requires AllDigits(s)
    decreases |s|
  {
    if s == [] then 0 else 10 * ParseDecimal(s[..|s| - 1]) + DigitValue(s[|s| - 1])
  }

  lemma DigitRoundTrip(d: nat)
    requires d < 10
    ensures DigitValue(Digit(d)) == d
  {
  }

  /** The text a counter shows reads back as the counter's value. */
  lemma {:induction false} ParseDecimalString(n: nat)
    ensures ParseDecimal(DecimalString(n)) == n
    decreases n
  {
    var s := DecimalString(n);
    if n < 10 {
      DigitRoundTrip(n);
    } else {
      ParseDecimalString(n / 10);
      DigitRoundTrip(n % 10);
      assert s[..|s| - 1] == DecimalString(n / 10);
    }
  }

  // ---------------------------------------------------------------------
  // Several frames.

  /** What one frame supplies: Time.deltaTime and the number of objects
      tagged "Gem" still in the scene. */
  datatype Frame = Frame(dt: real, gems: nat)

  predicate NonNegativeTimes(frames: seq<Frame>)
  {
    forall i :: 0 <= i < |frames| ==> 0.0 <= frames[i].dt
  }

  /** The elapsed time after the frames; with non-negative frame times it
      never decreases. */
  function Elapsed(elapsedTime: real, frames: seq<Frame>): (e: real)
    ensures NonNegativeTimes(frames) ==> elapsedTime <= e
    decreases |frames|
  {
    if frames == [] then elapsedTime
    else
      assert NonNegativeTimes(frames) ==> NonNegativeTimes(frames[1..]);
      Elapsed(elapsedTime + frames[0].dt, frames[1..])
  }

  /** How many restart requests the frames issue: one per frame whose end test
      holds, so never more than there are frames. */
  function Requests(totalSeconds: int, elapsedTime: real, frames: seq<Frame>): (n: nat)
    ensures n <= |frames|
    decreases |frames|
  {
    if frames == [] then 0
    else
      var e := elapsedTime + frames[0].dt;
      (if LevelOver(frames[0].gems, totalSeconds, e) then 1 else 0) +
      Requests(totalSeconds, e, frames[1..])
  }

  /** Nothing guards the request: once the countdown is at 0, every later frame
      issues another restart request, whatever the gem count. */
  lemma {:induction false} RequestEveryFrameOnceTimeIsUp(totalSeconds: int, elapsedTime: real, frames: seq<Frame>)
    requires SecondsLeft(totalSeconds, elapsedTime) == 0
    requires NonNegativeTimes(frames)
    ensures Requests(totalSeconds, elapsedTime, frames) == |frames|
    decreases |frames|
  {
    if frames != [] {
      var e := elapsedTime + frames[0].dt;
      SecondsLeftNonIncreasing(totalSeconds, elapsedTime, e);
      RequestEveryFrameOnceTimeIsUp(totalSeconds, e, frames[1..]);
    }
  }

  /** GameController: the configured level length, the elapsed-time
      accumulator, the two texts on screen, the number of Invoke("RestartGame",
      RestartDelay) requests issued, and the scenes RestartGame asked to load. */
  class GameController {
    const totalSeconds: int
    var elapsedTime: real
    var timerText: string
    var itemsText: string
    var restartRequests: nat
    var sceneLoads: seq<nat>

    /** A controller whose texts start as authored; elapsedTime starts at 0. */
    constructor (totalSeconds: int, timerText: string, itemsText: string)
      ensures this.totalSeconds == totalSeconds
      ensures elapsedTime == 0.0 && this.timerText == timerText && this.itemsText == itemsText
      ensures restartRequests == 0 && sceneLoads == []
    {
      this.totalSeconds := totalSeconds;
      elapsedTime := 0.0;
      this.timerText := timerText;
      this.itemsText := itemsText;
      restartRequests := 0;
      sceneLoads := [];
    }

    /** Update with frame time dt, in a scene holding `gems` objects tagged "Gem". */
    method Update(dt: real, gems: nat)
      modifies this
      ensures elapsedTime == old(elapsedTime) + dt
      ensures timerText == DecimalString(SecondsLeft(totalSeconds, elapsedTime))
      ensures itemsText == DecimalString(gems)
      ensures restartRequests == old(restartRequests) +
                (if LevelOver(gems, totalSeconds, elapsedTime) then 1 else 0)
      ensures sceneLoads == old(sceneLoads)
    {
      elapsedTime := elapsedTime + dt;
      var secondsLeft := totalSeconds - Trunc(elapsedTime);
      if secondsLeft < 0 {
        secondsLeft := 0;
      }
      timerText := DecimalString(secondsLeft);
      var items := gems;
      itemsText := DecimalString(items);
      if items == 0 || secondsLeft == 0 {
        restartRequests := restartRequests + 1;
      }
    }

    /** RestartGame: a request to load the first scene. */
    method RestartGame()
      modifies this`sceneLoads
      ensures sceneLoads == old(sceneLoads) + [FirstScene]
    {
      sceneLoads := sceneLoads + [FirstScene];
    }
  }
}
