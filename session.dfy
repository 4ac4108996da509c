/**
  The roll session of the `Roller` component (src/index.tsx lines 69-152):
  the buffer of pending clicks, the bonus, the progress-bar width, the
  debounce timer and the progress interval, and the handlers that change
  them.

  Every handler is taken to run against the state of the latest render,
  except where the source runs a closure made earlier: the debounce timer
  runs the `makeRolls` of the render in which its click was handled, so it
  keeps the bonus of that render (`Timer.bonus`).
 */
module Session {
  import opened Wrappers
  import opened Timeouts

  /** A clicked die waiting to be rolled. */
  datatype PendingRoll = PendingRoll(sides: int)

  /** One rolled die as handed to the callback. */
  datatype RollResult = RollResult(result: int, sides: int, bonus: int)

  /**
    A scheduled debounce timer: the wait it was set for and the bonus that
    its `makeRolls` closure captured.
   */
  datatype Timer = Timer(duration: int, bonus: int)

  /**
    The roll function as a sequence of draws: `roll(n, sides)` is what it
    answers on its `n`-th call of the session (counting from 0) for a die
    with `sides` sides. Independent random draws, and a `diceRollFn` that
    keeps state, are both functions of this shape.
   */
  type RollFn = (nat, int) -> int

  /**
    The batch that draining `pending` hands to the callback: one result per
    pending die, in click order, each carrying `bonus`. The dice take the
    roll function's calls `first`, `first + 1`, ... in click order.
   */
  function Batch(pending: seq<PendingRoll>, roll: RollFn, bonus: int, first: nat): (out: seq<RollResult>)
    ensures |out| == |pending|
    ensures forall i :: 0 <= i < |pending| ==>
              out[i] == RollResult(roll(first + i, pending[i].sides), pending[i].sides, bonus)
  {
    if pending == [] then []
    else [RollResult(roll(first, pending[0].sides), pending[0].sides, bonus)] + Batch(pending[1..], roll, bonus, first + 1)
  }

  /** Clicks collected in two stretches are rolled as the two batches one after the other. */
  lemma BatchAppend(a: seq<PendingRoll>, b: seq<PendingRoll>, roll: RollFn, bonus: int, first: nat)
    ensures Batch(a + b, roll, bonus, first) == Batch(a, roll, bonus, first) + Batch(b, roll, bonus, first + |a|)
  {
  }

  /**
    When the roll function keeps to `[1, sides]` for every positive die,
    so does every result of a batch of positive dice.
   */
  lemma BatchInRange(pending: seq<PendingRoll>, roll: RollFn, bonus: int, first: nat)
    requires forall n: nat, s :: s >= 1 ==> 1 <= roll(n, s) <= s
    requires forall i :: 0 <= i < |pending| ==> pending[i].sides >= 1
    ensures forall r :: r in Batch(pending, roll, bonus, first) ==> 1 <= r.result <= r.sides && r.bonus == bonus
  {
  }

  /** The dice that a sequence of results was rolled for, in order. */
  function DiceOf(results: seq<RollResult>): seq<PendingRoll> {
    if results == [] then [] else [PendingRoll(results[0].sides)] + DiceOf(results[1..])
  }

  /** All results handed to the callback, batch after batch. */
  function Concat(batches: seq<seq<RollResult>>): seq<RollResult> {
    if batches == [] then [] else Concat(batches[..|batches| - 1]) + batches[|batches| - 1]
  }

  /** A batch is rolled for exactly the pending dice, in click order. */
  lemma {:induction false} DiceOfBatch(pending: seq<PendingRoll>, roll: RollFn, bonus: int, first: nat)
    ensures DiceOf(Batch(pending, roll, bonus, first)) == pending
  {
    if pending != [] {
      var out := Batch(pending, roll, bonus, first);
      assert out[1..] == Batch(pending[1..], roll, bonus, first + 1);
      DiceOfBatch(pending[1..], roll, bonus, first + 1);
    }
  }

  /** The dice of two joined result lists are the two lists' dice, joined. */
  lemma {:induction false} DiceOfAppend(a: seq<RollResult>, b: seq<RollResult>)
    ensures DiceOf(a + b) == DiceOf(a) + DiceOf(b)
  {
    if a != [] {
      assert (a + b)[0] == a[0] && (a + b)[1..] == a[1..] + b;
      DiceOfAppend(a[1..], b);
    } else {
      assert a + b == b;
    }
  }

  /**
    Handing one more batch to the callback adds exactly that batch's dice
    to the dice delivered so far, and one result per pending die.
   */
  lemma DeliverBatch(delivered: seq<seq<RollResult>>, pending: seq<PendingRoll>, roll: RollFn, bonus: int, first: nat)
    ensures DiceOf(Concat(delivered + [Batch(pending, roll, bonus, first)])) == DiceOf(Concat(delivered)) + pending
    ensures |Concat(delivered + [Batch(pending, roll, bonus, first)])| == |Concat(delivered)| + |pending|
  {
    var batch := Batch(pending, roll, bonus, first);
    assert (delivered + [batch])[..|delivered|] == delivered;
    DiceOfAppend(Concat(delivered), batch);
    DiceOfBatch(pending, roll, bonus, first);
  }

  /**
    The `forEach` of `makeRolls`: push one result per pending die onto
    `output`, in order.
   */
  method BuildResults(pending: seq<PendingRoll>, roll: RollFn, bonus: int, first: nat) returns (output: seq<RollResult>)
    ensures output == Batch(pending, roll, bonus, first)
  {
    output := [];
    for i := 0 to |pending|
      invariant |output| == i
      invariant forall k :: 0 <= k < i ==>
                  output[k] == RollResult(roll(first + k, pending[k].sides), pending[k].sides, bonus)
    {
      var sides := pending[i].sides;
      output := output + [RollResult(roll(first + i, sides), sides, bonus)];
    }
  }

  /**
    One mounted `Roller`. `roll` is `diceRollFn` when given and the random
    `rollDie` otherwise, and `rollCalls` counts its calls so far;
    `delivered` records every call of `callback`, in order.
   */
  class Roller {
    const timeouts: Option<TimeoutsMap>
    const roll: RollFn

    var clicks: seq<PendingRoll>
    var bonus: int
    var loadingWidth: real
    var debounce: Option<Timer>
    var intervalLive: bool
    var delivered: seq<seq<RollResult>>
    var rollCalls: nat
    /** Every die clicked since the session began, in click order. */
    ghost var clicked: seq<PendingRoll>

    /**
      No click is lost or rolled twice: the dice delivered so far, batch
      after batch, followed by the pending ones, are exactly the dice
      clicked, in click order; and the roll function was called once per
      delivered result.
     */
    ghost predicate Conserved()
      reads this
    {
      DiceOf(Concat(delivered)) + clicks == clicked && rollCalls == |Concat(delivered)|
    }

    /**
      Clicks are conserved, and a debounce timer is scheduled exactly when
      clicks are pending: a scheduled timer always has clicks to roll, and
      pending clicks always have a timer that will roll them.
     */
    ghost predicate Valid()
      reads this
    {
      Conserved() && (debounce.Some? <==> clicks != [])
    }

    /**
      `waiting`: there are pending clicks, and the Roll button is enabled.
      In a valid session this is exactly when a debounce timer is scheduled.
     */
    predicate Waiting()
      reads this
      ensures Valid() ==> (Waiting() <==> debounce.Some?)
    {
      |clicks| > 0
    }

    constructor (timeouts: Option<TimeoutsMap>, roll: RollFn)
      ensures Valid()
      ensures this.timeouts == timeouts && this.roll == roll
      ensures clicks == [] && bonus == 0 && loadingWidth == 0.0
      ensures debounce == None && !intervalLive && delivered == [] && rollCalls == 0 && clicked == []
    {
      this.timeouts := timeouts;
      this.roll := roll;
      clicks := [];
      bonus := 0;
      loadingWidth := 0.0;
      debounce := None;
      intervalLive := false;
      delivered := [];
      rollCalls := 0;
      clicked := [];
    }

    /** The `timeout` of the current render, for the current number of pending clicks. */
    method CurrentTimeout() returns (ms: int)
      ensures ms == WaitDuration(timeouts, |clicks|)
    {
      match timeouts
      case None =>
        ms := DebounceTimeout;
      case Some(m) =>
        var t := FindTimeout(m, |clicks|);
        ms := t * DebounceTimeout;
    }

    /**
      A click on a die button: append the die, reset the progress bar and
      replace any scheduled timer by one whose wait is computed from the
      number of clicks pending before this one.
     */
    method Click(sides: int)
      requires Valid()
      modifies this
      ensures Valid() && Waiting()
      ensures clicks == old(clicks) + [PendingRoll(sides)]
      ensures loadingWidth == 0.0
      ensures debounce == Some(Timer(WaitDuration(timeouts, |old(clicks)|), old(bonus)))
      ensures bonus == old(bonus) && intervalLive == old(intervalLive)
      ensures delivered == old(delivered) && rollCalls == old(rollCalls)
      ensures clicked == old(clicked) + [PendingRoll(sides)]
    {
      var ms := CurrentTimeout();
      clicks := clicks + [PendingRoll(sides)];
      loadingWidth := 0.0;
      debounce := Some(Timer(ms, bonus));
      clicked := clicked + [PendingRoll(sides)];
    }

    /** The `+` and `-` buttons: change the bonus by `amount` and nothing else. */
    method AdjustBonus(amount: int)
      requires Valid()
      modifies this
      ensures Valid()
      ensures bonus == old(bonus) + amount
      ensures clicks == old(clicks) && loadingWidth == old(loadingWidth)
      ensures debounce == old(debounce) && intervalLive == old(intervalLive)
      ensures delivered == old(delivered) && rollCalls == old(rollCalls) && clicked == old(clicked)
    {
      bonus := bonus + amount;
    }

    /**
      `makeRolls` of a render whose bonus was `capturedBonus`: roll every
      pending die with the roll function's next calls, call the callback
      once with the whole batch and empty the buffer.
     */
    method MakeRolls(capturedBonus: int)
      requires Conserved()
      modifies this
      ensures Conserved() && clicked == old(clicked)
      ensures delivered == old(delivered) + [Batch(old(clicks), roll, capturedBonus, old(rollCalls))]
      ensures rollCalls == old(rollCalls) + |old(clicks)|
      ensures clicks == []
      ensures bonus == old(bonus) && loadingWidth == old(loadingWidth)
      ensures debounce == old(debounce) && intervalLive == old(intervalLive)
    {
      DeliverBatch(delivered, clicks, roll, capturedBonus, rollCalls);
      var output := BuildResults(clicks, roll, capturedBonus, rollCalls);
      delivered := delivered + [output];
      rollCalls := rollCalls + |clicks|;
      clicks := [];
    }

    /**
      `rushRoll`: cancel the timer and the interval, fill the progress bar
      to at least 100 and roll now with the current bonus.
     */
    method RushRoll()
      requires Valid()
      modifies this
      ensures Valid() && !Waiting()
      ensures debounce == None && !intervalLive
      ensures loadingWidth == if old(loadingWidth) < 100.0 then 100.0 else old(loadingWidth)
      ensures delivered == old(delivered) + [Batch(old(clicks), roll, old(bonus), old(rollCalls))]
      ensures rollCalls == old(rollCalls) + |old(clicks)|
      ensures bonus == old(bonus) && clicked == old(clicked)
    {
      debounce := None;
      intervalLive := false;
      if loadingWidth < 100.0 {
        loadingWidth := 100.0;
      }
      MakeRolls(bonus);
    }

    /**
      A press of the Roll button, which is disabled unless clicks are
      pending: with clicks pending it is `RushRoll`, otherwise nothing
      happens and the callback is not called.
     */
    method PressRollButton()
      requires Valid()
      modifies this
      ensures Valid() && !Waiting()
      ensures old(Waiting()) ==>
                debounce == None && !intervalLive &&
                loadingWidth == (if old(loadingWidth) < 100.0 then 100.0 else old(loadingWidth)) &&
                delivered == old(delivered) + [Batch(old(clicks), roll, old(bonus), old(rollCalls))] &&
                Batch(old(clicks), roll, old(bonus), old(rollCalls)) != [] &&
                rollCalls == old(rollCalls) + |old(clicks)|
      ensures !old(Waiting()) ==>
                clicks == old(clicks) && debounce == old(debounce) &&
                intervalLive == old(intervalLive) && loadingWidth == old(loadingWidth) &&
                delivered == old(delivered) && rollCalls == old(rollCalls)
      ensures bonus == old(bonus) && clicked == old(clicked)
    {
      if Waiting() {
        RushRoll();
      }
    }

    /**
      The debounce timer elapses. A cancelled or already fired timer does
      nothing; a scheduled one is spent and runs the `makeRolls` it
      captured, with the bonus of its click's render, on a buffer that is
      never empty.
     */
    method TimerFires()
      requires Valid()
      modifies this
      ensures Valid() && debounce == None && !Waiting()
      ensures old(debounce).Some? ==>
                old(clicks) != [] &&
                delivered == old(delivered) + [Batch(old(clicks), roll, old(debounce).value.bonus, old(rollCalls))] &&
                rollCalls == old(rollCalls) + |old(clicks)|
      ensures old(debounce).None? ==>
                old(clicks) == [] && delivered == old(delivered) && rollCalls == old(rollCalls)
      ensures bonus == old(bonus) && loadingWidth == old(loadingWidth) && intervalLive == old(intervalLive)
      ensures clicked == old(clicked)
    {
      if debounce.Some? {
        var captured := debounce.value.bonus;
        debounce := None;
        MakeRolls(captured);
      }
    }

    /**
      The progress effect's handle bookkeeping after a render: the previous
      interval is cleared and a new one is started exactly when clicks are
      pending. The tick itself is not modelled.
     */
    method SyncProgress()
      requires Valid()
      modifies this`intervalLive
      ensures Valid() && intervalLive == Waiting()
    {
      intervalLive := |clicks| > 0;
    }
  }
}
