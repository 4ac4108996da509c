/**
  Whole click sequences run against a fresh `Roller`, with what the
  callback receives in each.
 */
module Scenarios {
  import opened Wrappers
  import opened Timeouts
  import opened Session

  /** Click a d6 and a d20, let the timer elapse: one callback with both dice, in click order. */
  method TwoClicksThenTimer(roll: RollFn) returns (delivered: seq<seq<RollResult>>)
    ensures delivered == [[RollResult(roll(0, 6), 6, 0), RollResult(roll(1, 20), 20, 0)]]
  {
    var r := new Roller(None, roll);
    r.Click(6);
    r.Click(20);
    assert r.clicks == [PendingRoll(6), PendingRoll(20)];
    assert Batch(r.clicks, roll, 0, 0) == [RollResult(roll(0, 6), 6, 0), RollResult(roll(1, 20), 20, 0)];
    r.TimerFires();
    delivered := r.delivered;
  }

  /**
    Click a d4 and press Roll before the timer elapses: one callback with
    the d4, the buffer empty, the bar full and no timer left; a late timer
    event then delivers nothing more.
   */
  method ClickThenRush(roll: RollFn)
    returns (delivered: seq<seq<RollResult>>, pending: seq<PendingRoll>, width: real, timer: Option<Timer>)
    ensures delivered == [[RollResult(roll(0, 4), 4, 0)]]
    ensures pending == [] && width == 100.0 && timer == None
  {
    var r := new Roller(None, roll);
    r.Click(4);
    assert r.clicks == [PendingRoll(4)];
    assert Batch(r.clicks, roll, 0, 0) == [RollResult(roll(0, 4), 4, 0)];
    r.PressRollButton();
    r.TimerFires();
    delivered, pending, width, timer := r.delivered, r.clicks, r.loadingWidth, r.debounce;
  }

  /** Pressing Roll with nothing pending never calls the callback. */
  method IdleRollButton(roll: RollFn) returns (delivered: seq<seq<RollResult>>)
    ensures delivered == []
  {
    var r := new Roller(None, roll);
    r.PressRollButton();
    r.TimerFires();
    delivered := r.delivered;
  }

  /**
    A bonus change between a click and the roll: the timer keeps the bonus
    of its click's render, whereas Roll uses the current bonus.
   */
  method BonusAfterClick(roll: RollFn) returns (viaTimer: seq<seq<RollResult>>, viaRush: seq<seq<RollResult>>)
    ensures viaTimer == [[RollResult(roll(0, 6), 6, 0)]]
    ensures viaRush == [[RollResult(roll(0, 6), 6, 1)]]
  {
    var a := new Roller(None, roll);
    a.Click(6);
    a.AdjustBonus(1);
    assert a.clicks == [PendingRoll(6)];
    assert a.debounce == Some(Timer(DebounceTimeout, 0));
    assert Batch(a.clicks, roll, 0, 0) == [RollResult(roll(0, 6), 6, 0)];
    a.TimerFires();
    viaTimer := a.delivered;
    assert viaTimer == [[RollResult(roll(0, 6), 6, 0)]];

    var b := new Roller(None, roll);
    b.Click(6);
    b.AdjustBonus(1);
    assert b.clicks == [PendingRoll(6)];
    assert b.bonus == 1 && b.rollCalls == 0;
    assert Batch(b.clicks, roll, 1, 0) == [RollResult(roll(0, 6), 6, 1)];
    b.PressRollButton();
    viaRush := b.delivered;
  }

  /** `+1` then `-1` restores the bonus and touches neither the buffer nor the timer. */
  method BonusUndo(roll: RollFn) returns (bonus: int, pending: seq<PendingRoll>, timer: Option<Timer>)
    ensures bonus == 0 && pending == [PendingRoll(8)] && timer == Some(Timer(DebounceTimeout, 0))
  {
    var r := new Roller(None, roll);
    r.Click(8);
    r.AdjustBonus(1);
    r.AdjustBonus(-1);
    bonus, pending, timer := r.bonus, r.clicks, r.debounce;
  }

  /**
    Three clicks under the timeouts map `{1: 1, 3: 3}`: each wait comes
    from the count pending before the click, so the waits are 0, 0 and
    1000 milliseconds.
   */
  method ScheduledWaits(roll: RollFn) returns (waits: seq<int>)
    ensures waits == [0, 0, 1000]
  {
    ExampleSchedule();
    var r := new Roller(Some([Entry(1, 1), Entry(3, 3)]), roll);
    r.Click(4);
    var w0 := r.debounce.value.duration;
    r.Click(4);
    var w1 := r.debounce.value.duration;
    r.Click(4);
    var w2 := r.debounce.value.duration;
    waits := [w0, w1, w2];
  }

  /**
    Two cycles of one d6 each: each is delivered in its own callback, and
    the second die takes the roll function's next call, so the two results
    are independent draws.
   */
  method TwoCycles(roll: RollFn) returns (delivered: seq<seq<RollResult>>)
    ensures delivered == [[RollResult(roll(0, 6), 6, 0)], [RollResult(roll(1, 6), 6, 0)]]
  {
    var r := new Roller(None, roll);
    r.Click(6);
    assert Batch(r.clicks, roll, 0, 0) == [RollResult(roll(0, 6), 6, 0)];
    r.TimerFires();
    r.Click(6);
    assert Batch(r.clicks, roll, 0, 1) == [RollResult(roll(1, 6), 6, 0)];
    r.TimerFires();
    delivered := r.delivered;
  }

  /**
    The progress interval: after a click the effect starts one; Roll
    clears it, and the effect after the drain does not start another.
   */
  method ProgressInterval(roll: RollFn) returns (afterClick: bool, afterRoll: bool, afterSync: bool)
    ensures afterClick && !afterRoll && !afterSync
  {
    var r := new Roller(None, roll);
    r.Click(10);
    r.SyncProgress();
    afterClick := r.intervalLive;
    r.PressRollButton();
    afterRoll := r.intervalLive;
    r.SyncProgress();
    afterSync := r.intervalLive;
  }
}
