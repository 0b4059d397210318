/** The trigger clock every time-based processor carries
    (TimeBasedProcessor): the kernel reads the next trigger time to schedule
    the processor's event and steps it forward by the trigger interval. */
module TimeBasedProcessors {

  /** One second and one minute in nanoseconds, the simulation's time unit. */
  const SECOND: int := 1_000_000_000
  const MINUTE: int := 60 * SECOND

  /** Default trigger interval: 30 minutes. */
  const DEFAULT_TRIGGER_INTERVAL: int := 30 * MINUTE

  /** The pair of trigger times a processor keeps. */
  datatype TriggerTimes = TriggerTimes(previous: int, next: int)

  /** One scheduling step: the next time becomes the previous one and the
      next one moves on by the interval. */
  function Advance(c: TriggerTimes, interval: int): TriggerTimes {
    TriggerTimes(c.next, c.next + interval)
  }

  /** The trigger times after `k` steps from `c`. */
  function AdvanceTimes(c: TriggerTimes, interval: int, k: nat): TriggerTimes {
    if k == 0 then c else Advance(AdvanceTimes(c, interval, k - 1), interval)
  }

  /** After initialize and k steps, the processor has last been scheduled
      at k intervals, and before that at k - 1 intervals (0 before any
      step). */
  lemma {:induction false} AdvanceFromStart(interval: int, k: nat)
    ensures AdvanceTimes(TriggerTimes(0, 0), interval, k)
         == TriggerTimes(if k == 0 then 0 else (k - 1) * interval, k * interval)
  {
    if k > 0 {
      AdvanceFromStart(interval, k - 1);
    }
  }

  /** The times returned by successive steps are `interval` apart. */
  lemma {:induction false} AdvanceTimesSpacing(c: TriggerTimes, interval: int, k: nat)
    ensures AdvanceTimes(c, interval, k).next == c.next + k * interval
    ensures k > 0 ==> AdvanceTimes(c, interval, k).previous == c.next + (k - 1) * interval
  {
    if k > 0 {
      AdvanceTimesSpacing(c, interval, k - 1);
    }
  }

  class TimeBasedProcessor {
    /** The processor's identifier (its short class name), the key of the
        kernel's registry and the resource of its events. */
    const identifier: string
    /** Configured interval between two triggers, in ns. */
    const triggerInterval: int
    var nextTriggerTime: int
    var previousTriggerTime: int

    /** The two trigger times as a value. */
    function Times(): TriggerTimes
      reads this
    {
      TriggerTimes(previousTriggerTime, nextTriggerTime)
    }

    constructor (identifier: string, triggerInterval: int)
      ensures this.identifier == identifier && this.triggerInterval == triggerInterval
      ensures nextTriggerTime == 0 && previousTriggerTime == 0
    {
      this.identifier := identifier;
      this.triggerInterval := triggerInterval;
      nextTriggerTime := 0;
      previousTriggerTime := 0;
    }

    /** initialize: both trigger times back to 0. */
    method Initialize()
      modifies this
      ensures Times() == TriggerTimes(0, 0)
    {
      previousTriggerTime := 0;
      nextTriggerTime := 0;
    }

    /** getAndIncrementNextTriggerTime: the old next time becomes the previous
        one, the next one moves on by one interval and is returned. */
    method GetAndIncrementNextTriggerTime() returns (next: int)
      modifies this
      ensures Times() == Advance(old(Times()), triggerInterval)
      ensures next == nextTriggerTime
    {
      previousTriggerTime := nextTriggerTime;
      nextTriggerTime := nextTriggerTime + triggerInterval;
      next := nextTriggerTime;
    }

    /** getPreviousTriggerTime: a pure read. */
    method GetPreviousTriggerTime() returns (previous: int)
      ensures previous == previousTriggerTime
    {
      previous := previousTriggerTime;
    }
  }
}
