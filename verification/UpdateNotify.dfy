/** When to raise the update notification (electron/updateNotify.ts): pure rules over the persisted
    snooze and the last decided answer. Times are milliseconds since the epoch. */
module UpdateNotify {
  import opened Basics

  const REMIND_LATER_MS := 24 * 60 * 60 * 1000

  datatype Status = Idle | Checking | UpToDate | Available | Downloading | Ready | Error

  predicate IsNotifiable(status: Status) {
    status == Available || status == Ready
  }

  /** A window further out than one interval is a clock that jumped, and is not trusted. */
  predicate IsSnoozed(until: Option<int>, now: int) {
    until.Some? && until.value - now <= REMIND_LATER_MS && now < until.value
  }

  predicate ShouldNotify(status: Status, version: Option<string>, until: Option<int>, handled: Option<string>,
      now: int)
  {
    IsNotifiable(status) && version.Some? && handled != version && !IsSnoozed(until, now)
  }

  function SnoozeReAskDelay(until: Option<int>, now: int): Option<int> {
    if IsSnoozed(until, now) then Some(until.value - now) else None
  }

  predicate HasDecidedResult(status: Status) {
    status == UpToDate || status == Available || status == Downloading || status == Ready
  }

  datatype ReAskStep = Wait | Check | Publish

  function PlanSnoozeReAsk(status: Status, version: Option<string>, until: Option<int>, handled: Option<string>,
      now: int): ReAskStep
  {
    if SnoozeReAskDelay(until, now).Some? then Wait
    else if ShouldNotify(status, version, until, handled, now) then Publish
    else if HasDecidedResult(status) then Publish
    else Check
  }

  predicate SnoozeClosedBefore(until: Option<int>, now: int) {
    until.Some? && until.value - now <= REMIND_LATER_MS && now >= until.value
  }

  /** A persisted window is at every moment exactly one of: absent or bogus, open, closed. An open one
      has a positive wait of at most one interval, and that wait ends it. */
  lemma WindowIsOpenOrClosed(until: Option<int>, now: int)
    ensures !(IsSnoozed(until, now) && SnoozeClosedBefore(until, now))
    ensures !IsSnoozed(until, now) && !SnoozeClosedBefore(until, now) <==>
        until.None? || until.value - now > REMIND_LATER_MS
    ensures SnoozeReAskDelay(until, now).Some? ==>
      var d := SnoozeReAskDelay(until, now).value; 0 < d <= REMIND_LATER_MS && SnoozeClosedBefore(until, now + d)
  {
  }
}
