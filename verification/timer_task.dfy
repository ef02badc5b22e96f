/** The expiration timer in place: its loop over an Ownership, while the driver
    sets the deadline or closes the latch and the clock moves whenever it is not
    the timer's turn. */
module TimerTasks {
  import opened Ids
  import opened Folds
  import opened Ownerships
  import T = ExpirationTimer

  class TimerTask {
    const ownership: Ownership
    const schedule: seq<T.Action>
    var at: nat
    var clock: Time
    /** `set_expiration` was called since the wait began. */
    var notified: bool
    ghost const start: T.State
    ghost var held: T.State

    ghost predicate Tracks(s: T.State)
      reads this`clock, this`notified, ownership
    {
      && T.Inv(s) && ownership.expired == s.expired && ownership.expiration == T.Deadline(s) && clock == s.clock
      && (s.pc.Sleeping? ==> s.pc.since <= |s.deadlines| && (notified <==> |s.deadlines| > s.pc.since))
    }

    ghost predicate Valid()
      reads this, ownership
    {
      at <= |schedule| && held == Fold(T.Tick, start, schedule[..at]) && Tracks(held)
    }

    constructor (ownership: Ownership, schedule: seq<T.Action>, clock: Time)
      ensures Valid() && this.ownership == ownership && this.schedule == schedule && at == 0
      ensures held == start == T.State([ownership.expiration], clock, ownership.expired, T.CheckExpired, [])
    {
      this.ownership, this.schedule, this.clock, at, notified := ownership, schedule, clock, 0, false;
      this.start := T.State([ownership.expiration], clock, ownership.expired, T.CheckExpired, []);
      this.held := T.State([ownership.expiration], clock, ownership.expired, T.CheckExpired, []);
    }

    /** The schedule moves on, past an entry that has had its effect. */
    method Pass()
      requires at < |schedule| && held == Fold(T.Tick, start, schedule[..at]) && T.Inv(held)
      requires T.Inv(T.Tick(held, schedule[at])) ==> Tracks(T.Tick(held, schedule[at]))
      modifies this`at, this`held
      ensures Valid() && at == old(at) + 1 && held == T.Tick(old(held), schedule[old(at)])
    {
      FoldSnoc(T.Tick, start, schedule, at);
      if T.Enabled(held, schedule[at]) { T.StepKeeps(held, schedule[at]); }
      held := T.Tick(held, schedule[at]);
      at := at + 1;
    }

    /** The timer takes its step; its effect has been had. */
    method Advance()
      requires at < |schedule| && held == Fold(T.Tick, start, schedule[..at]) && T.Inv(held)
      requires schedule[at].TimerStep? && T.Enabled(held, T.TimerStep)
      requires T.Inv(T.TimerNext(held)) ==> Tracks(T.TimerNext(held))
      modifies this`at, this`held
      ensures Valid() && at == old(at) + 1 && held == T.TimerNext(old(held))
    {
      Pass();
    }

    /** Another party's turn; the timer's own entries are not meant here. */
    method Interfere()
      requires Valid() && at < |schedule|
      requires schedule[at].SetExpiration? || schedule[at].DriverExpires? || schedule[at].ClockReads?
      modifies this`at, this`held, this`clock, this`notified, ownership
      ensures Valid() && at == old(at) + 1
      ensures held.pc == old(held).pc && held.log == old(held).log && old(held).deadlines <= held.deadlines
    {
      match schedule[at] {
        case SetExpiration(deadline) =>
          ownership.SetExpiration(deadline);
          notified := true;
        case DriverExpires => ownership.Expire();
        case ClockReads(now) => clock := now;
      }
      Pass();
    }

    /** Waits for the timer's turn, outside its sleep. */
    method MyTurn() returns (ok: bool)
      requires Valid() && !held.pc.Sleeping? && !held.pc.Exited?
      modifies this`at, this`held, this`clock, this`notified, ownership
      ensures Valid() && at >= old(at)
      ensures held.pc == old(held).pc && old(held).deadlines <= held.deadlines
      ensures if ok then at < |schedule| && schedule[at].TimerStep? else at == |schedule|
    {
      while at < |schedule|
        invariant Valid() && at >= old(at)
        invariant held.pc == old(held).pc && old(held).deadlines <= held.deadlines
        decreases |schedule| - at
      {
        match schedule[at] {
          case TimerStep => return true;
          case SleepEnds => Pass();
          case Notified => Pass();
          case _ => Interfere();
        }
      }
      ok := false;
    }

    /** `select!` over the sleep and the notification. A change made before the wait
        began wakes nobody. */
    method Sleep() returns (woken: Woken)
      requires Valid() && held.pc.Sleeping?
      modifies this`at, this`held, this`clock, this`notified, ownership
      ensures Valid() && at >= old(at)
      ensures match woken
              case Never => at == |schedule|
              case BySleep => held.pc.RereadDeadline?
              case ByNotice => held.pc.CheckExpired?
    {
      while at < |schedule|
        invariant Valid() && at >= old(at) && held.pc.Sleeping?
        decreases |schedule| - at
      {
        match schedule[at] {
          case SleepEnds => Pass(); return BySleep;
          case Notified =>
            var due := TakeNotice();
            if due { return ByNotice; }
          case TimerStep => Pass();
          case _ => Interfere();
        }
      }
      woken := Never;
    }

    /** The notification, if there is one. */
    method TakeNotice() returns (due: bool)
      requires Valid() && held.pc.Sleeping? && at < |schedule| && schedule[at].Notified?
      modifies this`at, this`held
      ensures Valid() && at == old(at) + 1
      ensures if due then held.pc.CheckExpired? else held.pc.Sleeping?
    {
      due := notified;
      Pass();
    }

    /** Where the timer is now, or that the schedule is over. */
    ghost predicate At(ok: bool, pc: T.Pc)
      reads this
    {
      if ok then held.pc == pc else at == |schedule|
    }

    method ReadDeadline() returns (ok: bool, deadline: Time, ghost idx: nat)
      requires Valid() && (held.pc.ReadDeadline? || held.pc.RereadDeadline?)
      modifies this`at, this`held, this`clock, this`notified, ownership
      ensures Valid() && at >= old(at)
      ensures At(ok, if old(held).pc.ReadDeadline? then T.ReadClock(idx) else T.RereadClock(idx))
      ensures ok ==> idx < |held.deadlines| && held.deadlines[idx] == deadline
    {
      deadline, idx := 0, 0;
      ok := MyTurn();
      if ok {
        deadline, idx := ownership.expiration, |held.deadlines| - 1;
        Advance();
      }
    }

    method ReadClock(ghost idx: nat, ghost deadline: Time) returns (ok: bool, now: Time)
      requires Valid() && (held.pc == T.ReadClock(idx) || held.pc == T.RereadClock(idx))
      requires idx < |held.deadlines| && held.deadlines[idx] == deadline
      modifies this`at, this`held, this`clock, this`notified, ownership
      ensures Valid() && at >= old(at)
      ensures At(ok, if old(held).pc.ReadClock? then T.Decide(idx, now) else T.Redecide(idx, now))
      ensures ok ==> idx < |held.deadlines| && held.deadlines[idx] == deadline
    {
      now := 0;
      ok := MyTurn();
      if ok {
        now := clock;
        Advance();
      }
    }

    /** Decides on the deadline and the reading it holds. */
    method Decide(ghost idx: nat, deadline: Time, now: Time) returns (ok: bool)
      requires Valid() && (held.pc == T.Decide(idx, now) || held.pc == T.Redecide(idx, now))
      requires idx < |held.deadlines| && held.deadlines[idx] == deadline
      modifies this`at, this`held, this`clock, this`notified, ownership
      ensures Valid() && at >= old(at)
      ensures ok && deadline <= now ==> held.pc == T.Expiring(idx, now)
      ensures ok && deadline > now ==> if old(held).pc.Decide? then held.pc.Sleeping? else held.pc.CheckExpired?
      ensures !ok ==> at == |schedule|
    {
      ok := MyTurn();
      if ok {
        if deadline > now { notified := false; }
        Advance();
      }
    }

    method Expire() returns (ok: bool)
      requires Valid() && held.pc.Expiring?
      modifies this`at, this`held, this`clock, this`notified, ownership
      ensures Valid() && At(ok, T.Exited) && (ok ==> ownership.expired)
    {
      ok := MyTurn();
      if ok {
        ownership.Expire();
        Advance();
      }
    }

    method CheckExpired() returns (ok: bool, expired: bool)
      requires Valid() && held.pc.CheckExpired?
      modifies this`at, this`held, this`clock, this`notified, ownership
      ensures Valid() && at >= old(at) && (ok ==> at > old(at))
      ensures At(ok, if expired then T.Exited else T.ReadDeadline)
      ensures ok && expired ==> ownership.expired
    {
      expired := false;
      ok := MyTurn();
      if ok {
        expired := ownership.expired;
        Advance();
      }
    }

    /** The task. It ends with the latch closed, by it or by the driver, or the
        schedule is over; and on the way it did exactly what the machine does. */
    method Run() returns (exited: bool)
      requires Valid() && held.pc.CheckExpired?
      modifies this`at, this`held, this`clock, this`notified, ownership
      ensures Valid() && At(exited, T.Exited) && (exited ==> ownership.expired)
    {
      while true
        invariant Valid() && held.pc.CheckExpired?
        decreases |schedule| - at
      {
        var ok, expired := CheckExpired();
        if !ok { return false; }
        if expired { return true; }
        var due: Check := ReadAndDecide();
        if due.Cut? { return false; }
        if due.Due? {
          exited := Expire();
          return;
        }
        var woken := Sleep();
        if woken.Never? { return false; }
        if woken.BySleep? {
          due := ReadAndDecide();
          if due.Cut? { return false; }
          if due.Due? {
            exited := Expire();
            return;
          }
        }
      }
    }

    /** Reads the deadline, then the clock, and compares. */
    method ReadAndDecide() returns (due: Check)
      requires Valid() && (held.pc.ReadDeadline? || held.pc.RereadDeadline?)
      modifies this`at, this`held, this`clock, this`notified, ownership
      ensures Valid() && at >= old(at)
      ensures match due
              case Cut => at == |schedule|
              case Due => held.pc.Expiring?
              case NotYet => if old(held).pc.ReadDeadline? then held.pc.Sleeping? else held.pc.CheckExpired?
    {
      var ok, deadline, idx := ReadDeadline();
      if !ok { return Cut; }
      var now: Time;
      ok, now := ReadClock(idx, deadline);
      if !ok { return Cut; }
      ok := Decide(idx, deadline, now);
      if !ok { return Cut; }
      due := if deadline <= now then Due else NotYet;
    }
  }

  datatype Woken = Never | BySleep | ByNotice
  datatype Check = Cut | Due | NotYet
}
