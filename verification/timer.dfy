/** The per-grant expiration timer, interleaved with `set_expiration`, with the
    driver closing `expired` itself, and with a clock that may read anything. */
module ExpirationTimer {
  import opened Ids
  import opened Folds

  /** The timer task between two shared-memory operations. `idx` is the position,
      in the history of deadlines, of the deadline it holds. */
  datatype Pc =
    | CheckExpired
    | ReadDeadline
    | ReadClock(idx: nat)
    | Decide(idx: nat, now: Time)
    | Sleeping(since: nat, idx: nat)  // in `select!` until the deadline at `idx`; `since` had been set on entry
    | RereadDeadline
    | RereadClock(idx: nat)
    | Redecide(idx: nat, now: Time)
    | Expiring(idx: nat, now: Time)
    | Exited

  /** What the timer observed and did, in order. When it closes `expired`, `current`
      is the position of the deadline then in force. */
  datatype Event = Loop | SawDeadline(idx: nat, deadline: Time) | SawClock(now: Time) | Fired(current: nat)

  /** `deadlines` is every value the deadline ever had; the last is current. */
  datatype State = State(
    deadlines: seq<Time>,
    clock: Time,
    expired: bool,
    pc: Pc,
    log: seq<Event>)

  datatype Action =
    | SetExpiration(deadline: Time)
    | DriverExpires
    | ClockReads(now: Time)
    | TimerStep
    | SleepEnds
    | Notified

  function Deadline(s: State): Time
    requires s.deadlines != []
  {
    s.deadlines[|s.deadlines| - 1]
  }

  predicate Enabled(s: State, a: Action) {
    match a
    case TimerStep => s.deadlines != [] && !s.pc.Sleeping? && !s.pc.Exited? && IdxOk(s)
    // The sleep may end at any time: it is measured on another clock.
    case SleepEnds => s.pc.Sleeping?
    // A change made before the wait began wakes nobody.
    case Notified => s.pc.Sleeping? && |s.deadlines| > s.pc.since
    case _ => true
  }

  predicate IdxOk(s: State) {
    match s.pc
    case ReadClock(idx) => idx < |s.deadlines|
    case Decide(idx, _) => idx < |s.deadlines|
    case RereadClock(idx) => idx < |s.deadlines|
    case Redecide(idx, _) => idx < |s.deadlines|
    case Expiring(idx, _) => idx < |s.deadlines|
    case _ => true
  }

  function Next(s: State, a: Action): State
    requires Enabled(s, a)
  {
    match a
    case SetExpiration(d) => s.(deadlines := s.deadlines + [d])
    case DriverExpires => s.(expired := true)
    case ClockReads(now) => s.(clock := now)
    case SleepEnds => s.(pc := RereadDeadline)
    case Notified => s.(pc := CheckExpired, log := s.log + [Loop])
    case TimerStep => TimerNext(s)
  }

  function TimerNext(s: State): State
    requires Enabled(s, TimerStep)
  {
    var last := |s.deadlines| - 1;
    match s.pc
    case CheckExpired => s.(pc := if s.expired then Exited else ReadDeadline)
    case ReadDeadline => s.(pc := ReadClock(last), log := s.log + [SawDeadline(last, Deadline(s))])
    case ReadClock(idx) => s.(pc := Decide(idx, s.clock), log := s.log + [SawClock(s.clock)])
    case Decide(idx, now) =>
      s.(pc := if s.deadlines[idx] <= now then Expiring(idx, now) else Sleeping(|s.deadlines|, idx))
    case RereadDeadline => s.(pc := RereadClock(last), log := s.log + [SawDeadline(last, Deadline(s))])
    case RereadClock(idx) => s.(pc := Redecide(idx, s.clock), log := s.log + [SawClock(s.clock)])
    case Redecide(idx, now) =>
      if now >= s.deadlines[idx] then s.(pc := Expiring(idx, now))
      else s.(pc := CheckExpired, log := s.log + [Loop])
    case Expiring(_, _) => s.(expired := true, pc := Exited, log := s.log + [Fired(last)])
    case _ => s
  }

  predicate Initial(s: State) {
    |s.deadlines| == 1 && s.pc == CheckExpired && s.log == []
  }

  /** One event of a schedule; an action that is not possible changes nothing. */
  function Tick(s: State, a: Action): State {
    if Enabled(s, a) then Next(s, a) else s
  }

  // ---------- Invariant ----------

  /** The last two observations are the deadline at `idx` and then the clock. */
  predicate Observed(log: seq<Event>, deadlines: seq<Time>, idx: nat, now: Time) {
    && |log| >= 2
    && idx < |deadlines|
    && log[|log| - 2] == SawDeadline(idx, deadlines[idx])
    && log[|log| - 1] == SawClock(now)
  }

  /** The expiration at position `k` of the log rests on a deadline and a later
      clock reading of the same iteration. */
  predicate Justified(log: seq<Event>, deadlines: seq<Time>, k: nat)
    requires k < |log|
  {
    && k >= 2
    && log[k - 2].SawDeadline? && log[k - 1].SawClock?
    && log[k].Fired? && log[k - 2].idx <= log[k].current < |deadlines|
    && log[k - 2].deadline == deadlines[log[k - 2].idx]
    && log[k - 1].now >= log[k - 2].deadline
  }

  predicate HoldsDeadline(s: State, idx: nat) {
    idx < |s.deadlines| && s.log != [] && s.log[|s.log| - 1] == SawDeadline(idx, s.deadlines[idx])
  }

  predicate Inv(s: State) {
    && s.deadlines != []
    && (forall k {:trigger s.log[k]} :: 0 <= k < |s.log| && s.log[k].Fired? ==>
          Justified(s.log, s.deadlines, k) && s.expired)
    && match s.pc
       case ReadClock(idx) => HoldsDeadline(s, idx)
       case RereadClock(idx) => HoldsDeadline(s, idx)
       case Decide(idx, now) => Observed(s.log, s.deadlines, idx, now)
       case Redecide(idx, now) => Observed(s.log, s.deadlines, idx, now)
       case Sleeping(since, idx) => idx < since <= |s.deadlines|
       case Expiring(idx, now) => Observed(s.log, s.deadlines, idx, now) && now >= s.deadlines[idx]
       case _ => true
  }

  lemma StepKeeps(s: State, a: Action)
    requires Inv(s) && Enabled(s, a)
    ensures Inv(Next(s, a))
  {
    var t := Next(s, a);
    assert s.log <= t.log && s.deadlines <= t.deadlines;
    forall k | 0 <= k < |t.log| && t.log[k].Fired? ensures Justified(t.log, t.deadlines, k) {
      if k < |s.log| { assert Justified(s.log, s.deadlines, k); }
    }
  }

  lemma {:induction false} ScheduleKeeps(s: State, schedule: seq<Action>)
    requires Inv(s)
    ensures Inv(Fold(Tick, s, schedule))
  {
    if schedule != [] {
      var before := Fold(Tick, s, schedule[..|schedule| - 1]);
      ScheduleKeeps(s, schedule[..|schedule| - 1]);
      if Enabled(before, schedule[|schedule| - 1]) { StepKeeps(before, schedule[|schedule| - 1]); }
    }
  }

  /** Whatever is interleaved, and whichever notifications are missed, the timer
      closes `expired` only on a clock reading that reached a deadline it read
      just before, in the same iteration. */
  lemma FiresOnlyWhenDue(s: State, schedule: seq<Action>, k: nat)
    requires Initial(s)
    requires k < |Fold(Tick, s, schedule).log| && Fold(Tick, s, schedule).log[k].Fired?
    ensures Justified(Fold(Tick, s, schedule).log, Fold(Tick, s, schedule).deadlines, k)
  {
    ScheduleKeeps(s, schedule);
  }

  /** The timer holds a clock reading that has reached the deadline it read, or `expired`
      is closed. */
  predicate Due(s: State) {
    s.expired ||
    match s.pc
    case Decide(idx, now) => idx < |s.deadlines| && now >= s.deadlines[idx]
    case Redecide(idx, now) => idx < |s.deadlines| && now >= s.deadlines[idx]
    case Expiring(idx, _) => idx < |s.deadlines|
    case _ => false
  }

  function StepsIn(schedule: seq<Action>): nat {
    if schedule == [] then 0
    else StepsIn(schedule[..|schedule| - 1]) + (if schedule[|schedule| - 1] == TimerStep then 1 else 0)
  }

  /** And conversely: once a reading has reached the deadline, nothing keeps the timer's
      next two steps from closing `expired`, not even a new deadline. */
  lemma {:induction false} DueIsExpired(s: State, schedule: seq<Action>)
    requires Due(s)
    ensures var t := Fold(Tick, s, schedule);
            && Due(t) && (StepsIn(schedule) >= 2 ==> t.expired)
            && (StepsIn(schedule) == 1 ==> t.expired || t.pc.Expiring?)
  {
    if schedule != [] { DueIsExpired(s, schedule[..|schedule| - 1]); }
  }

  /** If reading, checking and closing are not interrupted by `set_expiration`, the
      reading had reached the deadline in force when `expired` was closed. So the
      closing is early exactly when that deadline is beyond the reading, and then
      another one was set after the timer read its own. */
  lemma EarlyOnlyWhenSuperseded(s: State, schedule: seq<Action>, k: nat)
    requires Initial(s)
    requires k < |Fold(Tick, s, schedule).log| && Fold(Tick, s, schedule).log[k].Fired?
    ensures var t := Fold(Tick, s, schedule);
            k >= 2 && t.log[k - 2].SawDeadline? && t.log[k - 1].SawClock? &&
            var read, current, now := t.log[k - 2].idx, t.log[k].current, t.log[k - 1].now;
            && read <= current < |t.deadlines|
            && (read == current ==> now >= t.deadlines[current])
            && (now < t.deadlines[current] ==> read < current && t.deadlines[read] <= now)
  {
    FiresOnlyWhenDue(s, schedule, k);
  }

  /** Interrupted, the lease is cut short: an extension between the timer's read and
      its check is missed. */
  lemma ExtensionCanBeMissed() returns (s: State, schedule: seq<Action>)
    ensures Initial(s)
    ensures var t := Fold(Tick, s, schedule);
            t.deadlines != [] && t.expired && t.clock < Deadline(t) && Fired(1) in t.log
  {
    s := State([10], 10, false, CheckExpired, []);
    var s1 := State([10], 10, false, ReadDeadline, []);
    var log := [SawDeadline(0, 10)];
    var s2 := State([10], 10, false, ReadClock(0), log);
    var s3 := State([10, 100], 10, false, ReadClock(0), log);
    var s4 := State([10, 100], 10, false, Decide(0, 10), log + [SawClock(10)]);
    var s5 := State([10, 100], 10, false, Expiring(0, 10), log + [SawClock(10)]);
    var s6 := State([10, 100], 10, true, Exited, log + [SawClock(10)] + [Fired(1)]);
    Ends(s5, TimerStep, s6);
    Leads(s4, TimerStep, s5, [TimerStep], s6);
    Leads(s3, TimerStep, s4, [TimerStep] + [TimerStep], s6);
    schedule := [TimerStep] + ([TimerStep] + [TimerStep]);
    Leads(s2, SetExpiration(100), s3, schedule, s6);
    schedule := [SetExpiration(100)] + schedule;
    Leads(s1, TimerStep, s2, schedule, s6);
    schedule := [TimerStep] + schedule;
    Leads(s, TimerStep, s1, schedule, s6);
    schedule := [TimerStep] + schedule;
    assert s6.log[2] == Fired(1);
  }

  lemma Ends(s: State, a: Action, t: State)
    requires Tick(s, a) == t
    ensures Fold(Tick, s, [a]) == t
  {
    FoldOne(Tick, s, a);
  }

  lemma Leads(s: State, a: Action, next: State, rest: seq<Action>, t: State)
    requires Tick(s, a) == next && Fold(Tick, next, rest) == t
    ensures Fold(Tick, s, [a] + rest) == t
  {
    FoldOne(Tick, s, a);
    FoldConcat(Tick, s, [a], rest);
  }

  /** Once the clock has reached the deadline, a timer that is no longer
      disturbed closes `expired` within five steps of its sleep ending. */
  lemma FiresWhenSleepEnds(s: State)
    requires Inv(s) && s.pc.Sleeping? && s.clock >= Deadline(s)
    ensures var reread := Tick(Tick(s, SleepEnds), TimerStep);
            var decided := Tick(Tick(reread, TimerStep), TimerStep);
            decided.pc.Expiring? && Tick(decided, TimerStep).expired && Tick(decided, TimerStep).pc == Exited
  {
    var last := |s.deadlines| - 1;
    assert Tick(Tick(s, SleepEnds), TimerStep).pc == RereadClock(last);
  }

  // ---------- Shortened leases ----------

  predicate NoNewLease(schedule: seq<Action>) {
    forall n :: 0 <= n < |schedule| ==> !schedule[n].SetExpiration?
  }

  /** The timer sleeps until a deadline that is no longer in force, and nothing is
      going to wake it before. */
  predicate Oversleeps(s: State) {
    s.pc.Sleeping? && s.pc.since == |s.deadlines| && s.pc.idx + 1 < |s.deadlines|
  }

  /** The timer has read its deadline, and will go to sleep on it. */
  predicate AboutToSleep(s: State) {
    s.pc.ReadClock? || (s.pc.Decide? && s.pc.idx < |s.deadlines| && s.deadlines[s.pc.idx] > s.pc.now)
  }

  /** Whatever deadline the timer holds and may sleep on, it is the one in force, or
      a notification is due. */
  predicate Heeds(s: State) {
    match s.pc
    case ReadClock(idx) => idx + 1 == |s.deadlines|
    case Decide(idx, now) => idx + 1 == |s.deadlines| || (idx < |s.deadlines| && s.deadlines[idx] <= now)
    case Sleeping(since, idx) => idx + 1 == |s.deadlines| || since < |s.deadlines|
    case _ => true
  }

  lemma {:induction false} HeedsOn(s: State, schedule: seq<Action>)
    requires Inv(s) && Heeds(s) && NoNewLease(schedule)
    ensures Heeds(Fold(Tick, s, schedule))
  {
    if schedule != [] {
      var before := schedule[..|schedule| - 1];
      HeedsOn(s, before);
      ScheduleKeeps(s, before);
      HeedsStep(Fold(Tick, s, before), schedule[|schedule| - 1]);
    }
  }

  lemma HeedsStep(s: State, a: Action)
    requires Inv(s) && Heeds(s) && !a.SetExpiration?
    ensures Heeds(Tick(s, a))
  {}

  /** A clock reading before its deadline, and the timer is asleep. */
  lemma GoesToSleep(s: State) returns (schedule: seq<Action>)
    requires Inv(s) && AboutToSleep(s)
    ensures NoNewLease(schedule)
    ensures Fold(Tick, s, schedule).pc == Sleeping(|s.deadlines|, s.pc.idx)
    ensures Fold(Tick, s, schedule).deadlines == s.deadlines
  {
    if s.pc.ReadClock? {
      var idx, now := s.pc.idx, s.deadlines[s.pc.idx] - 1;
      var s1 := s.(clock := now);
      var s2 := s1.(pc := Decide(idx, now), log := s.log + [SawClock(now)]);
      var s3 := s2.(pc := Sleeping(|s.deadlines|, idx));
      Ends(s2, TimerStep, s3);
      Leads(s1, TimerStep, s2, [TimerStep], s3);
      Leads(s, ClockReads(now), s1, [TimerStep] + [TimerStep], s3);
      schedule := [ClockReads(now)] + ([TimerStep] + [TimerStep]);
    } else {
      Ends(s, TimerStep, s.(pc := Sleeping(|s.deadlines|, s.pc.idx)));
      schedule := [TimerStep];
    }
  }

  /** A lease set at some moment, say a shorter one, can be slept through if and only
      if it is set after the timer read the deadline it then goes to sleep on, and
      before that sleep begins. Set at any other moment it is either read before the
      next sleep, or wakes the timer. */
  lemma NewLeaseSleptThroughExactlyWhen(s: State, before: seq<Action>, deadline: Time)
    requires Initial(s)
    ensures var t := Fold(Tick, s, before);
            AboutToSleep(t) <==>
            exists after ::
              NoNewLease(after) && Oversleeps(Fold(Tick, Tick(t, SetExpiration(deadline)), after))
  {
    ScheduleKeeps(s, before);
    var t := Fold(Tick, s, before);
    var u := Tick(t, SetExpiration(deadline));
    StepKeeps(t, SetExpiration(deadline));
    if AboutToSleep(t) {
      var after := GoesToSleep(u);
      assert NoNewLease(after) && Oversleeps(Fold(Tick, u, after));
    } else {
      forall after | NoNewLease(after) ensures !Oversleeps(Fold(Tick, u, after)) { HeedsOn(u, after); }
    }
  }

  /** Nothing but the end of the sleep, a newer lease or the driver. */
  predicate Undisturbed(schedule: seq<Action>) {
    forall n :: 0 <= n < |schedule| ==>
      schedule[n] != SleepEnds && !schedule[n].SetExpiration? && schedule[n] != DriverExpires
  }

  lemma {:induction false} SleepsOn(s: State, schedule: seq<Action>)
    requires Oversleeps(s) && Undisturbed(schedule)
    ensures var t := Fold(Tick, s, schedule);
            t.pc == s.pc && t.deadlines == s.deadlines && t.expired == s.expired
  {
    if schedule != [] { SleepsOn(s, schedule[..|schedule| - 1]); }
  }

  /** The lease is shortened from 100 to 10 between the timer's read and its sleep.
      At 50 it is long over and the grant has not expired; nor does it, whatever the
      clock reads, until the sleep for the old lease ends. */
  lemma ShorteningCanBeMissed() returns (s: State, schedule: seq<Action>)
    ensures Initial(s)
    ensures var t := Fold(Tick, s, schedule);
            && t.deadlines == [100, 10] && t.clock == 50 && !t.expired && Oversleeps(t)
            && forall after :: Undisturbed(after) ==> !Fold(Tick, t, after).expired
  {
    s := State([100], 0, false, CheckExpired, []);
    var s1 := s.(pc := ReadDeadline);
    var s2 := s.(pc := ReadClock(0), log := [SawDeadline(0, 100)]);
    var s3 := s2.(deadlines := [100, 10]);
    var s4 := s3.(pc := Decide(0, 0), log := s2.log + [SawClock(0)]);
    var s5 := s4.(pc := Sleeping(2, 0));
    var s6 := s5.(clock := 50);
    Ends(s5, ClockReads(50), s6);
    Leads(s4, TimerStep, s5, [ClockReads(50)], s6);
    schedule := [TimerStep] + [ClockReads(50)];
    Leads(s3, TimerStep, s4, schedule, s6);
    schedule := [TimerStep] + schedule;
    Leads(s2, SetExpiration(10), s3, schedule, s6);
    schedule := [SetExpiration(10)] + schedule;
    Leads(s1, TimerStep, s2, schedule, s6);
    schedule := [TimerStep] + schedule;
    Leads(s, TimerStep, s1, schedule, s6);
    schedule := [TimerStep] + schedule;
    forall after | Undisturbed(after) ensures !Fold(Tick, s6, after).expired { SleepsOn(s6, after); }
  }
}
