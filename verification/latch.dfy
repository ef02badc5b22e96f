/** The one-shot latch at the grain of its single shared-memory operations: an
    atomic flag beside a watch channel. Any number of tasks close it and any
    number wait on it, interleaved arbitrarily.

    A watch channel's `send` looks for receivers first and changes nothing when
    there are none; `subscribe` marks the current version as seen; `changed`
    completes once the version differs from the one last seen. */
module LatchProtocol {
  import opened Folds

  /** A call of `close`: swap the flag; the caller that found it open then sends. */
  datatype Closer =
    | Start
    | Swapped                // won the swap, about to look for receivers
    | Sending                // saw a receiver, about to replace the value
    | Finished(won: bool)

  /** A reader and the wait it may be in. From `Subscribed` on it holds a receiver. */
  datatype Waiter =
    | Absent
    | Subscribed(seen: nat)  // a reader exists, no wait in progress
    | Checked(seen: nat)     // the flag read as open
    | Looping(seen: nat)     // about to borrow the value
    | Awaiting(seen: nat)    // the value read as false; inside `changed`
    | Returned(seen: nat)    // the wait is over

  datatype State = State(
    closed: bool,
    value: bool,
    version: nat,
    closers: seq<Closer>,
    waiters: seq<Waiter>)

  datatype Action =
    | Swap(c: nat)
    | Count(c: nat)
    | Replace(c: nat)
    | Subscribe(w: nat)
    | Clone(from: nat, w: nat)  // a clone has seen what the reader it is made from has
    | Check(w: nat)
    | CloneReceiver(w: nat)
    | Borrow(w: nat)
    | Changed(w: nat)
    | Cancel(w: nat)         // the waiting future is dropped, the reader kept
    | Drop(w: nat)           // the reader is dropped

  predicate HasReceiver(s: State) {
    exists w :: 0 <= w < |s.waiters| && !s.waiters[w].Absent?
  }

  predicate InWait(w: Waiter) { w.Checked? || w.Looping? || w.Awaiting? }

  predicate Enabled(s: State, a: Action) {
    match a
    case Swap(c) => c < |s.closers| && s.closers[c].Start?
    case Count(c) => c < |s.closers| && s.closers[c].Swapped?
    case Replace(c) => c < |s.closers| && s.closers[c].Sending?
    case Subscribe(w) => w < |s.waiters| && s.waiters[w].Absent?
    case Clone(from, w) =>
      from < |s.waiters| && !s.waiters[from].Absent? && w < |s.waiters| && s.waiters[w].Absent?
    case Check(w) => w < |s.waiters| && s.waiters[w].Subscribed?
    case CloneReceiver(w) => w < |s.waiters| && s.waiters[w].Checked?
    case Borrow(w) => w < |s.waiters| && s.waiters[w].Looping?
    case Changed(w) => w < |s.waiters| && s.waiters[w].Awaiting? && s.waiters[w].seen != s.version
    case Cancel(w) => w < |s.waiters| && InWait(s.waiters[w])
    case Drop(w) => w < |s.waiters| && (s.waiters[w].Subscribed? || s.waiters[w].Returned?)
  }

  function Next(s: State, a: Action): State
    requires Enabled(s, a)
  {
    match a
    case Swap(c) =>
      s.(closed := true, closers := s.closers[c := if s.closed then Finished(false) else Swapped])
    case Count(c) =>
      s.(closers := s.closers[c := if HasReceiver(s) then Sending else Finished(true)])
    case Replace(c) =>
      s.(value := true, version := s.version + 1, closers := s.closers[c := Finished(true)])
    case Subscribe(w) => s.(waiters := s.waiters[w := Subscribed(s.version)])
    case Clone(from, w) => s.(waiters := s.waiters[w := Subscribed(s.waiters[from].seen)])
    case Check(w) =>
      var seen := s.waiters[w].seen;
      s.(waiters := s.waiters[w := if s.closed then Returned(seen) else Checked(seen)])
    case CloneReceiver(w) => s.(waiters := s.waiters[w := Looping(s.waiters[w].seen)])
    case Borrow(w) =>
      s.(waiters := s.waiters[w := if s.value then Returned(s.version) else Awaiting(s.version)])
    case Changed(w) => s.(waiters := s.waiters[w := Looping(s.version)])
    case Cancel(w) => s.(waiters := s.waiters[w := Subscribed(s.waiters[w].seen)])
    case Drop(w) => s.(waiters := s.waiters[w := Absent])
  }

  predicate Initial(s: State) {
    && !s.closed && !s.value && s.version == 0
    && (forall c :: 0 <= c < |s.closers| ==> s.closers[c].Start?)
    && (forall w :: 0 <= w < |s.waiters| ==> s.waiters[w].Absent?)
  }

  /** One event of a schedule; an action that is not possible changes nothing. */
  function Act(s: State, a: Action): State {
    if Enabled(s, a) then Next(s, a) else s
  }

  // ---------- Invariant ----------

  /** The closer that found the flag open. */
  predicate Winner(c: Closer) { c.Swapped? || c.Sending? || c == Finished(true) }

  predicate WinnerDone(s: State) {
    exists c :: 0 <= c < |s.closers| && s.closers[c] == Finished(true)
  }

  ghost predicate Inv(s: State) {
    && s.version == (if s.value then 1 else 0)
    && (!s.closed ==> !s.value && forall c :: 0 <= c < |s.closers| ==> s.closers[c].Start?)
    && (forall c, d | 0 <= c < |s.closers| && 0 <= d < |s.closers| ::
          Winner(s.closers[c]) && Winner(s.closers[d]) ==> c == d)
    && (s.closed ==> exists c :: 0 <= c < |s.closers| && Winner(s.closers[c]))
    && (s.value ==> WinnerDone(s))
    && (forall w :: 0 <= w < |s.waiters| ==> WaiterOk(s, s.waiters[w]))
  }

  /** A wait that got past its flag check either precedes the winner's look for
      receivers, which will then find it, or runs under the value `true`. */
  ghost predicate WaiterOk(s: State, w: Waiter) {
    && (w.Awaiting? ==> w.seen == 0)
    && (InWait(w) && WinnerDone(s) ==> s.value)
    && (w.Returned? ==> s.closed)
  }

  lemma InitEstablishes(s: State)
    requires Initial(s)
    ensures Inv(s)
  {}

  lemma CloserKeeps(s: State, a: Action)
    requires Inv(s) && Enabled(s, a) && (a.Swap? || a.Count? || a.Replace?)
    ensures Inv(Next(s, a))
  {
    var t := Next(s, a);
    assert t.closers[a.c] != s.closers[a.c];
    assert forall c :: 0 <= c < |s.closers| && c != a.c ==> t.closers[c] == s.closers[c];
    if a.Swap? && s.closed {
      var c :| 0 <= c < |s.closers| && Winner(s.closers[c]);
      assert Winner(t.closers[c]);
      assert WinnerDone(t) ==> WinnerDone(s);
      assert WinnerDone(s) ==> WinnerDone(t);
    } else {
      assert Winner(t.closers[a.c]);
      if a.Count? { assert Winner(s.closers[a.c]); }
      if a.Replace? { assert Winner(s.closers[a.c]); assert t.closers[a.c] == Finished(true); }
    }
  }

  lemma WaiterKeeps(s: State, a: Action)
    requires Inv(s) && Enabled(s, a) && !(a.Swap? || a.Count? || a.Replace?)
    ensures Inv(Next(s, a))
  {
    var t := Next(s, a);
    assert t.closers == s.closers;
    assert WinnerDone(t) == WinnerDone(s);
    forall w | 0 <= w < |t.waiters| ensures WaiterOk(t, t.waiters[w]) {
      assert WaiterOk(s, s.waiters[w]);
    }
  }

  /** Every reachable state satisfies the invariant. */
  lemma {:induction false} ScheduleKeeps(s: State, schedule: seq<Action>)
    requires Inv(s)
    ensures Inv(Fold(Act, s, schedule))
  {
    if schedule != [] {
      var before, a := Fold(Act, s, schedule[..|schedule| - 1]), schedule[|schedule| - 1];
      ScheduleKeeps(s, schedule[..|schedule| - 1]);
      if Enabled(before, a) {
        if a.Swap? || a.Count? || a.Replace? { CloserKeeps(before, a); } else { WaiterKeeps(before, a); }
      }
    }
  }

  // ---------- No wake-up is lost ----------

  /** Inside `changed` with nothing new to see: only a later send could wake it. */
  predicate Blocked(s: State, w: nat)
    requires w < |s.waiters|
  {
    s.waiters[w].Awaiting? && s.waiters[w].seen == s.version
  }

  /** Once the winning closer has finished, no waiter is blocked, whether or not
      its send found a receiver; and a wait never ends before the latch closed.
      At most one value is ever sent. */
  lemma NoLostWakeUp(s: State, schedule: seq<Action>)
    requires Initial(s)
    ensures var t := Fold(Act, s, schedule);
            && (WinnerDone(t) ==> forall w :: 0 <= w < |t.waiters| ==> !Blocked(t, w))
            && (forall w :: 0 <= w < |t.waiters| && t.waiters[w].Returned? ==> t.closed)
            && t.version <= 1
  {
    InitEstablishes(s);
    ScheduleKeeps(s, schedule);
    var t := Fold(Act, s, schedule);
    forall w | 0 <= w < |t.waiters| && WinnerDone(t) ensures !Blocked(t, w) {
      assert WaiterOk(t, t.waiters[w]);
    }
    forall w | 0 <= w < |t.waiters| && t.waiters[w].Returned? ensures t.closed {
      assert WaiterOk(t, t.waiters[w]);
    }
  }

  /** The number of own steps a wait still needs. */
  function Remaining(s: State, w: nat): nat
    requires w < |s.waiters|
  {
    match s.waiters[w]
    case Checked(_) => 3
    case Awaiting(_) => 2
    case Looping(_) => 1
    case Subscribed(_) => 1
    case _ => 0
  }

  predicate ActsOn(a: Action, w: nat) {
    !a.Swap? && !a.Count? && !a.Replace? && a.w == w
  }

  /** A step of the wait itself. */
  predicate StepOf(a: Action, w: nat) {
    ActsOn(a, w) && (a.Check? || a.CloneReceiver? || a.Borrow? || a.Changed?)
  }

  /** After the winner finished, every wait ends: it always has a step to take,
      each of its steps brings it closer to its return, and no step of another
      task sets it back. */
  lemma WaitsReturn(s: State, a: Action, w: nat)
    requires Inv(s) && WinnerDone(s) && w < |s.waiters|
    ensures (exists b :: Enabled(s, b) && StepOf(b, w)) || s.waiters[w].Absent? || s.waiters[w].Returned?
    ensures Enabled(s, a) && StepOf(a, w) ==> Remaining(Next(s, a), w) < Remaining(s, w)
    ensures Enabled(s, a) && !ActsOn(a, w) ==> Next(s, a).waiters[w] == s.waiters[w]
    ensures Enabled(s, a) ==> WinnerDone(Next(s, a))
  {
    assert WaiterOk(s, s.waiters[w]);
    var c :| 0 <= c < |s.closers| && s.closers[c] == Finished(true);
    assert Winner(s.closers[c]);
    match s.waiters[w] {
      case Subscribed(_) => assert Enabled(s, Check(w)) && StepOf(Check(w), w);
      case Checked(_) => assert Enabled(s, CloneReceiver(w)) && StepOf(CloneReceiver(w), w);
      case Looping(_) => assert Enabled(s, Borrow(w)) && StepOf(Borrow(w), w);
      case Awaiting(_) => assert Enabled(s, Changed(w)) && StepOf(Changed(w), w);
      case _ =>
    }
    if Enabled(s, a) {
      assert Next(s, a).closers[c] == Finished(true);
    }
  }

  // ---------- Schedules ----------

  predicate OfCloser(a: Action, c: nat) {
    (a.Swap? || a.Count? || a.Replace?) && a.c == c
  }

  /** No other step moves a closer, or keeps it from its next one. */
  lemma OthersLeaveCloser(s: State, a: Action, own: Action, c: nat)
    requires OfCloser(own, c) && Enabled(s, own) && a != own
    ensures Enabled(Act(s, a), own) && Act(s, a).closers[c] == s.closers[c]
  {}

  /** A step of anyone that leaves waiter `w` alone, or is not possible. */
  lemma OthersLeaveWaiter(s: State, a: Action, own: Action, w: nat)
    requires StepOf(own, w) && (ActsOn(a, w) ==> StepOf(a, w))
    requires w < |s.waiters| && OwnPoint(s.waiters[w], own)
    requires !(a == own && Enabled(s, a))
    ensures w < |Act(s, a).waiters| && Act(s, a).waiters[w] == s.waiters[w]
  {}

  /** The waiter is where its step `own` comes next. */
  predicate OwnPoint(w: Waiter, own: Action) {
    || (own.Check? && w.Subscribed?) || (own.CloneReceiver? && w.Checked?)
    || (own.Borrow? && w.Looping?) || (own.Changed? && w.Awaiting?)
  }

  lemma FinishedMeansClosed(s: State, c: nat)
    requires Inv(s) && c < |s.closers| && s.closers[c].Finished?
    ensures s.closed
  {}

  // ---------- The object ----------

  /** The latch in place. Its calls run on a schedule in which other tasks act on it
      between any two of their own steps. */
  class Latch {
    var closed: bool
    var value: bool
    var version: nat
    var closers: seq<Closer>
    var waiters: seq<Waiter>

    function View(): State
      reads this
    {
      State(closed, value, version, closers, waiters)
    }

    /** Another task's step. */
    method Other(a: Action)
      modifies this
      ensures View() == Act(old(View()), a)
    {
      if Enabled(View(), a) {
        var t := Next(View(), a);
        closed, value, version, closers, waiters := t.closed, t.value, t.version, t.closers, t.waiters;
      }
    }

    /** Lets the others act until the schedule offers a waiter its next step. */
    method AwaitWaiter(own: Action, w: nat, schedule: seq<Action>, from: nat, ghost start: State)
      returns (ok: bool, at: nat)
      requires from <= |schedule| && View() == Fold(Act, start, schedule[..from])
      requires w < |waiters| && StepOf(own, w) && OwnPoint(waiters[w], own) && Undropped(schedule, w)
      modifies this
      ensures from <= at <= |schedule| && View() == Fold(Act, start, schedule[..at])
      ensures w < |waiters| && waiters[w] == old(waiters[w])
      ensures if ok then at < |schedule| && schedule[at] == own && Enabled(View(), own) else at == |schedule|
    {
      at := from;
      while at < |schedule|
        invariant from <= at <= |schedule| && View() == Fold(Act, start, schedule[..at])
        invariant w < |waiters| && waiters[w] == old(waiters[w])
      {
        if schedule[at] == own && Enabled(View(), own) { return true, at; }
        FoldSnoc(Act, start, schedule, at);
        OthersLeaveWaiter(View(), schedule[at], own, w);
        Other(schedule[at]);
        at := at + 1;
      }
      ok := false;
    }

    /** Lets the others act until the schedule offers a closer its next step. */
    method AwaitCloser(own: Action, c: nat, schedule: seq<Action>, from: nat, ghost start: State)
      returns (ok: bool, at: nat)
      requires from <= |schedule| && View() == Fold(Act, start, schedule[..from])
      requires OfCloser(own, c) && Enabled(View(), own)
      modifies this
      ensures from <= at <= |schedule| && View() == Fold(Act, start, schedule[..at])
      ensures Enabled(View(), own) && closers[c] == old(closers[c])
      ensures if ok then at < |schedule| && schedule[at] == own else at == |schedule|
    {
      at := from;
      while at < |schedule|
        invariant from <= at <= |schedule| && View() == Fold(Act, start, schedule[..at])
        invariant Enabled(View(), own) && closers[c] == old(closers[c])
      {
        if schedule[at] == own { return true, at; }
        FoldSnoc(Act, start, schedule, at);
        OthersLeaveCloser(View(), schedule[at], own, c);
        Other(schedule[at]);
        at := at + 1;
      }
      ok := false;
    }

    /** `close`: the caller that finds the flag open sends, if there is a receiver. */
    method Close(c: nat, schedule: seq<Action>) returns (ended: bool, at: nat)
      requires Inv(View())
      requires c < |closers| && closers[c].Start?
      modifies this
      ensures at <= |schedule| && View() == Fold(Act, old(View()), schedule[..at])
      ensures Inv(View()) && c < |closers|
      ensures if ended then closed && closers[c].Finished? else at == |schedule|
    {
      ghost var start := View();
      assert schedule[..0] == [];
      ended, at := AwaitCloser(Swap(c), c, schedule, 0, start);
      if ended {
        FoldSnoc(Act, start, schedule, at);
        var wasClosed := closed;
        closed, closers := true, closers[c := if wasClosed then Finished(false) else Swapped];
        at := at + 1;
        if !wasClosed { ended, at := Send(c, schedule, at, start); }
      }
      ScheduleKeeps(start, schedule[..at]);
      if ended { FinishedMeansClosed(View(), c); }
    }

    /** `send` on the watch channel. */
    method Send(c: nat, schedule: seq<Action>, from: nat, ghost start: State) returns (ended: bool, at: nat)
      requires from <= |schedule| && View() == Fold(Act, start, schedule[..from])
      requires c < |closers| && closers[c].Swapped?
      modifies this
      ensures at <= |schedule| && View() == Fold(Act, start, schedule[..at]) && c < |closers|
      ensures if ended then closers[c] == Finished(true) else at == |schedule|
    {
      ended, at := AwaitCloser(Count(c), c, schedule, from, start);
      if !ended { return; }
      FoldSnoc(Act, start, schedule, at);
      var any := HasReceiver(View());
      closers := closers[c := if any then Sending else Finished(true)];
      at := at + 1;
      if any { ended, at := Publish(c, schedule, at, start); }
    }

    method Publish(c: nat, schedule: seq<Action>, from: nat, ghost start: State) returns (ended: bool, at: nat)
      requires from <= |schedule| && View() == Fold(Act, start, schedule[..from])
      requires c < |closers| && closers[c].Sending?
      modifies this
      ensures at <= |schedule| && View() == Fold(Act, start, schedule[..at]) && c < |closers|
      ensures if ended then closers[c] == Finished(true) else at == |schedule|
    {
      ended, at := AwaitCloser(Replace(c), c, schedule, from, start);
      if !ended { return; }
      FoldSnoc(Act, start, schedule, at);
      value, version, closers := true, version + 1, closers[c := Finished(true)];
      at := at + 1;
    }

    /** `reader` subscribes to the channel. */
    method Reader(w: nat)
      requires w < |waiters| && waiters[w].Absent?
      modifies this
      ensures View() == Next(old(View()), Subscribe(w))
    {
      waiters := waiters[w := Subscribed(version)];
    }

    /** Reads the flag. */
    method CheckFlag(w: nat, schedule: seq<Action>, from: nat, ghost start: State)
      returns (ok: bool, isClosed: bool, at: nat)
      requires from <= |schedule| && View() == Fold(Act, start, schedule[..from])
      requires w < |waiters| && waiters[w].Subscribed? && Undropped(schedule, w)
      modifies this
      ensures from <= at <= |schedule| && View() == Fold(Act, start, schedule[..at]) && w < |waiters|
      ensures if !ok then at == |schedule| else if isClosed then waiters[w].Returned? else waiters[w].Checked?
    {
      isClosed := false;
      ok, at := AwaitWaiter(Check(w), w, schedule, from, start);
      if ok {
        FoldSnoc(Act, start, schedule, at);
        isClosed := closed;
        waiters := waiters[w := if isClosed then Returned(waiters[w].seen) else Checked(waiters[w].seen)];
        at := at + 1;
      }
    }

    /** Clones the receiver. */
    method CloneRx(w: nat, schedule: seq<Action>, from: nat, ghost start: State) returns (ok: bool, at: nat)
      requires from <= |schedule| && View() == Fold(Act, start, schedule[..from])
      requires w < |waiters| && waiters[w].Checked? && Undropped(schedule, w)
      modifies this
      ensures from <= at <= |schedule| && View() == Fold(Act, start, schedule[..at]) && w < |waiters|
      ensures if ok then waiters[w].Looping? else at == |schedule|
    {
      ok, at := AwaitWaiter(CloneReceiver(w), w, schedule, from, start);
      if ok {
        FoldSnoc(Act, start, schedule, at);
        waiters := waiters[w := Looping(waiters[w].seen)];
        at := at + 1;
      }
    }

    /** `borrow_and_update`: reads the value and remembers its version. */
    method BorrowValue(w: nat, schedule: seq<Action>, from: nat, ghost start: State)
      returns (ok: bool, seen: bool, at: nat)
      requires from <= |schedule| && View() == Fold(Act, start, schedule[..from])
      requires w < |waiters| && waiters[w].Looping? && Undropped(schedule, w)
      modifies this
      ensures from <= at <= |schedule| && View() == Fold(Act, start, schedule[..at]) && w < |waiters|
      ensures if !ok then at == |schedule| else if seen then waiters[w].Returned? else waiters[w].Awaiting?
    {
      seen := false;
      ok, at := AwaitWaiter(Borrow(w), w, schedule, from, start);
      if ok {
        FoldSnoc(Act, start, schedule, at);
        seen := value;
        waiters := waiters[w := if seen then Returned(version) else Awaiting(version)];
        at := at + 1;
      }
    }

    /** `changed`: waits for a version other than the one remembered. */
    method AwaitChange(w: nat, schedule: seq<Action>, from: nat, ghost start: State) returns (ok: bool, at: nat)
      requires from <= |schedule| && View() == Fold(Act, start, schedule[..from])
      requires w < |waiters| && waiters[w].Awaiting? && Undropped(schedule, w)
      modifies this
      ensures from <= at <= |schedule| && View() == Fold(Act, start, schedule[..at]) && w < |waiters|
      ensures if ok then waiters[w].Looping? && at > from else at == |schedule|
    {
      ok, at := AwaitWaiter(Changed(w), w, schedule, from, start);
      if ok {
        FoldSnoc(Act, start, schedule, at);
        waiters := waiters[w := Looping(version)];
        at := at + 1;
      }
    }

    /** Clones a reader. */
    method CloneReader(from: nat, w: nat)
      requires from < |waiters| && !waiters[from].Absent? && w < |waiters| && waiters[w].Absent?
      modifies this
      ensures View() == Next(old(View()), Clone(from, w))
    {
      waiters := waiters[w := Subscribed(waiters[from].seen)];
    }

    /** `closed`: the flag first, then the value and its changes. It returns only
        when the latch has been closed. */
    method Closed(w: nat, schedule: seq<Action>) returns (ended: bool, at: nat)
      requires Inv(View())
      requires w < |waiters| && waiters[w].Subscribed? && Undropped(schedule, w)
      modifies this
      ensures at <= |schedule| && View() == Fold(Act, old(View()), schedule[..at])
      ensures Inv(View()) && w < |waiters|
      ensures if ended then closed && waiters[w].Returned? else at == |schedule|
    {
      ghost var start := View();
      assert schedule[..0] == [];
      var isClosed: bool;
      ended, isClosed, at := CheckFlag(w, schedule, 0, start);
      if ended && !isClosed { ended, at := WaitForValue(w, schedule, at, start); }
      ScheduleKeeps(start, schedule[..at]);
    }

    method WaitForValue(w: nat, schedule: seq<Action>, from: nat, ghost start: State)
      returns (ended: bool, at: nat)
      requires from <= |schedule| && View() == Fold(Act, start, schedule[..from])
      requires w < |waiters| && waiters[w].Checked? && Undropped(schedule, w)
      modifies this
      ensures at <= |schedule| && View() == Fold(Act, start, schedule[..at]) && w < |waiters|
      ensures if ended then waiters[w].Returned? else at == |schedule|
    {
      ended, at := CloneRx(w, schedule, from, start);
      if !ended { return; }
      while true
        invariant at <= |schedule| && View() == Fold(Act, start, schedule[..at])
        invariant w < |waiters| && waiters[w].Looping?
        decreases |schedule| - at
      {
        var seen: bool;
        ended, seen, at := BorrowValue(w, schedule, at, start);
        if !ended || seen { return; }
        ended, at := AwaitChange(w, schedule, at, start);
        if !ended { return; }
      }
    }
  }

  /** The reader and its wait are not dropped. */
  predicate Undropped(schedule: seq<Action>, w: nat) {
    forall n :: 0 <= n < |schedule| && ActsOn(schedule[n], w) ==> StepOf(schedule[n], w)
  }
}
