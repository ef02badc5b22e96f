/** The driver's task as a machine: its loop over `select!`, the handling of one
    message, its exits. Between any two of its steps others may ask for a shutdown
    and timers may fire. */
module DriverLoop {
  import opened Ids
  import opened Folds
  import S = Consumer
  import H = ConsumerHistory
  import C = Cluster

  /** A message of the stream. */
  datatype Join =
    | Nothing                                             // no message, or an empty one
    | Established(ttl: Time) | HeartbeatAck(ttl: Time)
    | SessionClosed | SessionOther
    | ClusterMessage(message: C.Message)
    | ClientMessage(client: S.ClientMessage, clock: nat -> Time)

  /** A branch of the `select!`, with what it yields. `sent` tells whether the
      outbound queue took the heartbeat. */
  datatype Wake =
    | Shutdown
    | Heartbeat(sent: bool)
    | Inbound(join: Join)
    | StreamFailed
    | StreamEnded

  /** One entry of a schedule. */
  datatype Event =
    | Request                          // someone asks for a shutdown
    | TimerFires(id: GrantId, inc: nat)
    | Offer(wake: Wake)                // `select!` looks at this branch
    | Go                               // the driver takes its next step
    | Pick(id: GrantId)                // the clean-up comes to this entry

  datatype Pc =
    | Top                              // about to look at the guard
    | Waiting(armed: bool)             // in `select!`; `armed` is what the guard said
    | Received(join: Join)
    | Handling(left: seq<S.Item>)
    | Handled(ttl: Option<Time>)
    | Deregistering
    | SayingClosed
    | CleaningUp(ok: bool)
    | Ended(ok: bool)
    | Aborted                          // the early return, with no clean-up

  datatype Frame = Deregister | ClosedFrame | HeartbeatFrame

  datatype Loop = Loop(
    pc: Pc,
    shutdown: bool,                    // the latch that a request closes
    heartbeat: Option<Time>,           // the ttl of the interval, if the session set one
    frames: seq<Frame>,
    cluster: C.Map,
    s: S.Table)

  const START := Loop(Top, false, None, [], C.EMPTY, S.EMPTY)

  /** A branch is ready: the others when the scheduler says so, the request's when its
      latch is closed and the guard, evaluated on entry, did not disable it. */
  predicate Fires(armed: bool, shutdown: bool, wake: Wake) {
    wake.Shutdown? ==> armed && shutdown
  }

  function Woken(l: Loop, wake: Wake): Loop {
    match wake
    case Shutdown => l.(pc := Deregistering)
    case Heartbeat(sent) =>
      l.(pc := if sent then Top else CleaningUp(false),
         frames := if sent then l.frames + [HeartbeatFrame] else l.frames)
    case Inbound(join) => l.(pc := Received(join))
    case StreamFailed => l.(pc := CleaningUp(false))
    case StreamEnded => l.(pc := CleaningUp(false))
  }

  function Inspected(l: Loop, join: Join): Loop {
    match join
    case SessionClosed => l.(pc := Aborted)
    case Established(ttl) => l.(pc := Handled(Some(ttl)))
    case HeartbeatAck(ttl) => l.(pc := Handled(Some(ttl)))
    case ClusterMessage(m) => l.(pc := Handled(None), cluster := C.Received(l.cluster, m))
    case ClientMessage(client, clock) => l.(pc := Handling(S.Items(client, clock)))
    case _ => l.(pc := Handled(None))
  }

  /** The driver's next step, where it does not wait. */
  function Stepped(l: Loop): Loop {
    match l.pc
    case Top => l.(pc := Waiting(!l.shutdown))
    case Received(join) => Inspected(l, join)
    case Handling(left) =>
      if left == [] then l.(pc := Handled(None)) else l.(pc := Handling(left[1..]), s := S.Step(l.s, left[0]))
    case Handled(ttl) => l.(pc := Top, heartbeat := if ttl.Some? then ttl else l.heartbeat)
    case Deregistering => l.(pc := SayingClosed, frames := l.frames + [Deregister])
    case SayingClosed => l.(pc := CleaningUp(true), frames := l.frames + [ClosedFrame])
    case CleaningUp(ok) => if l.s.table == map[] then l.(pc := Ended(ok), s := S.Step(l.s, S.IClose)) else l
    case _ => l
  }

  /** One event; one that does not concern the driver where it is changes nothing. */
  function Take(l: Loop, e: Event): Loop {
    match e
    case Request => l.(shutdown := true)
    case TimerFires(id, inc) => l.(s := S.Step(l.s, S.ITimer(id, inc)))
    case Offer(wake) => if l.pc.Waiting? && Fires(l.pc.armed, l.shutdown, wake) then Woken(l, wake) else l
    case Go => Stepped(l)
    case Pick(id) => if l.pc.CleaningUp? && id in l.s.table then l.(s := S.Step(l.s, S.IRemove(id))) else l
  }

  /** What a schedule makes of the driver. */
  function Played(l: Loop, schedule: seq<Event>): Loop {
    Fold(Take, l, schedule)
  }

  lemma PlayedSnoc(l: Loop, schedule: seq<Event>, n: nat)
    requires n < |schedule|
    ensures Played(l, schedule[..n + 1]) == Take(Played(l, schedule[..n]), schedule[n])
  {
    FoldSnoc(Take, l, schedule, n);
  }

  // ---------- How the loop ends ----------

  /** What the step does to the table, if anything. */
  function Done(l: Loop, e: Event): seq<S.Item> {
    match e
    case TimerFires(id, inc) => [S.ITimer(id, inc)]
    case Pick(id) => if l.pc.CleaningUp? && id in l.s.table then [S.IRemove(id)] else []
    case Go =>
      if l.pc.Handling? && l.pc.left != [] then [l.pc.left[0]]
      else if l.pc.CleaningUp? && l.s.table == map[] then [S.IClose] else []
    case _ => []
  }

  predicate NoClose(items: seq<S.Item>) { S.IClose !in items }

  /** The exit is the only one to close the latch, and closes it on an empty table. */
  predicate ExitOk(l: Loop) {
    && (l.s.closed <==> l.pc.Ended?)
    && (l.pc.Ended? ==> l.s.table == map[])
    && (l.pc.Handling? ==> NoClose(l.pc.left))
  }

  lemma {:induction false} BatchHasNoClose(gs: seq<RawGrant>, clock: nat -> Time, n: nat)
    ensures NoClose(S.AssignItems(gs, clock, n))
    decreases |gs|
  {
    if gs != [] { BatchHasNoClose(gs[1..], clock, n + 2); }
  }

  lemma ItemsHaveNoClose(m: S.ClientMessage, clock: nat -> Time)
    ensures NoClose(S.Items(m, clock))
  {
    if m.Assign? { BatchHasNoClose(m.grants, clock, 0); }
  }

  lemma TakeKeepsExit(l: Loop, e: Event)
    requires ExitOk(l)
    ensures ExitOk(Take(l, e))
  {
    if e.Go? && l.pc.Received? && l.pc.join.ClientMessage? { ItemsHaveNoClose(l.pc.join.client, l.pc.join.clock); }
    if e.Go? && l.pc.Handling? && l.pc.left != [] {
      assert l.pc.left[0] in l.pc.left;
      H.StepCloses(l.s, l.pc.left[0]);
    }
  }

  lemma TakeIsDone(l: Loop, e: Event)
    ensures Take(l, e).s == S.Steps(l.s, Done(l, e))
  {
    var items := Done(l, e);
    if items != [] {
      assert items == [items[0]] && items[1..] == [];
      assert S.Steps(S.Step(l.s, items[0]), []) == S.Step(l.s, items[0]);
    }
  }

  /** Whatever the schedule, the table is what some history of items makes of the
      empty one; so all that holds after every history holds in every run. */
  lemma {:induction false} LoopIsHistory(schedule: seq<Event>) returns (items: seq<S.Item>)
    ensures Played(START, schedule).s == S.Steps(S.EMPTY, items)
    ensures ExitOk(Played(START, schedule))
  {
    items := [];
    if schedule != [] {
      var before, e := schedule[..|schedule| - 1], schedule[|schedule| - 1];
      var l := Played(START, before);
      items := LoopIsHistory(before);
      TakeIsDone(l, e);
      TakeKeepsExit(l, e);
      H.StepsConcat(S.EMPTY, items, Done(l, e));
      items := items + Done(l, e);
    }
  }

  /** On every schedule: a run that ended with a `break` has closed the latch and left
      no entry and no Ownership that has not expired. One that goes on, or was cut
      short because the session closed, has not closed it. */
  lemma ExitStates(schedule: seq<Event>)
    ensures var l := Played(START, schedule);
            && (l.s.closed <==> l.pc.Ended?)
            && (l.pc.Ended? ==>
                  l.s.table == map[] && forall id, n :: 0 <= n < |S.Issued(l.s, id)| ==> S.Issued(l.s, id)[n].expired)
  {
    var items := LoopIsHistory(schedule);
    H.LogIsTheTable(items);
  }
}
