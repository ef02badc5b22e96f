/** What the driver's loop makes of a message, a heartbeat and a failure, and what it
    puts on the outbound queue, on every schedule. */
module LoopLaws {
  import opened Ids
  import opened Folds
  import opened DriverLoop
  import C = Cluster

  predicate NoGo(schedule: seq<Event>) { forall n :: 0 <= n < |schedule| ==> !schedule[n].Go? }

  // ---------- A message of the stream ----------

  /** Until its next step the driver stays where it is, with snapshot, heartbeat and queue. */
  lemma {:induction false} StaysReceived(l: Loop, schedule: seq<Event>)
    requires l.pc.Received? && NoGo(schedule)
    ensures var t := Played(l, schedule);
            t.pc == l.pc && t.cluster == l.cluster && t.heartbeat == l.heartbeat && t.frames == l.frames
  {
    if schedule != [] {
      StaysReceived(l, schedule[..|schedule| - 1]);
    }
  }

  /** The snapshot after a message: a cluster message that applies gives the new one. */
  predicate SnapshotIs(before: C.Map, join: Join, after: C.Map) {
    if join.ClusterMessage? && C.Apply(before, join.message).Ok? then C.Apply(before, join.message) == Ok(after)
    else after == before
  }

  /** Where the handling of a message leads. */
  ghost predicate LeadsTo(join: Join, pc: Pc) {
    match join
    case SessionClosed => pc == Aborted
    case Established(ttl) => pc == Handled(Some(ttl))
    case HeartbeatAck(ttl) => pc == Handled(Some(ttl))
    case ClientMessage(_, _) => pc.Handling?
    case _ => pc == Handled(None)
  }

  lemma GoInspects(l: Loop)
    requires l.pc.Received?
    ensures var t := Take(l, Go);
            && SnapshotIs(l.cluster, l.pc.join, t.cluster) && LeadsTo(l.pc.join, t.pc)
            && t.heartbeat == l.heartbeat && t.frames == l.frames && t.s == l.s
  {}

  /** A message that wakes the driver is handled with its next step, whatever comes
      between: the snapshot changes by a cluster message that applies and by nothing
      else; a closed session ends the task at once; a session message leaves its ttl. */
  lemma MessageIsHandled(l: Loop, join: Join, between: seq<Event>)
    requires l.pc.Waiting? && NoGo(between)
    ensures var t := Played(l, [Offer(Inbound(join))] + between + [Go]);
            && SnapshotIs(l.cluster, join, t.cluster) && LeadsTo(join, t.pc)
            && t.heartbeat == l.heartbeat && t.frames == l.frames
  {
    FoldConcat(Take, l, [Offer(Inbound(join))] + between, [Go]);
    FoldConcat(Take, l, [Offer(Inbound(join))], between);
    FoldOne(Take, l, Offer(Inbound(join)));
    var r := Take(l, Offer(Inbound(join)));
    StaysReceived(r, between);
    FoldOne(Take, Played(r, between), Go);
    GoInspects(Played(r, between));
  }

  /** The interval is renewed by the ttl of a message just handled, and by nothing else;
      and the snapshot changes only while a cluster message is handled. */
  lemma OnlyMessagesChange(l: Loop, e: Event)
    ensures Take(l, e).heartbeat != l.heartbeat ==> l.pc == Handled(Take(l, e).heartbeat)
    ensures l.pc.Handled? && l.pc.ttl.Some? ==> Take(l, Go).heartbeat == l.pc.ttl
    ensures Take(l, e).cluster != l.cluster ==> e == Go && l.pc.Received? && l.pc.join.ClusterMessage?
  {}

  // ---------- Exits ----------

  /** The heartbeat could not be sent, or the stream broke or ended. */
  ghost predicate Fails(wake: Wake) { wake == Heartbeat(false) || wake.StreamFailed? || wake.StreamEnded? }

  ghost predicate Leaves(pc: Pc, ok: bool) { pc == CleaningUp(ok) || pc == Ended(ok) }

  lemma {:induction false} ExitIsFinal(l: Loop, schedule: seq<Event>, ok: bool)
    requires Leaves(l.pc, ok)
    ensures var t := Played(l, schedule);
            Leaves(t.pc, ok) && t.frames == l.frames && t.cluster == l.cluster && (l.pc.Ended? ==> t.pc.Ended?)
  {
    if schedule != [] { ExitIsFinal(l, schedule[..|schedule| - 1], ok); }
  }

  /** A failure in `select!` ends the task with an error: it cleans up, and neither
      deregisters nor ends the session nor handles another message. */
  lemma FailureCleansUp(l: Loop, wake: Wake, after: seq<Event>)
    requires l.pc.Waiting? && Fails(wake)
    ensures var t := Played(l, [Offer(wake)] + after);
            Leaves(t.pc, false) && t.frames == l.frames && t.cluster == l.cluster
  {
    FoldConcat(Take, l, [Offer(wake)], after);
    FoldOne(Take, l, Offer(wake));
    ExitIsFinal(Take(l, Offer(wake)), after, false);
  }

  /** A task cut short by a closed session stays so: its latch stays open, and only
      timers still change the table. */
  lemma {:induction false} AbortIsFinal(l: Loop, schedule: seq<Event>)
    requires l.pc.Aborted?
    ensures var t := Played(l, schedule);
            t.pc.Aborted? && t.frames == l.frames && t.cluster == l.cluster && t.s.table == l.s.table
            && t.s.closed == l.s.closed
  {
    if schedule != [] { AbortIsFinal(l, schedule[..|schedule| - 1]); }
  }

  lemma StepExits(l: Loop)
    ensures var t := Take(l, Go);
            && (t.pc.Aborted? ==> l.pc.Aborted? || l.pc == Received(Join.SessionClosed))
            && (Leaves(t.pc, false) ==> Leaves(l.pc, false))
            && (Leaves(t.pc, true) ==> Leaves(l.pc, true) || l.pc.SayingClosed?)
            && (t.pc.Ended? && !l.pc.Ended? ==> l.s.table == map[])
  {}

  lemma OtherEventExits(l: Loop, e: Event)
    requires !e.Go?
    ensures var t := Take(l, e);
            || t.pc == l.pc
            || (l.pc.Waiting? && e.Offer? && !t.pc.Aborted? && !Leaves(t.pc, true) && !t.pc.Ended?
                && (Leaves(t.pc, false) <==> Fails(e.wake)))
  {}

  /** A closed session among the messages is the only way to that end, and a failure of
      heartbeat or stream the only way to a clean-up with an error. */
  lemma ExitsHaveReasons(l: Loop, e: Event)
    ensures Take(l, e).pc.Aborted? ==> l.pc.Aborted? || (e.Go? && l.pc == Received(Join.SessionClosed))
    ensures Leaves(Take(l, e).pc, false) ==> Leaves(l.pc, false) || (l.pc.Waiting? && e.Offer? && Fails(e.wake))
    ensures Leaves(Take(l, e).pc, true) ==> Leaves(l.pc, true) || l.pc.SayingClosed?
    ensures Take(l, e).pc.Ended? && !l.pc.Ended? ==> e.Go? && l.s.table == map[]
  {
    if e.Go? { StepExits(l); } else { OtherEventExits(l, e); }
  }

  // ---------- The outbound queue ----------

  function Heartbeats(n: nat): seq<Frame> { seq(n, _ => HeartbeatFrame) }

  /** What follows the heartbeats at a clean exit: Deregister, then the end of the session. */
  function Goodbye(pc: Pc): seq<Frame> {
    match pc
    case SayingClosed => [Deregister]
    case CleaningUp(ok) => if ok then [Deregister, ClosedFrame] else []
    case Ended(ok) => if ok then [Deregister, ClosedFrame] else []
    case _ => []
  }

  /** The step sends a heartbeat. */
  predicate Beats(l: Loop, e: Event) { l.pc.Waiting? && e.Offer? && e.wake.Heartbeat? && e.wake.sent }

  lemma TakeKeepsQueue(l: Loop, e: Event, sent: nat)
    requires l.frames == Heartbeats(sent) + Goodbye(l.pc)
    ensures var t := Take(l, e);
            t.frames == Heartbeats(if Beats(l, e) then sent + 1 else sent) + Goodbye(t.pc)
  {
    var t := Take(l, e);
    if Beats(l, e) {
      assert Heartbeats(sent + 1) == Heartbeats(sent) + [HeartbeatFrame];
    } else if l.pc.SayingClosed? && e.Go? {
      assert Heartbeats(sent) + [Deregister] + [ClosedFrame] == Heartbeats(sent) + [Deregister, ClosedFrame];
    } else {
      QuietStep(l, e);
    }
  }

  lemma QuietStep(l: Loop, e: Event)
    requires !Beats(l, e) && !(l.pc.SayingClosed? && e.Go?)
    ensures var t := Take(l, e);
            if l.pc.Deregistering? && e.Go? then Goodbye(t.pc) == [Deregister] && t.frames == l.frames + [Deregister]
            else Goodbye(t.pc) == Goodbye(l.pc) && t.frames == l.frames
  {}

  /** How many heartbeats a schedule makes the driver send. */
  function Beaten(schedule: seq<Event>): nat {
    if schedule == [] then 0
    else
      var before := schedule[..|schedule| - 1];
      Beaten(before) + (if Beats(Played(START, before), schedule[|schedule| - 1]) then 1 else 0)
  }

  /** On every schedule the queue holds the heartbeats that fired while the driver waited,
      and at a clean exit after them Deregister and the end of the session, once each and
      in this order; nothing else. */
  lemma {:induction false} QueueOrder(schedule: seq<Event>)
    ensures var l := Played(START, schedule);
            l.frames == Heartbeats(Beaten(schedule)) + Goodbye(l.pc)
  {
    if schedule != [] {
      var before := schedule[..|schedule| - 1];
      QueueOrder(before);
      TakeKeepsQueue(Played(START, before), schedule[|schedule| - 1], Beaten(before));
    }
  }
}
