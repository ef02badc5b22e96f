/** The driver's task in place: its loop, the handling of messages and its exits, on
    a schedule in which requests to shut down and timers come between its steps. It
    is proved to do, on every schedule, exactly what the machine does. */
module DriverTasks {
  import opened Ids
  import opened DriverLoop
  import opened Drivers
  import S = Consumer
  import C = Cluster
  import E = Effects

  /** How the task's `run` returns. */
  datatype Exit = Pending | Break(ok: bool) | Abrupt

  lemma BatchUnfolds(gs: seq<RawGrant>, clock: nat -> Time, n: nat)
    requires n < |gs|
    ensures var rest := S.AssignItems(gs[n + 1..], clock, 2 * (n + 1));
            S.AssignItems(gs[n..], clock, 2 * n) ==
            if S.AssignedShard(gs[n]).None? then rest
            else [S.IRemove(gs[n].id), S.IAssign(gs[n], clock(2 * n), clock(2 * n + 1))] + rest
  {
    assert gs[n..][0] == gs[n] && gs[n..][1..] == gs[n + 1..];
    var rest := S.AssignItems(gs[n + 1..], clock, 2 * n + 2);
    assert [] + rest == rest;
  }

  /** No timer fires between the two points of the schedule. */
  predicate Quiet(schedule: seq<Event>, from: nat, to: nat) {
    forall n :: from <= n < to && n < |schedule| ==> !schedule[n].TimerFires?
  }

  /** The handling of a message comes to the same table from both. */
  predicate Toward(a: Loop, b: Loop) {
    a.pc.Handling? && b.pc.Handling? && S.Steps(a.s, a.pc.left) == S.Steps(b.s, b.pc.left)
  }

  /** The cluster snapshot after a message of the stream: the new one if it is a message
      for it that applies, else the old one. */
  function ClusterAfter(c: C.Map, join: Join): C.Map {
    if join.ClusterMessage? && C.Apply(c, join.message).Ok? then C.Apply(c, join.message).value else c
  }

  /** The table after a message of the stream. */
  ghost predicate TableAfter(s: S.State, join: Join, t: S.State) {
    if join.ClientMessage? then E.Effect(join.client, join.clock, s, t) else t == s
  }

  class DriverTask {
    const driver: Driver
    const schedule: seq<Event>
    /** How much of the schedule has passed. */
    var at: nat
    ghost const start: Loop
    ghost var held: Loop

    /** The object is as the machine has it. */
    ghost predicate Tracks(l: Loop)
      reads driver, driver.repr, driver.cluster
    {
      && driver.Valid() && l.s == driver.state && l.shutdown == driver.shutdown
      && l.heartbeat == driver.heartbeat && l.frames == driver.frames && l.cluster == driver.cluster.View()
    }

    /** What has passed of the schedule leads to where the machine is held. */
    ghost predicate UpToDate()
      reads this
    {
      at <= |schedule| && forall n {:trigger schedule[..n]} :: n == at ==> held == Played(start, schedule[..n])
    }

    ghost predicate OnSchedule()
      reads this, driver, driver.repr, driver.cluster
    {
      UpToDate() && Tracks(held)
    }

    constructor (schedule: seq<Event>)
      ensures OnSchedule() && fresh(driver) && fresh(driver.repr) && fresh(driver.cluster)
      ensures at == 0 && held == start == START && this.schedule == schedule
    {
      driver := new Driver();
      this.schedule, at := schedule, 0;
      this.start, this.held := START, START;
    }

    /** The schedule moves on, past an event that has had its effect. */
    method Pass()
      requires at < |schedule| && UpToDate()
      requires Tracks(Take(held, schedule[at]))
      modifies this`at, this`held
      ensures OnSchedule() && at == old(at) + 1 && held == Take(old(held), schedule[old(at)])
    {
      Move(Take(held, schedule[at]));
    }

    method Move(ghost next: Loop)
      requires at < |schedule| && UpToDate() && next == Take(held, schedule[at])
      modifies this`at, this`held
      ensures UpToDate() && at == old(at) + 1 && held == next
    {
      PlayedSnoc(start, schedule, at);
      held := next;
      at := at + 1;
    }

    /** Someone asks for a shutdown, or a timer fires; what the driver was not offered
        where it stands changes nothing. */
    method Interfere()
      requires OnSchedule() && at < |schedule|
      requires schedule[at].Request? || schedule[at].TimerFires? || Take(held, schedule[at]) == held
      modifies this`at, this`held, driver`shutdown, driver`state, driver.repr
      ensures OnSchedule() && at == old(at) + 1 && held.pc == old(held).pc
      ensures held.cluster == old(held).cluster && (Quiet(schedule, old(at), at) ==> held.s == old(held).s)
    {
      match schedule[at] {
        case Request => driver.shutdown := true;
        case TimerFires(id, inc) => driver.FireTimer(id, inc);
        case _ =>
      }
      Pass();
    }

    /** The places where the next step is the driver's own. */
    static predicate Active(pc: Pc) { !pc.Waiting? && !pc.CleaningUp? && !pc.Ended? && !pc.Aborted? }

    /** Waits for the scheduler; false when the schedule is over first. */
    method MyTurn() returns (ok: bool)
      requires OnSchedule() && Active(held.pc)
      modifies this`at, this`held, driver`shutdown, driver`state, driver.repr
      ensures OnSchedule() && at >= old(at) && held.pc == old(held).pc
      ensures if ok then at < |schedule| && schedule[at].Go? else at == |schedule|
      ensures held.cluster == old(held).cluster && (Quiet(schedule, old(at), at) ==> held.s == old(held).s)
    {
      while at < |schedule|
        invariant OnSchedule() && at >= old(at) && held.pc == old(held).pc
        invariant held.cluster == old(held).cluster && (Quiet(schedule, old(at), at) ==> held.s == old(held).s)
        decreases |schedule| - at
      {
        if schedule[at].Go? { return true; }
        Interfere();
      }
      ok := false;
    }

    /** `select!`: the branch for a request takes part only if it was enabled when the
        wait began, and then only once the latch is closed. */
    method Select(armed: bool) returns (won: Option<Wake>)
      requires OnSchedule() && held.pc == Waiting(armed)
      modifies this`at, this`held, driver`shutdown, driver`state, driver.repr
      ensures OnSchedule() && at >= old(at)
      ensures won.None? ==> at == |schedule|
      ensures won.Some? ==> at < |schedule| && schedule[at] == Offer(won.value)
      ensures won.Some? ==> held.pc == Waiting(armed) && Fires(armed, driver.shutdown, won.value)
    {
      while at < |schedule|
        invariant OnSchedule() && at >= old(at) && held.pc == Waiting(armed)
        decreases |schedule| - at
      {
        if schedule[at].Offer? && Fires(armed, driver.shutdown, schedule[at].wake) {
          return Some(schedule[at].wake);
        }
        Interfere();
      }
      won := None;
    }

    /** Where the task is now, or that the schedule is over. */
    ghost predicate At(ok: bool, pc: Pc)
      reads this
    {
      if ok then held.pc == pc else at == |schedule|
    }

    // ---------- Messages ----------

    /** Since `from`, when the machine was held at `was`, the message is handled as it
        came, unless a timer fired on the way; the cluster snapshot is left alone. */
    ghost predicate OnTheWay(from: nat, was: Loop)
      reads this
    {
      held.cluster == was.cluster && (Quiet(schedule, from, at) ==> Toward(was, held))
    }

    /** The handling of a message is at item `i`. */
    ghost predicate AtItem(i: S.Item, rest: seq<S.Item>)
      reads this
    {
      held.pc == Handling([i] + rest)
    }

    /** The item has been done. */
    method Next(ghost i: S.Item, ghost rest: seq<S.Item>)
      requires at < |schedule| && schedule[at].Go? && UpToDate() && AtItem(i, rest)
      requires Tracks(held.(s := S.Step(held.s, i)))
      modifies this`at, this`held
      ensures OnSchedule() && at == old(at) + 1 && held.pc == Handling(rest)
      ensures OnTheWay(old(at), old(held))
      ensures held.s == S.Step(old(held).s, i)
    {
      assert ([i] + rest)[1..] == rest;
      Pass();
    }

    /** First half of an Assign: an entry of the same id makes room. */
    method MakeRoom(id: GrantId, ghost rest: seq<S.Item>) returns (ok: bool)
      requires OnSchedule() && AtItem(S.IRemove(id), rest)
      modifies this`at, this`held, driver, driver.repr
      ensures OnSchedule() && driver.repr == old(driver.repr) && at >= old(at) && At(ok, Handling(rest))
      ensures ok ==> id !in driver.grants
      ensures OnTheWay(old(at), old(held))
      ensures ok && Quiet(schedule, old(at), at) ==> held.s == S.Step(old(held).s, S.IRemove(id))
    {
      ok := MyTurn();
      if ok { MakeRoomNow(id, rest); }
    }

    method MakeRoomNow(id: GrantId, ghost rest: seq<S.Item>)
      requires OnSchedule() && AtItem(S.IRemove(id), rest) && at < |schedule| && schedule[at].Go?
      modifies this`at, this`held, driver`grants, driver`state, driver.repr
      ensures OnSchedule() && at > old(at) && held.pc == Handling(rest) && id !in driver.grants
      ensures OnTheWay(old(at), old(held))
      ensures held.s == S.Step(old(held).s, S.IRemove(id))
    {
      driver.Displace(id);
      Next(S.IRemove(id), rest);
    }

    /** Second half: a new Ownership, its entry, and the announcement. */
    method Install(g: RawGrant, shard: Shard, leaseNow: Time, checkNow: Time, ghost rest: seq<S.Item>)
      returns (ok: bool)
      requires OnSchedule() && AtItem(S.IAssign(g, leaseNow, checkNow), rest)
      requires g.id !in driver.grants && S.AssignedShard(g) == Some(shard)
      modifies this`at, this`held, driver, driver.repr
      ensures OnSchedule() && fresh(driver.repr - old(driver.repr)) && at >= old(at) && At(ok, Handling(rest))
      ensures OnTheWay(old(at), old(held))
      ensures ok && Quiet(schedule, old(at), at) ==> held.s == S.Step(old(held).s, S.IAssign(g, leaseNow, checkNow))
    {
      ok := MyTurn();
      if ok { InstallNow(g, shard, leaseNow, checkNow, rest); }
    }

    method InstallNow(g: RawGrant, shard: Shard, leaseNow: Time, checkNow: Time, ghost rest: seq<S.Item>)
      requires OnSchedule() && AtItem(S.IAssign(g, leaseNow, checkNow), rest) && at < |schedule| && schedule[at].Go?
      requires g.id !in driver.grants && S.AssignedShard(g) == Some(shard)
      modifies this`at, this`held, driver`grants, driver`state, driver`issued, driver`repr
      ensures OnSchedule() && fresh(driver.repr - old(driver.repr)) && at > old(at) && held.pc == Handling(rest)
      ensures OnTheWay(old(at), old(held))
      ensures held.s == S.Step(old(held).s, S.IAssign(g, leaseNow, checkNow))
    {
      var deadline := if g.lease.Some? then g.lease.value else leaseNow + S.DEFAULT_LEASE;
      driver.Issue(g, shard, deadline, checkNow);
      Next(S.IAssign(g, leaseNow, checkNow), rest);
    }

    method OnAssign(g: RawGrant, leaseNow: Time, checkNow: Time, ghost rest: seq<S.Item>) returns (ok: bool)
      requires OnSchedule()
      requires if S.AssignedShard(g).None? then held.pc == Handling(rest)
               else held.pc == Handling([S.IRemove(g.id), S.IAssign(g, leaseNow, checkNow)] + rest)
      modifies this`at, this`held, driver, driver.repr
      ensures OnSchedule() && fresh(driver.repr - old(driver.repr)) && at >= old(at) && At(ok, Handling(rest))
      ensures OnTheWay(old(at), old(held))
      ensures ok && Quiet(schedule, old(at), at) ==>
                E.AssignEffect([g], n => if n == 0 then leaseNow else checkNow, old(driver.state), driver.state)
    {
      E.OneAssigned(held.s, g, leaseNow, checkNow);
      var decoded := S.AssignedShard(g);
      if decoded.None? { return true; }
      ok := Replace(g, decoded.value, leaseNow, checkNow, rest);
    }

    /** Makes room for a grant whose shard decodes, and installs it. */
    method Replace(g: RawGrant, shard: Shard, leaseNow: Time, checkNow: Time, ghost rest: seq<S.Item>)
      returns (ok: bool)
      requires OnSchedule() && S.AssignedShard(g) == Some(shard)
      requires held.pc == Handling([S.IRemove(g.id), S.IAssign(g, leaseNow, checkNow)] + rest)
      modifies this`at, this`held, driver, driver.repr
      ensures OnSchedule() && fresh(driver.repr - old(driver.repr)) && at >= old(at) && At(ok, Handling(rest))
      ensures OnTheWay(old(at), old(held))
      ensures ok && Quiet(schedule, old(at), at) ==>
                held.s == S.Step(S.Step(old(held).s, S.IRemove(g.id)), S.IAssign(g, leaseNow, checkNow))
    {
      ghost var second := [S.IAssign(g, leaseNow, checkNow)] + rest;
      assert [S.IRemove(g.id), S.IAssign(g, leaseNow, checkNow)] + rest == [S.IRemove(g.id)] + second;
      ok := MakeRoom(g.id, second);
      if ok { ok := Install(g, shard, leaseNow, checkNow, rest); }
    }

    method AssignNth(gs: seq<RawGrant>, clock: nat -> Time, n: nat) returns (ok: bool)
      requires OnSchedule() && n < |gs| && held.pc == Handling(S.AssignItems(gs[n..], clock, 2 * n))
      modifies this`at, this`held, driver, driver.repr
      ensures OnSchedule() && fresh(driver.repr - old(driver.repr)) && at >= old(at)
      ensures At(ok, Handling(S.AssignItems(gs[n + 1..], clock, 2 * (n + 1))))
      ensures OnTheWay(old(at), old(held))
    {
      BatchUnfolds(gs, clock, n);
      ok := OnAssign(gs[n], clock(2 * n), clock(2 * n + 1), S.AssignItems(gs[n + 1..], clock, 2 * (n + 1)));
    }

    method AssignAll(gs: seq<RawGrant>, clock: nat -> Time) returns (ok: bool)
      requires OnSchedule() && held.pc == Handling(S.AssignItems(gs, clock, 0))
      modifies this`at, this`held, driver, driver.repr
      ensures OnSchedule() && fresh(driver.repr - old(driver.repr)) && at >= old(at) && At(ok, Handling([]))
      ensures OnTheWay(old(at), old(held))
    {
      ok := true;
      for n := 0 to |gs|
        invariant OnSchedule() && fresh(driver.repr - old(driver.repr)) && at >= old(at)
        invariant held.pc == Handling(S.AssignItems(gs[n..], clock, 2 * n))
        invariant OnTheWay(old(at), old(held))
      {
        ok := AssignNth(gs, clock, n);
        if !ok { return; }
      }
    }

    method PromoteOne(g: RawGrant, ghost rest: seq<S.Item>) returns (ok: bool)
      requires OnSchedule() && AtItem(S.IPromote(g), rest)
      modifies this`at, this`held, driver, driver.repr
      ensures OnSchedule() && driver.repr == old(driver.repr) && at >= old(at) && At(ok, Handling(rest))
      ensures OnTheWay(old(at), old(held))
    {
      ok := MyTurn();
      if ok {
        driver.OnPromote(g);
        Next(S.IPromote(g), rest);
      }
    }

    method PromoteAll(gs: seq<RawGrant>, ghost items: seq<S.Item>) returns (ok: bool)
      requires OnSchedule() && held.pc == Handling(items) && |items| == |gs|
      requires forall n :: 0 <= n < |gs| ==> items[n] == S.IPromote(gs[n])
      modifies this`at, this`held, driver, driver.repr
      ensures OnSchedule() && driver.repr == old(driver.repr) && at >= old(at) && At(ok, Handling([]))
      ensures OnTheWay(old(at), old(held))
    {
      ok := true;
      for n := 0 to |gs|
        invariant OnSchedule() && driver.repr == old(driver.repr) && at >= old(at)
        invariant held.pc == Handling(items[n..])
        invariant OnTheWay(old(at), old(held))
      {
        assert items[n..] == [S.IPromote(gs[n])] + items[n + 1..];
        ok := PromoteOne(gs[n], items[n + 1..]);
        if !ok { return; }
      }
    }

    method RevokeOne(g: RawGrant, ghost rest: seq<S.Item>) returns (ok: bool)
      requires OnSchedule() && AtItem(S.IRevoke(g), rest)
      modifies this`at, this`held, driver, driver.repr
      ensures OnSchedule() && driver.repr == old(driver.repr) && at >= old(at) && At(ok, Handling(rest))
      ensures OnTheWay(old(at), old(held))
    {
      ok := MyTurn();
      if ok {
        driver.OnRevoke(g);
        Next(S.IRevoke(g), rest);
      }
    }

    method RevokeAll(gs: seq<RawGrant>, ghost items: seq<S.Item>) returns (ok: bool)
      requires OnSchedule() && held.pc == Handling(items) && |items| == |gs|
      requires forall n :: 0 <= n < |gs| ==> items[n] == S.IRevoke(gs[n])
      modifies this`at, this`held, driver, driver.repr
      ensures OnSchedule() && driver.repr == old(driver.repr) && at >= old(at) && At(ok, Handling([]))
      ensures OnTheWay(old(at), old(held))
    {
      ok := true;
      for n := 0 to |gs|
        invariant OnSchedule() && driver.repr == old(driver.repr) && at >= old(at)
        invariant held.pc == Handling(items[n..])
        invariant OnTheWay(old(at), old(held))
      {
        assert items[n..] == [S.IRevoke(gs[n])] + items[n + 1..];
        ok := RevokeOne(gs[n], items[n + 1..]);
        if !ok { return; }
      }
    }

    method Notify(update: Option<RawGrant>, target: Option<RawGrant>) returns (ok: bool)
      requires OnSchedule() && AtItem(S.INotify(update, target), [])
      modifies this`at, this`held, driver, driver.repr
      ensures OnSchedule() && driver.repr == old(driver.repr) && at >= old(at) && At(ok, Handling([]))
      ensures OnTheWay(old(at), old(held))
    {
      ok := MyTurn();
      if ok {
        driver.OnNotify(update, target);
        Next(S.INotify(update, target), []);
      }
    }

    method Extend(lease: Option<Time>) returns (ok: bool)
      requires OnSchedule() && AtItem(S.IExtend(lease), [])
      modifies this`at, this`held, driver, driver.repr
      ensures OnSchedule() && driver.repr == old(driver.repr) && at >= old(at) && At(ok, Handling([]))
      ensures OnTheWay(old(at), old(held))
    {
      ok := MyTurn();
      if ok {
        driver.OnExtend(lease);
        Next(S.IExtend(lease), []);
      }
    }

    /** Handles a message item by item. On a schedule with no timer on the way, the table
        and every Ownership end as the message's fields say. */
    method HandleClientMessage(m: S.ClientMessage, clock: nat -> Time) returns (ok: bool)
      requires OnSchedule() && held.pc == Handling(S.Items(m, clock))
      modifies this`at, this`held, driver, driver.repr
      ensures OnSchedule() && fresh(driver.repr - old(driver.repr)) && at >= old(at) && At(ok, Handling([]))
      ensures driver.cluster.View() == old(driver.cluster.View())
      ensures ok && Quiet(schedule, old(at), at) ==> E.Effect(m, clock, old(driver.state), driver.state)
    {
      ghost var from, was := at, held;
      ok := HandleItems(m, clock);
      if ok { MessageDone(m, clock, from, was); }
    }

    lemma MessageDone(m: S.ClientMessage, clock: nat -> Time, from: nat, was: Loop)
      requires was.pc == Handling(S.Items(m, clock)) && held.pc == Handling([]) && OnTheWay(from, was)
      ensures Quiet(schedule, from, at) ==> E.Effect(m, clock, was.s, held.s)
    {
      E.MessageEffect(was.s, m, clock);
      assert S.Steps(held.s, []) == held.s;
    }

    method HandleItems(m: S.ClientMessage, clock: nat -> Time) returns (ok: bool)
      requires OnSchedule() && held.pc == Handling(S.Items(m, clock))
      modifies this`at, this`held, driver, driver.repr
      ensures OnSchedule() && fresh(driver.repr - old(driver.repr)) && at >= old(at) && At(ok, Handling([]))
      ensures OnTheWay(old(at), old(held))
    {
      ok := true;
      match m {
        case Assign(gs) => ok := AssignAll(gs, clock);
        case Promote(gs) => ok := PromoteAll(gs, S.Items(m, clock));
        case Revoke(gs) => ok := RevokeAll(gs, S.Items(m, clock));
        case Notify(update, target) =>
          assert S.Items(m, clock) == [S.INotify(update, target)] + [];
          ok := Notify(update, target);
        case Extend(lease) =>
          assert S.Items(m, clock) == [S.IExtend(lease)] + [];
          ok := Extend(lease);
        case Other =>
      }
    }

    /** One message of the stream. It fails only when the session was closed; else it
        gives back the ttl that a session message carries. */
    method HandleInbound(join: Join) returns (ok: bool, r: Result<Option<Time>, ClientError>)
      requires OnSchedule() && held.pc == Received(join)
      modifies this`at, this`held, driver, driver.repr
      ensures OnSchedule() && fresh(driver.repr - old(driver.repr)) && at >= old(at)
      ensures !ok ==> at == |schedule|
      ensures r == match join
                   case SessionClosed => Err(ClientError.SessionClosed)
                   case Established(ttl) => Ok(Some(ttl))
                   case HeartbeatAck(ttl) => Ok(Some(ttl))
                   case _ => Ok(None)
      ensures ok ==> held.pc == if join.SessionClosed? then Aborted else Handled(TtlOf(join))
      ensures ok ==> driver.cluster.View() == ClusterAfter(old(driver.cluster.View()), join)
      ensures ok && Quiet(schedule, old(at), at) ==> TableAfter(old(driver.state), join, driver.state)
    {
      r := if join.SessionClosed? then Err(ClientError.SessionClosed) else Ok(TtlOf(join));
      ok := MyTurn();
      if !ok { return; }
      match join {
        case ClusterMessage(message) => ApplyCluster(message);
        case ClientMessage(client, clock) => ok := HandleClient(client, clock);
        case _ => Glance(join);
      }
    }

    /** A message that concerns neither the cluster nor the table. */
    method Glance(join: Join)
      requires OnSchedule() && held.pc == Received(join) && !join.ClusterMessage? && !join.ClientMessage?
      requires at < |schedule| && schedule[at].Go?
      modifies this`at, this`held
      ensures OnSchedule() && at == old(at) + 1 && driver.state == old(driver.state)
      ensures held.pc == if join.SessionClosed? then Aborted else Handled(TtlOf(join))
    {
      Pass();
    }

    method HandleClient(client: S.ClientMessage, clock: nat -> Time) returns (ok: bool)
      requires OnSchedule() && held.pc == Received(ClientMessage(client, clock))
      requires at < |schedule| && schedule[at].Go?
      modifies this`at, this`held, driver, driver.repr
      ensures OnSchedule() && fresh(driver.repr - old(driver.repr)) && at >= old(at) && At(ok, Handled(None))
      ensures driver.cluster.View() == old(driver.cluster.View())
      ensures ok && Quiet(schedule, old(at), at) ==> E.Effect(client, clock, old(driver.state), driver.state)
    {
      Open(client, clock);
      ok := HandleClientMessage(client, clock);
      if ok { ok := Finish(); }
    }

    /** Unwraps a message for the table. */
    method Open(client: S.ClientMessage, clock: nat -> Time)
      requires OnSchedule() && held.pc == Received(ClientMessage(client, clock))
      requires at < |schedule| && schedule[at].Go?
      modifies this`at, this`held
      ensures OnSchedule() && at == old(at) + 1 && held.pc == Handling(S.Items(client, clock))
      ensures driver.state == old(driver.state)
    {
      Pass();
    }

    /** Back from the last item of a message. */
    method Finish() returns (ok: bool)
      requires OnSchedule() && held.pc == Handling([])
      modifies this`at, this`held, driver`shutdown, driver`state, driver.repr
      ensures OnSchedule() && at >= old(at) && At(ok, Handled(None))
      ensures Quiet(schedule, old(at), at) ==> driver.state == old(driver.state)
    {
      ok := MyTurn();
      if ok { Pass(); }
    }

    /** A cluster message that cannot be applied leaves the old map. */
    method ApplyCluster(message: C.Message)
      requires OnSchedule() && held.pc == Received(ClusterMessage(message)) && at < |schedule| && schedule[at].Go?
      modifies this`at, this`held, driver`cluster
      ensures OnSchedule() && at == old(at) + 1 && held.pc == Handled(None)
      ensures driver.state == old(driver.state)
      ensures driver.cluster.View() == ClusterAfter(old(driver.cluster.View()), ClusterMessage(message))
    {
      var next := driver.cluster.Apply(message);
      if next.Ok? { driver.cluster := next.value; }
      Pass();
    }

    // ---------- Exits ----------

    /** Puts a frame on the outbound queue. */
    method Say(frame: Frame, ghost next: Pc) returns (ok: bool)
      requires OnSchedule()
      requires (held.pc == Deregistering && frame == Deregister && next == SayingClosed)
            || (held.pc == SayingClosed && frame == ClosedFrame && next == CleaningUp(true))
      modifies this`at, this`held, driver`shutdown, driver`state, driver`frames, driver.repr
      ensures OnSchedule() && at >= old(at) && At(ok, next)
    {
      ok := MyTurn();
      if ok {
        driver.frames := driver.frames + [frame];
        Pass();
      }
    }

    /** Deregisters, ends the session, and cleans up. */
    method SayGoodbye() returns (ok: bool)
      requires OnSchedule() && held.pc == Deregistering
      modifies this`at, this`held, driver, driver.repr
      ensures OnSchedule() && driver.repr == old(driver.repr) && at >= old(at)
      ensures At(ok, Ended(true)) && (ok ==> driver.closed)
    {
      ok := Say(Deregister, SayingClosed);
      if ok { ok := Say(ClosedFrame, CleaningUp(true)); }
      if ok { ok := CleanUp(true); }
    }

    /** The scheduler lets the clean-up come to `id`, or, with no entry left, to its end. */
    ghost predicate Due(id: GrantId)
      reads this`at, driver`grants
    {
      at < |schedule| &&
      if driver.grants.Keys == {} then schedule[at].Go? else schedule[at] == Pick(id) && id in driver.grants
    }

    /** The entry the clean-up comes to next, or, with none left, its last step. */
    method NextEntry(ghost good: bool) returns (ok: bool, id: GrantId)
      requires OnSchedule() && held.pc == CleaningUp(good)
      modifies this`at, this`held, driver`shutdown, driver`state, driver.repr
      ensures OnSchedule() && at >= old(at) && held.pc == CleaningUp(good)
      ensures !ok ==> at == |schedule|
      ensures ok ==> Due(id)
    {
      while at < |schedule|
        invariant OnSchedule() && at >= old(at) && held.pc == CleaningUp(good)
        decreases |schedule| - at
      {
        if schedule[at].Pick? && schedule[at].id in driver.grants { return true, schedule[at].id; }
        if schedule[at].Go? && driver.grants.Keys == {} { return true, ""; }
        Interfere();
      }
      ok, id := false, "";
    }

    method RemoveEntry(id: GrantId, ghost good: bool)
      requires OnSchedule() && held.pc == CleaningUp(good)
      requires at < |schedule| && schedule[at] == Pick(id) && id in driver.grants
      modifies this`at, this`held, driver`grants, driver`state, driver.repr
      ensures OnSchedule() && at == old(at) + 1 && held.pc == CleaningUp(good)
    {
      driver.RemoveGrant(id);
      Pass();
    }

    method CloseLatch(ghost good: bool)
      requires OnSchedule() && held.pc == CleaningUp(good)
      requires at < |schedule| && schedule[at].Go? && driver.grants.Keys == {}
      modifies this`at, this`held, driver`state, driver`closed
      ensures OnSchedule() && at > old(at) && held.pc == Ended(good) && driver.closed
      ensures driver.grants.Keys == {}
    {
      assert driver.state.table == map[];
      driver.Close();
      Pass();
    }

    /** Comes to the next entry, or closes the latch. */
    method CleanUpStep(ghost good: bool) returns (ok: bool, done: bool)
      requires OnSchedule() && held.pc == CleaningUp(good)
      modifies this`at, this`held, driver`shutdown, driver`state, driver`grants, driver`closed, driver.repr
      ensures OnSchedule() && driver.repr == old(driver.repr)
      ensures if ok then at > old(at) else at == |schedule|
      ensures ok ==> held.pc == if done then Ended(good) else CleaningUp(good)
      ensures ok && done ==> driver.closed && driver.grants.Keys == {}
    {
      var id: GrantId;
      done := false;
      ok, id := NextEntry(good);
      if ok { done := CleanUpNow(id, good); }
    }

    method CleanUpNow(id: GrantId, ghost good: bool) returns (done: bool)
      requires OnSchedule() && held.pc == CleaningUp(good) && Due(id)
      modifies this`at, this`held, driver`grants, driver`state, driver`closed, driver.repr
      ensures OnSchedule() && at > old(at)
      ensures held.pc == if done then Ended(good) else CleaningUp(good)
      ensures done ==> driver.closed && driver.grants.Keys == {}
    {
      done := driver.grants.Keys == {};
      if done { CloseLatch(good); } else { RemoveEntry(id, good); }
    }

    /** Removes every entry, in whatever order they are visited, and closes the latch. */
    method CleanUp(ghost good: bool) returns (ok: bool)
      requires OnSchedule() && held.pc == CleaningUp(good)
      modifies this`at, this`held, driver`shutdown, driver`state, driver`grants, driver`closed, driver.repr
      ensures OnSchedule() && driver.repr == old(driver.repr) && at >= old(at)
      ensures At(ok, Ended(good)) && (ok ==> driver.closed && driver.grants.Keys == {})
    {
      var done := false;
      ok := true;
      while ok && !done
        invariant OnSchedule() && driver.repr == old(driver.repr) && at >= old(at)
        invariant At(ok, if done then Ended(good) else CleaningUp(good))
        invariant ok && done ==> driver.closed && driver.grants.Keys == {}
        decreases ok && !done, |schedule| - at
      {
        ok, done := CleanUpStep(good);
      }
    }

    /** The guard of the request's branch, looked at when a turn begins. */
    method EvaluateGuard() returns (ok: bool, armed: bool)
      requires OnSchedule() && held.pc.Top?
      modifies this`at, this`held, driver`shutdown, driver`state, driver.repr
      ensures OnSchedule() && (if ok then at > old(at) else at == |schedule|) && At(ok, Waiting(armed))
    {
      armed := false;
      ok := MyTurn();
      if ok {
        armed := !driver.shutdown;
        Pass();
      }
    }

    /** The heartbeat's interval after a message. */
    method Renew(ttl: Option<Time>) returns (ok: bool)
      requires OnSchedule() && held.pc == Handled(ttl)
      modifies this`at, this`held, driver`shutdown, driver`state, driver`heartbeat, driver.repr
      ensures OnSchedule() && at >= old(at) && At(ok, Top)
    {
      ok := MyTurn();
      if ok {
        if ttl.Some? { driver.heartbeat := ttl; }
        Pass();
      }
    }

    /** What the driver does on waking, up to the next turn or to its exit. */
    method Serve(wake: Wake) returns (ok: bool, exit: Exit)
      requires OnSchedule() && held.pc.Waiting? && at < |schedule| && schedule[at] == Offer(wake)
      requires Fires(held.pc.armed, driver.shutdown, wake)
      modifies this`at, this`held, driver, driver.repr
      ensures OnSchedule() && fresh(driver.repr - old(driver.repr))
      ensures if ok then at > old(at) && Arrived(exit) else at == |schedule|
    {
      ok, exit := true, Pending;
      if wake == Heartbeat(true) { driver.frames := driver.frames + [HeartbeatFrame]; }
      Pass();
      match wake {
        case Shutdown => ok := SayGoodbye(); exit := Break(true);
        case Heartbeat(sent) => if !sent { ok := CleanUp(false); exit := Break(false); }
        case StreamFailed => ok := CleanUp(false); exit := Break(false);
        case StreamEnded => ok := CleanUp(false); exit := Break(false);
        case Inbound(join) => ok, exit := Process(join);
      }
    }

    method Process(join: Join) returns (ok: bool, exit: Exit)
      requires OnSchedule() && held.pc == Received(join)
      modifies this`at, this`held, driver, driver.repr
      ensures OnSchedule() && fresh(driver.repr - old(driver.repr)) && at >= old(at)
      ensures if ok then Arrived(exit) else at == |schedule|
    {
      exit := Pending;
      var r;
      ok, r := HandleInbound(join);
      if !ok { return; }
      if r.Err? { exit := Abrupt; return; }
      ok := Renew(r.value);
    }

    /** The task is back at the top of its loop, or at the exit it reports. */
    ghost predicate Arrived(exit: Exit)
      reads this, driver
    {
      match exit
      case Pending => held.pc.Top?
      case Break(good) => held.pc == Ended(good) && driver.closed
      case Abrupt => held.pc.Aborted?
    }

    /** One turn of the loop. */
    method TakeTurn() returns (ok: bool, exit: Exit)
      requires OnSchedule() && held.pc.Top?
      modifies this`at, this`held, driver, driver.repr
      ensures OnSchedule() && fresh(driver.repr - old(driver.repr))
      ensures if ok then at > old(at) && Arrived(exit) else at == |schedule|
    {
      exit := Pending;
      var armed: bool;
      ok, armed := EvaluateGuard();
      if !ok { return; }
      var won := Select(armed);
      if won.None? { return false, Pending; }
      ok, exit := Serve(won.value);
    }

    /** The task. It ends by a `break`, with the clean-up done, or by the early return,
        or the schedule is over; and on the way it did exactly what the machine does. */
    method Run() returns (exit: Exit)
      requires OnSchedule() && held.pc.Top?
      modifies this`at, this`held, driver, driver.repr
      ensures OnSchedule() && fresh(driver.repr - old(driver.repr))
      ensures if exit.Pending? then at == |schedule| else Arrived(exit)
    {
      var ok := true;
      exit := Pending;
      while ok && exit.Pending?
        invariant OnSchedule() && fresh(driver.repr - old(driver.repr))
        invariant if ok then Arrived(exit) else at == |schedule|
        decreases ok && exit.Pending?, |schedule| - at
      {
        ok, exit := TakeTurn();
      }
      if !ok { exit := Pending; }
    }
  }

  /** The ttl that a session message carries. */
  function TtlOf(join: Join): Option<Time> {
    match join
    case Established(ttl) => Some(ttl)
    case HeartbeatAck(ttl) => Some(ttl)
    case _ => None
  }
}
