/** When a request to shut the driver down is served, and how it is lost. */
module Shutdown {
  import opened Ids
  import opened Folds
  import opened DriverLoop
  import S = Consumer

  /** The request has been served, or is being served. */
  predicate Serves(pc: Pc) {
    pc.Deregistering? || pc.SayingClosed? || pc == CleaningUp(true) || pc == Ended(true)
  }

  /** The driver is in `select!` with the request's branch enabled. */
  predicate Listening(l: Loop) { l.pc == Waiting(true) }

  /** A request was made that the driver does not listen for. */
  predicate Missed(l: Loop) { l.shutdown && !Serves(l.pc) && !Listening(l) }

  predicate RequestOk(l: Loop) {
    && (l.pc == Waiting(false) ==> l.shutdown)
    && (Serves(l.pc) ==> l.shutdown)
    && (Deregister in l.frames ==> Serves(l.pc))
  }

  lemma TakeKeepsRequest(l: Loop, e: Event)
    requires RequestOk(l)
    ensures RequestOk(Take(l, e))
    ensures Missed(l) ==> Missed(Take(l, e))
  {
    if Missed(l) { MissedStays(l, e); }
  }

  lemma MissedStays(l: Loop, e: Event)
    requires Missed(l)
    ensures Missed(Take(l, e))
  {}

  lemma {:induction false} RequestsKeep(l: Loop, schedule: seq<Event>)
    requires RequestOk(l)
    ensures RequestOk(Played(l, schedule))
    ensures Missed(l) ==> Missed(Played(l, schedule))
  {
    if schedule != [] {
      RequestsKeep(l, schedule[..|schedule| - 1]);
      TakeKeepsRequest(Played(l, schedule[..|schedule| - 1]), schedule[|schedule| - 1]);
    }
  }

  /** A request can be served at all if and only if it finds the driver in `select!`.
      One that finds it anywhere else, handling a message or about to look at the
      guard, is never served, whatever happens later: no Deregister, no clean end. */
  lemma ArrivalDecides(before: seq<Event>)
    requires var l := Played(START, before); !l.shutdown
    ensures var l := Played(START, before);
            && (Listening(l) <==> exists after :: Serves(Played(Take(l, Request), after).pc))
            && (!Listening(l) ==> forall after :: Deregister !in Played(Take(l, Request), after).frames)
  {
    var l := Played(START, before);
    var r := Take(l, Request);
    RequestsKeep(START, before);
    TakeKeepsRequest(l, Request);
    if Listening(l) {
      FoldOne(Take, r, Offer(Wake.Shutdown));
      assert Serves(Played(r, [Offer(Wake.Shutdown)]).pc);
    } else {
      forall after ensures Missed(Played(r, after)) && Deregister !in Played(r, after).frames {
        RequestsKeep(r, after);
      }
    }
  }

  // ---------- The exact condition, for every schedule ----------

  /** Another branch of the `select!` is offered. */
  predicate Other(e: Event) { e.Offer? && !e.wake.Shutdown? }

  /** The first request of the schedule arrives at `n`, while the driver listens. */
  predicate Heard(schedule: seq<Event>, n: nat) {
    && n < |schedule|
    && schedule[n] == Request && (forall j :: 0 <= j < n ==> schedule[j] != Request)
    && Listening(Played(START, schedule[..n]))
  }

  /** Its branch is offered at `m`, before any other. */
  predicate ServedBy(schedule: seq<Event>, n: nat, m: nat) {
    && Heard(schedule, n) && n < m < |schedule|
    && schedule[m] == Offer(Wake.Shutdown) && (forall j :: n < j < m ==> !Other(schedule[j]))
  }

  ghost predicate Served(schedule: seq<Event>) {
    exists n: nat, m: nat :: ServedBy(schedule, n, m)
  }

  /** No branch has been offered since it arrived. */
  predicate PendingSince(schedule: seq<Event>, n: nat) {
    Heard(schedule, n) && forall j :: n < j < |schedule| ==> !schedule[j].Offer?
  }

  ghost predicate Pending(schedule: seq<Event>) {
    exists n: nat :: PendingSince(schedule, n)
  }

  lemma HeardLater(schedule: seq<Event>, e: Event, n: nat)
    requires n < |schedule|
    ensures Heard(schedule + [e], n) <==> Heard(schedule, n)
  {
    assert (schedule + [e])[..n] == schedule[..n];
  }

  lemma ServedLater(schedule: seq<Event>, e: Event)
    ensures Served(schedule + [e]) <==> Served(schedule) || (Pending(schedule) && e == Offer(Wake.Shutdown))
  {
    var t := schedule + [e];
    if Served(schedule) {
      var n: nat, m: nat :| ServedBy(schedule, n, m);
      HeardLater(schedule, e, n);
      assert ServedBy(t, n, m);
    }
    if Pending(schedule) && e == Offer(Wake.Shutdown) {
      var n: nat :| PendingSince(schedule, n);
      HeardLater(schedule, e, n);
      assert ServedBy(t, n, |schedule|);
    }
    if Served(t) && !Served(schedule) {
      var n: nat, m: nat :| ServedBy(t, n, m);
      HeardLater(schedule, e, n);
      forall j | n < j < m ensures !Other(schedule[j]) { assert t[j] == schedule[j]; }
      assert m < |schedule| ==> ServedBy(schedule, n, m);
      FirstOffer(schedule, n, m);
    }
  }

  /** Nothing but the request's own branch was offered, and not even that, unless it
      was served. */
  lemma FirstOffer(schedule: seq<Event>, n: nat, m: nat)
    requires Heard(schedule, n) && n < m && m <= |schedule|
    requires forall j :: n < j < m ==> !Other(schedule[j])
    ensures m == |schedule| ==> Pending(schedule) || Served(schedule)
  {
    if m == |schedule| && !PendingSince(schedule, n) {
      var j :| n < j < |schedule| && schedule[j].Offer?;
      assert ServedBy(schedule, n, j);
    }
  }

  lemma PendingLater(schedule: seq<Event>, e: Event)
    ensures Pending(schedule + [e]) <==>
              || (Pending(schedule) && !e.Offer?)
              || (e == Request && Request !in schedule && Listening(Played(START, schedule)))
  {
    var t := schedule + [e];
    assert t[..|schedule|] == schedule;
    if Pending(schedule) && !e.Offer? {
      var n: nat :| PendingSince(schedule, n);
      HeardLater(schedule, e, n);
      assert PendingSince(t, n);
    }
    if e == Request && Request !in schedule && Listening(Played(START, schedule)) {
      assert PendingSince(t, |schedule|);
    }
    if Pending(t) {
      var n: nat :| PendingSince(t, n);
      if n < |schedule| {
        HeardLater(schedule, e, n);
        assert PendingSince(schedule, n);
        assert t[|schedule|] == e;
      } else {
        assert forall j :: 0 <= j < |schedule| ==> t[j] == schedule[j];
      }
    }
  }

  lemma TakeLatch(l: Loop, e: Event)
    ensures Take(l, e).shutdown <==> l.shutdown || e == Request
  {}

  lemma {:induction false} LatchIsRequest(schedule: seq<Event>)
    ensures Played(START, schedule).shutdown <==> Request in schedule
  {
    if schedule != [] {
      var before, e := schedule[..|schedule| - 1], schedule[|schedule| - 1];
      LatchIsRequest(before);
      TakeLatch(Played(START, before), e);
      InSnoc(before, e);
      assert schedule == before + [e];
    }
  }

  lemma InSnoc(before: seq<Event>, e: Event)
    ensures Request in before + [e] <==> Request in before || e == Request
  {}

  /** On every schedule: the driver comes to send Deregister and to end cleanly if and
      only if the first request arrives while it is in `select!` with that branch
      enabled, and that branch is then offered before any other. */
  lemma {:induction false} ServedExactlyWhen(schedule: seq<Event>)
    ensures Serves(Played(START, schedule).pc) <==> Served(schedule)
    ensures Listening(Played(START, schedule)) && Request in schedule <==> Pending(schedule)
  {
    if schedule != [] {
      var before, e := schedule[..|schedule| - 1], schedule[|schedule| - 1];
      assert schedule == before + [e];
      ServedExactlyWhen(before);
      LatchIsRequest(before);
      RequestsKeep(START, before);
      ServedLater(before, e);
      PendingLater(before, e);
      TakeMoves(Played(START, before), e);
    }
  }

  /** The driver's state as far as the request goes. */
  lemma TakeMoves(l: Loop, e: Event)
    requires RequestOk(l)
    ensures var t := Take(l, e);
            && (Serves(t.pc) <==> Serves(l.pc) || (Listening(l) && l.shutdown && e == Offer(Wake.Shutdown)))
            && (Listening(t) && t.shutdown <==>
                  || (Listening(l) && l.shutdown && !e.Offer?)
                  || (Listening(l) && !l.shutdown && e == Request))
  {}

  // ---------- A request that is lost ----------

  lemma Three(l: Loop, a: Event, b: Event, c: Event)
    ensures Played(l, [a, b, c]) == Take(Take(Take(l, a), b), c)
  {
    var events := [a, b, c];
    assert Played(l, events[..0]) == l;
    PlayedSnoc(l, events, 0);
    PlayedSnoc(l, events, 1);
    PlayedSnoc(l, events, 2);
    assert events[..3] == events;
  }

  lemma ThreeMore(l: Loop, before: seq<Event>, a: Event, b: Event, c: Event)
    ensures Played(l, before + [a, b, c]) == Take(Take(Take(Played(l, before), a), b), c)
  {
    FoldConcat(Take, l, before, [a, b, c]);
    Three(Played(l, before), a, b, c);
  }

  lemma OneAssign(g: RawGrant, clock: nat -> Time)
    requires S.AssignedShard(g).Some?
    ensures S.Items(S.Assign([g]), clock) == [S.IRemove(g.id), S.IAssign(g, clock(0), clock(1))]
  {
    assert [g][1..] == [] && S.AssignItems([], clock, 2) == [];
  }

  lemma ReceivesAssign(g: RawGrant, clock: nat -> Time, message: Wake)
    requires S.AssignedShard(g).Some? && message == Inbound(ClientMessage(S.Assign([g]), clock))
    ensures Take(Take(Take(START, Go), Offer(message)), Go)
         == START.(pc := Handling([S.IRemove(g.id), S.IAssign(g, clock(0), clock(1))]))
  {
    OneAssign(g, clock);
  }

  /** A request comes between the two items of an Assign. */
  lemma HandlesAssign(i: S.Item, j: S.Item)
    requires S.Step(S.EMPTY, i) == S.EMPTY
    ensures Take(Take(Take(START.(pc := Handling([i, j])), Go), Request), Go)
         == START.(pc := Handling([]), shutdown := true, s := S.Step(S.EMPTY, j))
  {
    assert [i, j][1..] == [j] && [j][1..] == [];
  }

  lemma GoesBackToWait(s: S.State)
    requires S.TableOk(s)
    ensures var l: Loop := START.(shutdown := true, s := s);
            && Take(Take(Take(l.(pc := Handling([])), Go), Go), Go) == l.(pc := Waiting(false))
            && Take(l.(pc := Waiting(false)), Offer(Wake.Shutdown)) == l.(pc := Waiting(false))
  {}

  lemma HandlesThenWaits(g: RawGrant, clock: nat -> Time, message: Wake) returns (waiting: seq<Event>)
    requires S.AssignedShard(g).Some? && message == Inbound(ClientMessage(S.Assign([g]), clock))
    ensures waiting == [Go, Offer(message), Go] + [Go, Request, Go] + [Go, Go, Go]
    ensures Played(START, waiting) ==
            START.(pc := Waiting(false), shutdown := true,
                   s := S.Step(S.EMPTY, S.IAssign(g, clock(0), clock(1))))
  {
    var received := [Go, Offer(message), Go];
    var handled := received + [Go, Request, Go];
    Three(START, Go, Offer(message), Go);
    ReceivesAssign(g, clock, message);
    ThreeMore(START, received, Go, Request, Go);
    HandlesAssign(S.IRemove(g.id), S.IAssign(g, clock(0), clock(1)));
    ThreeMore(START, handled, Go, Go, Go);
    GoesBackToWait(S.Step(S.EMPTY, S.IAssign(g, clock(0), clock(1))));
    waiting := handled + [Go, Go, Go];
  }

  /** The request arrives while the driver handles an Assign. The branch is offered
      as soon as the driver waits again, and is not taken; nor ever after. */
  lemma RequestDuringMessageIsLost(g: RawGrant, clock: nat -> Time) returns (schedule: seq<Event>)
    requires S.AssignedShard(g).Some?
    ensures var message := Inbound(ClientMessage(S.Assign([g]), clock));
            schedule == [Go, Offer(message), Go] + [Go, Request, Go] + [Go, Go, Go] + [Offer(Wake.Shutdown)]
    ensures var l := Played(START, schedule);
            && l.shutdown && l.pc == Waiting(false) && l.frames == [] && g.id in l.s.table
    ensures forall after :: !Serves(Played(Played(START, schedule), after).pc)
  {
    var waiting := HandlesThenWaits(g, clock, Inbound(ClientMessage(S.Assign([g]), clock)));
    GoesBackToWait(S.Step(S.EMPTY, S.IAssign(g, clock(0), clock(1))));
    schedule := waiting + [Offer(Wake.Shutdown)];
    FoldConcat(Take, START, waiting, [Offer(Wake.Shutdown)]);
    FoldOne(Take, Played(START, waiting), Offer(Wake.Shutdown));
    MissedForGood(Played(START, schedule));
  }

  lemma MissedForGood(l: Loop)
    requires RequestOk(l) && Missed(l)
    ensures forall after :: !Serves(Played(l, after).pc)
  {
    forall after ensures !Serves(Played(l, after).pc) { RequestsKeep(l, after); }
  }
}
