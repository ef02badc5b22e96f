/** The driver of a fleet can do all that the driver's loop does: on every schedule of
    the loop, each item it comes to is an act that the fleet allows just then. */
module Coverage {
  import opened Ids
  import opened Folds
  import opened DriverLoop
  import opened Fleet
  import opened Lifecycle
  import opened Mirror
  import opened FleetSafety
  import S = Consumer

  // ---------- An Assign always finds room ----------

  /** Every Assign comes right after the removal of its id. */
  predicate Paired(items: seq<S.Item>) {
    forall n :: 0 < n < |items| && items[n].IAssign? ==> items[n - 1] == S.IRemove(items[n].grant.id)
  }

  predicate StartsFree(items: seq<S.Item>) {
    items != [] ==> !items[0].IAssign?
  }

  /** Where the loop comes to an Assign, its id is not in the table. */
  predicate Roomy(l: Loop) {
    l.pc.Handling? ==>
      && Paired(l.pc.left)
      && (l.pc.left != [] && l.pc.left[0].IAssign? ==> l.pc.left[0].grant.id !in l.s.table)
  }

  lemma {:induction false} BatchIsPaired(gs: seq<RawGrant>, clock: nat -> Time, n: nat)
    ensures Paired(S.AssignItems(gs, clock, n)) && StartsFree(S.AssignItems(gs, clock, n))
    decreases |gs|
  {
    if gs != [] {
      BatchIsPaired(gs[1..], clock, n + 2);
      var rest := S.AssignItems(gs[1..], clock, n + 2);
      if S.AssignedShard(gs[0]).None? {
        assert [] + rest == rest;
      } else {
        PairThenRest(S.IRemove(gs[0].id), S.IAssign(gs[0], clock(n), clock(n + 1)), rest);
      }
    }
  }

  lemma PairThenRest(i: S.Item, j: S.Item, rest: seq<S.Item>)
    requires Paired(rest) && StartsFree(rest) && !i.IAssign?
    requires j.IAssign? && i == S.IRemove(j.grant.id)
    ensures Paired([i, j] + rest) && StartsFree([i, j] + rest)
  {
    var items := [i, j] + rest;
    forall n | 0 < n < |items| && items[n].IAssign? ensures items[n - 1] == S.IRemove(items[n].grant.id) {
      if n > 1 { assert items[n] == rest[n - 2]; }
      if n > 2 { assert items[n - 1] == rest[n - 3]; }
    }
  }

  lemma MessageIsPaired(m: S.ClientMessage, clock: nat -> Time)
    ensures Paired(S.Items(m, clock)) && StartsFree(S.Items(m, clock))
  {
    if m.Assign? { BatchIsPaired(m.grants, clock, 0); }
  }

  lemma ItemLeavesRoom(s: S.Table, left: seq<S.Item>)
    requires left != [] && Paired(left)
    ensures Paired(left[1..])
    ensures |left| > 1 && left[1].IAssign? ==> left[1].grant.id !in S.Step(s, left[0]).table
  {
    forall n | 0 < n < |left[1..]| && left[1..][n].IAssign?
      ensures left[1..][n - 1] == S.IRemove(left[1..][n].grant.id)
    {
      assert left[n + 1] == left[1..][n];
    }
  }

  lemma TakeKeepsRoom(l: Loop, e: Event)
    requires Roomy(l)
    ensures Roomy(Take(l, e))
  {
    match e {
      case Go =>
        if l.pc.Handling? && l.pc.left != [] { ItemLeavesRoom(l.s, l.pc.left); }
        if l.pc.Received? && l.pc.join.ClientMessage? { MessageIsPaired(l.pc.join.client, l.pc.join.clock); }
      case _ =>
    }
  }

  // ---------- What was sent ----------

  /** The coordinator sent the items to `c`. Removals are the driver's own. */
  predicate AllSent(sent: set<Parcel>, c: nat, items: seq<S.Item>) {
    forall n :: 0 <= n < |items| && !items[n].IRemove? ==> Parcel(c, items[n]) in sent
  }

  predicate OfferSent(sent: set<Parcel>, c: nat, e: Event) {
    e.Offer? && e.wake.Inbound? && e.wake.join.ClientMessage? ==>
      AllSent(sent, c, S.Items(e.wake.join.client, e.wake.join.clock))
  }

  /** So were those of the message the loop is at. */
  predicate UnderWay(sent: set<Parcel>, c: nat, l: Loop) {
    && (l.pc.Handling? ==> AllSent(sent, c, l.pc.left))
    && (l.pc.Received? && l.pc.join.ClientMessage? ==>
          AllSent(sent, c, S.Items(l.pc.join.client, l.pc.join.clock)))
  }

  lemma TakeKeepsUnderWay(sent: set<Parcel>, c: nat, l: Loop, e: Event)
    requires UnderWay(sent, c, l) && OfferSent(sent, c, e)
    ensures UnderWay(sent, c, Take(l, e))
  {
    if e.Go? && l.pc.Handling? && l.pc.left != [] {
      assert forall n :: 0 <= n < |l.pc.left[1..]| ==> l.pc.left[1..][n] == l.pc.left[n + 1];
    }
  }

  // ---------- The fleet follows ----------

  /** What the fleet's driver does for an event of its loop. */
  function ActsFor(f: Fleet, c: nat, l: Loop, e: Event): seq<Act> {
    match e
    case TimerFires(id, inc) => if Key(c, id, inc) in f.w.incs then [Timer(Key(c, id, inc))] else []
    case Pick(id) => if l.pc.CleaningUp? && id in l.s.table then [Remove(c, id)] else []
    case Go =>
      if l.pc.Handling? && l.pc.left != [] then
        [if l.pc.left[0].IRemove? then Remove(c, l.pc.left[0].id) else Deliver(Parcel(c, l.pc.left[0]))]
      else if l.pc.CleaningUp? && l.s.table == map[] then [Shut(c)] else []
    case _ => []
  }

  /** The loop's driver and the fleet's are in the same state. */
  ghost predicate Follows(f: Fleet, c: nat, l: Loop) {
    && FleetInv(f) && DriverOf(f, c) == l.s
    && Roomy(l) && ExitOk(l) && UnderWay(f.sent, c, l)
  }

  lemma NotIssued(f: Fleet, k: Key)
    requires FleetInv(f) && k !in f.w.incs
    ensures S.OnTimer(DriverOf(f, k.consumer), k.id, k.inc) == DriverOf(f, k.consumer)
  {
    assert DriverFacts(f, k.consumer);
    assert KeyAgrees(k, DriverOf(f, k.consumer), f.w.incs);
  }

  /** An item that finds room is an act, and does to the fleet's driver what it does to
      the loop's. */
  lemma ActIsPossible(f: Fleet, a: Act)
    requires FleetInv(f) && ItemOf(a).Some?
    requires var p := ItemOf(a).value;
             && !Replaces(DriverOf(f, p.consumer), p.item)
             && (!a.Timer? ==> !DriverOf(f, p.consumer).closed)
             && (a.Timer? ==> a.key in f.w.incs) && (a.Deliver? ==> a.parcel in f.sent)
             && (a.Shut? ==> DriverOf(f, a.consumer).table == map[])
    ensures Can(f, a) && FleetInv(Do(f, a)) && Do(f, a).sent == f.sent
    ensures var p := ItemOf(a).value; DriverOf(Do(f, a), p.consumer) == S.Step(DriverOf(f, p.consumer), p.item)
  {
    MovesRun(f, a);
    FleetStepKeeps(f, a);
  }

  /** The driver's own steps. */
  lemma StepIsFollowed(f: Fleet, c: nat, l: Loop)
    requires Follows(f, c, l)
    ensures var acts := ActsFor(f, c, l, Event.Go);
            && |acts| <= 1 && (acts != [] ==> Can(f, acts[0]))
            && var g := if acts == [] then f else Do(f, acts[0]);
               FleetInv(g) && g.sent == f.sent && DriverOf(g, c) == Stepped(l).s
  {
    var acts := ActsFor(f, c, l, Event.Go);
    if acts != [] { ActIsPossible(f, acts[0]); }
  }

  lemma EventIsFollowed(f: Fleet, c: nat, l: Loop, e: Event)
    requires Follows(f, c, l)
    ensures var acts := ActsFor(f, c, l, e);
            && |acts| <= 1 && (acts != [] ==> Can(f, acts[0]))
            && var g := if acts == [] then f else Do(f, acts[0]);
               FleetInv(g) && g.sent == f.sent && DriverOf(g, c) == Take(l, e).s
  {
    match e {
      case TimerFires(id, inc) =>
        if Key(c, id, inc) in f.w.incs { ActIsPossible(f, Timer(Key(c, id, inc))); } else { NotIssued(f, Key(c, id, inc)); }
      case Pick(id) => if l.pc.CleaningUp? && id in l.s.table { ActIsPossible(f, Remove(c, id)); }
      case Go => StepIsFollowed(f, c, l);
      case _ =>
    }
  }

  /** Each act is possible when its turn comes. */
  ghost predicate AllPossible(f: Fleet, acts: seq<Act>) {
    forall n :: 0 <= n < |acts| ==> PossibleAt(f, acts, n)
  }

  predicate PossibleAt(f: Fleet, acts: seq<Act>, n: nat)
    requires n < |acts|
  {
    Can(End(f, acts[..n]), acts[n])
  }

  /** The act is the driver's of `c`, or one of its timers'. */
  predicate ByDriver(a: Act, c: nat) {
    ItemOf(a).Some? && ItemOf(a).value.consumer == c
  }

  lemma OneMoreAct(f: Fleet, acts: seq<Act>, a: Act)
    requires AllPossible(f, acts) && Can(End(f, acts), a)
    ensures AllPossible(f, acts + [a]) && End(f, acts + [a]) == Do(End(f, acts), a)
  {
    FoldOne(Try, End(f, acts), a);
    FoldConcat(Try, f, acts, [a]);
    forall n | 0 <= n < |acts + [a]| ensures PossibleAt(f, acts + [a], n) {
      if n < |acts| {
        assert PossibleAt(f, acts, n);
        assert (acts + [a])[..n] == acts[..n];
      } else {
        assert (acts + [a])[..n] == acts;
      }
    }
  }

  /** On every schedule of the loop, if the messages it receives were sent: what it does
      is a sequence of deliveries, removals, timers and at the end a shutdown, each of
      them possible in the fleet when the loop comes to it. In particular no Assign
      is ever held up by an entry of the same id. */
  lemma {:induction false} LoopIsCovered(f: Fleet, c: nat, schedule: seq<Event>) returns (acts: seq<Act>)
    requires FleetInv(f) && DriverOf(f, c) == S.EMPTY
    requires forall e :: e in schedule ==> OfferSent(f.sent, c, e)
    ensures AllPossible(f, acts) && forall a :: a in acts ==> ByDriver(a, c)
    ensures End(f, acts).sent == f.sent && Follows(End(f, acts), c, Played(START, schedule))
  {
    acts := [];
    if schedule != [] {
      var before, e := schedule[..|schedule| - 1], schedule[|schedule| - 1];
      var l := Played(START, before);
      acts := LoopIsCovered(f, c, before);
      var g := End(f, acts);
      EventIsFollowed(g, c, l, e);
      TakeKeepsRoom(l, e);
      TakeKeepsExit(l, e);
      TakeKeepsUnderWay(g.sent, c, l, e);
      var more := ActsFor(g, c, l, e);
      if more != [] {
        OneMoreAct(f, acts, more[0]);
        acts := acts + [more[0]];
      }
    }
  }
}
