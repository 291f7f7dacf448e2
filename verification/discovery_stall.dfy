/**
  Discovery measurement when other requests and the purge job run between the
  check of a batch's receipts and the transaction that counts it.
 */
module DiscoveryStall {
  import opened Discovery
  import opened DiscoveryEvents

  /** A checked batch whose transaction has not begun. */
  datatype Batch = Batch(events: seq<Input>, checked: Time)

  datatype World = World(st: State, waiting: map<nat, Batch>)

  datatype Move =
    | Other(op: Op)
    | Check(id: nat, inputs: seq<Input>)
    | Insert(id: nat, fault: bool)

  /** `patience` is the request's time limit, which runs from the check to the transaction. */
  function Go(w: World, m: Move, patience: nat): World {
    match m
    case Other(op) => w.(st := DiscoveryEvents.Apply(w.st, op))
    case Check(id, inputs) =>
      if id in w.waiting || !Acceptable(w.st, inputs) then w
      else w.(waiting := w.waiting[id := Batch(Kept(inputs), w.st.now)])
    case Insert(id, fault) =>
      if id !in w.waiting then w
      else
        var b := w.waiting[id];
        World(if fault || w.st.now > b.checked + patience then w.st else CountAll(w.st, b.events), w.waiting - {id})
  }

  function GoAll(w: World, ms: seq<Move>, patience: nat): World
    decreases |ms|
  {
    if ms == [] then w else GoAll(Go(w, ms[0], patience), ms[1..], patience)
  }

  function Opening(now: Time): World { World(Start(now), map[]) }

  ghost predicate MoveLeads(m: Move, lead: nat) { m.Other? && m.op.Feed? ==> m.op.ahead <= lead }

  ghost predicate LeadAtMost(ms: seq<Move>, lead: nat) { forall k | 0 <= k < |ms| :: MoveLeads(ms[k], lead) }

  // ----- a lead and a stall of one tick together are harmless -----

  /** The receipts of a waiting batch were valid when it was checked. */
  ghost predicate BatchOk(st: State, b: Batch) {
    && b.checked <= st.now
    && forall k | 0 <= k < |b.events| ::
         b.events[k].receipt in st.issued && b.checked < Closing(b.events[k].receipt.issued / DAY)
  }

  ghost predicate WorldOk(w: World, lead: nat) {
    Inv(w.st, lead) && forall id <- w.waiting :: BatchOk(w.st, w.waiting[id])
  }

  lemma {:induction false} CountAllMovesNoClock(st: State, events: seq<Input>)
    ensures CountAll(st, events).now == st.now && CountAll(st, events).issued == st.issued
    decreases |events|
  {
    if events != [] { CountAllMovesNoClock(CountOne(st, events[0].receipt, events[0].event), events[1..]); }
  }

  lemma StepMovesOn(st: State, op: Op)
    ensures var next := DiscoveryEvents.Apply(st, op); st.now <= next.now && st.issued <= next.issued
  {
    if op.Report? { CountAllMovesNoClock(st, Kept(op.inputs)); }
  }

  lemma CheckKeepsOk(w: World, id: nat, inputs: seq<Input>, lead: nat, patience: nat)
    requires WorldOk(w, lead)
    ensures WorldOk(Go(w, Check(id, inputs), patience), lead)
  {
    if id !in w.waiting && Acceptable(w.st, inputs) {
      KeptAreValid(w.st, inputs);
      forall k | 0 <= k < |Kept(inputs)| ensures w.st.now < Closing(Kept(inputs)[k].receipt.issued / DAY) {
        ValidMeansOpen(w.st, Kept(inputs)[k].receipt);
      }
    }
  }

  lemma InsertKeepsOk(w: World, id: nat, fault: bool, lead: nat, patience: nat)
    requires WorldOk(w, lead) && lead + patience <= 1
    ensures WorldOk(Go(w, Insert(id, fault), patience), lead)
  {
    if id in w.waiting && !fault && w.st.now <= w.waiting[id].checked + patience {
      var events := w.waiting[id].events;
      assert BatchOk(w.st, w.waiting[id]);
      assert AllCountable(w.st, events, lead);
      CountAllKeeps(w.st, events, lead);
      CountAllMovesNoClock(w.st, events);
    }
  }

  lemma MoveKeepsOk(w: World, m: Move, lead: nat, patience: nat)
    requires WorldOk(w, lead) && MoveLeads(m, lead) && lead + patience <= 1
    ensures WorldOk(Go(w, m, patience), lead)
  {
    match m
    case Other(op) =>
      StepKeepsInv(w.st, op, lead);
      StepMovesOn(w.st, op);
    case Check(id, inputs) => CheckKeepsOk(w, id, inputs, lead, patience);
    case Insert(id, fault) => InsertKeepsOk(w, id, fault, lead, patience);
  }

  lemma {:induction false} MovesKeepOk(w: World, ms: seq<Move>, lead: nat, patience: nat)
    requires WorldOk(w, lead) && LeadAtMost(ms, lead) && lead + patience <= 1
    ensures WorldOk(GoAll(w, ms, patience), lead)
    decreases |ms|
  {
    if ms != [] {
      MoveKeepsOk(w, ms[0], lead, patience);
      MovesKeepOk(Go(w, ms[0], patience), ms[1..], lead, patience);
    }
  }

  // ----- two ticks of them are not -----

  /** The operations of a run without a waiting batch. */
  function Others(ops: seq<Op>): (ms: seq<Move>)
    ensures |ms| == |ops| && forall k | 0 <= k < |ops| :: ms[k] == Other(ops[k])
  {
    seq(|ops|, k requires 0 <= k < |ops| => Other(ops[k]))
  }

  lemma {:induction false} OthersRun(w: World, ops: seq<Op>, patience: nat)
    ensures GoAll(w, Others(ops), patience) == w.(st := Run(w.st, ops))
    decreases |ops|
  {
    if ops != [] {
      OthersRun(Go(w, Other(ops[0]), patience), ops[1..], patience);
      assert Others(ops)[1..] == Others(ops[1..]);
    }
  }

  lemma {:induction false} GoSplits(w: World, before: seq<Move>, after: seq<Move>, patience: nat)
    ensures GoAll(w, before + after, patience) == GoAll(GoAll(w, before, patience), after, patience)
    decreases |before|
  {
    if before == [] {
      assert before + after == after;
    } else {
      assert (before + after)[1..] == before[1..] + after;
      GoSplits(Go(w, before[0], patience), before[1..], after, patience);
    }
  }

  /** The last click of a day is checked in the last tick of its receipt, and a purge comes before its transaction. */
  function StalledEnd(session: string, stall: nat): seq<Move> {
    [Check(0, [LateClick(session)]), Other(Wait(stall)), Other(Purge({SharedKey(session)}, {})), Insert(0, false)]
  }

  function StalledRun(session: string, lead: nat, stall: nat): seq<Move> {
    Others(LeadIn(session, lead)) + StalledEnd(session, stall)
  }

  lemma CheckWaits(w: World, session: string, lead: nat, patience: nat)
    requires |session| == 64 && LedIn(w.st, session, lead) && w.waiting == map[]
    ensures Go(w, Check(0, [LateClick(session)]), patience)
         == w.(waiting := map[0 := Batch([LateClick(session)], w.st.now)])
  {
    assert Valid(w.st, LateReceipt(session));
    assert Acceptable(w.st, [LateClick(session)]);
    KeptOne(LateClick(session));
  }

  lemma PurgeInStall(w: World, session: string, lead: nat, stall: nat, patience: nat)
    requires LedIn(w.st, session, lead) && lead + stall >= 2
    ensures var next := Go(Go(w, Other(Wait(stall)), patience), Other(Purge({SharedKey(session)}, {})), patience);
            && next.st.dedup == map[] && next.st.counted == w.st.counted && next.waiting == w.waiting
            && next.st.now == w.st.now + stall
  {}

  lemma GoFour(w: World, ms: seq<Move>, patience: nat)
    requires |ms| == 4
    ensures GoAll(w, ms, patience)
         == Go(Go(Go(Go(w, ms[0], patience), ms[1], patience), ms[2], patience), ms[3], patience)
  {
    assert ms == [ms[0]] + [ms[1]] + [ms[2]] + [ms[3]];
    GoSplits(w, [ms[0]] + [ms[1]] + [ms[2]], [ms[3]], patience);
    GoSplits(w, [ms[0]] + [ms[1]], [ms[2]], patience);
    GoSplits(w, [ms[0]], [ms[1]], patience);
  }

  /** The end of the run, from a world that was led in. */
  lemma StalledEndCountsTwice(w: World, session: string, lead: nat, stall: nat, patience: nat)
    requires |session| == 64 && LedIn(w.st, session, lead) && w.waiting == map[]
    requires lead + stall >= 2 && stall <= patience
    ensures !CountedOnce(GoAll(w, StalledEnd(session, stall), patience).st.counted)
  {
    var ms := StalledEnd(session, stall);
    var checked := Go(w, ms[0], patience);
    CheckWaits(w, session, lead, patience);
    PurgeInStall(checked, session, lead, stall, patience);
    var purged := Go(Go(checked, ms[1], patience), ms[2], patience);
    GoFour(w, ms, patience);
    CountAllOne(purged.st, LateClick(session));
    CountedAgain(purged.st, session);
  }

  lemma StalledRunCountsTwice(session: string, lead: nat, patience: nat)
    requires |session| == 64 && lead <= 2 <= lead + patience
    ensures var ms := StalledRun(session, lead, 2 - lead);
            LeadAtMost(ms, lead) && !CountedOnce(GoAll(Opening(LeadStart(lead)), ms, patience).st.counted)
  {
    var w := Opening(LeadStart(lead));
    LeadInEnds(session, lead);
    OthersRun(w, LeadIn(session, lead), patience);
    GoSplits(w, Others(LeadIn(session, lead)), StalledEnd(session, 2 - lead), patience);
    StalledEndCountsTwice(GoAll(w, Others(LeadIn(session, lead)), patience), session, lead, 2 - lead, patience);
  }

  /** Whatever comes between check and transaction, with these tolerances no identity is counted twice. */
  ghost predicate AlwaysOnce(lead: nat, patience: nat) {
    forall now: Time, ms: seq<Move> | LeadAtMost(ms, lead) :: CountedOnce(GoAll(Opening(now), ms, patience).st.counted)
  }

  /**
    The tolerances add up: with issuing clocks at most `lead` ticks ahead and a
    request's time limit of `patience` ticks, every identity is counted at most
    once in every run exactly when the two come to one tick at most.
   */
  lemma OnceIffWithinOneTick(lead: nat, patience: nat, session: string)
    requires |session| == 64
    ensures AlwaysOnce(lead, patience) <==> lead + patience <= 1
  {
    if lead + patience <= 1 {
      forall now: Time, ms: seq<Move> | LeadAtMost(ms, lead)
        ensures CountedOnce(GoAll(Opening(now), ms, patience).st.counted)
      {
        MovesKeepOk(Opening(now), ms, lead, patience);
      }
    } else {
      var ahead := if lead < 2 then lead else 2;
      StalledRunCountsTwice(session, ahead, patience);
      assert LeadAtMost(StalledRun(session, ahead, 2 - ahead), lead);
    }
  }
}
