/** Whole runs of the invitation ledger: every writer, a batch being worked off, and the clock, in any order. */
module InvitationRuns {
  import opened Common
  import opened Invitations
  import opened InvitationBatch

  datatype World = World(store: Store, batch: Batch, now: int)

  /** GiveUp is the last of the queue's retries failing. */
  datatype Step =
    | Tick(ms: nat)
    | GenerateLinks(raw: seq<string>)
    | ShareLink(id: nat)
    | RemoveOne(id: nat)
    | Sweep(candidates: seq<nat>, startedAgo: nat)
    | EraseUpload(startedAgo: nat)
    | RunChunk(env: Env, granted: bool)
    | GiveUp
    | AnswerOne(id: nat, accepted: bool)
    | IssueOne(email: string, days: nat)
    | ResendOne(id: nat, days: nat)
    | ActOn(id: nat, version: nat, command: Command, days: nat, reviewer: bool)

  /** A row that is resent or reissued is the only live one for its address, or gets no new time. */
  predicate Careful(w: World, step: Step) {
    match step
    case ResendOne(id, days) => CanResend(w.store, id) ==> MayReopen(w.store, id, days, w.now)
    case ActOn(id, version, command, days, _) =>
      command == REISSUE && CanReissue(w.store, id, version) ==> MayReopen(w.store, id, days, w.now)
    case _ => true
  }

  predicate BatchFits(b: Batch) {
    b.input.Some? ==> b.processed <= |b.input.value|
  }

  function Apply(w: World, step: Step): World {
    match step
    case Tick(ms) => w.(now := w.now + ms)
    case GenerateLinks(raw) => w.(store := Generate(w.store, Normalise(raw), w.now).0)
    case ShareLink(id) => w.(store := Link(w.store, id, w.now).0)
    case RemoveOne(id) => w.(store := Remove(w.store, id).0)
    case Sweep(candidates, ago) => w.(store := ExpireAll(w.store, candidates, w.now - ago))
    case EraseUpload(ago) => if w.batch.expiresAt <= w.now - ago then w.(batch := w.batch.(input := None)) else w
    case RunChunk(env, granted) =>
      if BatchFits(w.batch) then
        var r := Chunk(env.(now := w.now), granted, w.store, w.batch);
        w.(store := r.0, batch := r.1)
      else w
    case GiveUp => if Over(w.batch.status) then w else w.(batch := w.batch.(status := FAILED))
    case AnswerOne(id, accepted) => w.(store := Answer(w.store, id, accepted, w.now).0)
    case IssueOne(email, days) => w.(store := Issue(w.store, email, days, w.now).0)
    case ResendOne(id, days) => w.(store := Resend(w.store, id, days, w.now).0)
    case ActOn(id, version, command, days, reviewer) =>
      w.(store := Act(w.store, id, version, command, days, reviewer, w.now).0)
  }

  function Run(w: World, steps: seq<Step>): World
    decreases |steps|
  {
    if steps == [] then w else Run(Apply(w, steps[0]), steps[1..])
  }

  predicate AllCareful(w: World, steps: seq<Step>)
    decreases |steps|
  {
    steps == [] || (Careful(w, steps[0]) && AllCareful(Apply(w, steps[0]), steps[1..]))
  }

  /** At every moment of the run no two live invitations share an address. */
  predicate OneLiveThroughout(w: World, steps: seq<Step>)
    decreases |steps|
  {
    OneLive(w.store.rows, w.now) && (steps == [] || OneLiveThroughout(Apply(w, steps[0]), steps[1..]))
  }

  ghost predicate WorldOk(w: World, input: seq<InputRow>) {
    Recorded(w.store) && BatchOk(w.batch, input, w.now)
  }

  /** Every step keeps the invariant, and a moment with one live invitation per address exactly if it is careful. */
  lemma StepKeeps(w: World, step: Step, input: seq<InputRow>)
    requires WorldOk(w, input)
    ensures WorldOk(Apply(w, step), input) && Grows(w.store, Apply(w, step).store)
    ensures w.batch.results <= Apply(w, step).batch.results
    ensures OneLive(w.store.rows, w.now) ==>
              (OneLive(Apply(w, step).store.rows, Apply(w, step).now) <==> Careful(w, step))
  {
    NothingGrows(w.store);
    match step {
      case Tick(ms) => TickKeeps(w, ms, input);
      case GiveUp => hide Recorded, Grows, ResultsFit, OneLive;
      case EraseUpload(_) => hide Recorded, Grows, ResultsFit, OneLive;
      case _ => WriterKeeps(w, step, input);
    }
  }

  lemma TickKeeps(w: World, ms: nat, input: seq<InputRow>)
    requires WorldOk(w, input)
    ensures WorldOk(Apply(w, Tick(ms)), input)
    ensures OneLive(w.store.rows, w.now) ==> OneLive(w.store.rows, w.now + ms)
  {
    hide Recorded, Fold;
  }

  lemma WriterKeeps(w: World, step: Step, input: seq<InputRow>)
    requires WorldOk(w, input) && !step.Tick? && !step.EraseUpload? && !step.GiveUp?
    ensures WorldOk(Apply(w, step), input) && Grows(w.store, Apply(w, step).store)
    ensures w.batch.results <= Apply(w, step).batch.results
    ensures OneLive(w.store.rows, w.now) ==> (OneLive(Apply(w, step).store.rows, w.now) <==> Careful(w, step))
  {
    hide Recorded, Grows, OneLive, BatchOk, Generate, Normalise, Link, Remove, Answer, Issue, Resend, Act, ExpireAll,
         MayReopen, CanResend, CanReissue;
    match step {
      case GenerateLinks(raw) =>
        NormaliseIsASet(raw);
        GenerateKeeps(w.store, Normalise(raw), w.now);
      case ShareLink(id) => LinkRemoveAnswerKeep(w.store, id, true, w.now);
      case RemoveOne(id) => LinkRemoveAnswerKeep(w.store, id, true, w.now);
      case AnswerOne(id, accepted) => LinkRemoveAnswerKeep(w.store, id, accepted, w.now);
      case Sweep(candidates, ago) => ExpireAllKeeps(w.store, candidates, w.now - ago, w.now);
      case RunChunk(env, granted) =>
        BatchOkFits(w.batch, input, w.now);
        ChunkKeeps(env.(now := w.now), granted, w.store, w.batch, input);
      case IssueOne(email, days) => IssueKeeps(w.store, email, days, w.now);
      case ResendOne(id, days) => ResendKeepsOneLiveExactly(w.store, id, days, w.now);
      case ActOn(id, version, command, days, reviewer) =>
        ActKeeps(w.store, id, version, command, days, reviewer, w.now);
      case _ =>
    }
  }

  lemma BatchOkFits(b: Batch, input: seq<InputRow>, now: int)
    requires BatchOk(b, input, now)
    ensures BatchFits(b)
  {
  }

  lemma {:induction false} RunKeeps(w: World, steps: seq<Step>, input: seq<InputRow>)
    requires WorldOk(w, input)
    ensures WorldOk(Run(w, steps), input) && Grows(w.store, Run(w, steps).store)
    ensures w.batch.results <= Run(w, steps).batch.results
    decreases |steps|
  {
    hide WorldOk, Grows, Apply, OneLive;
    if steps == [] {
      NothingGrows(w.store);
    } else {
      var next := Apply(w, steps[0]);
      StepKeeps(w, steps[0], input);
      RunKeeps(next, steps[1..], input);
      GrowsTwice(w.store, next.store, Run(w, steps).store);
    }
  }

  lemma {:induction false} CarefulExactly(w: World, steps: seq<Step>, input: seq<InputRow>)
    requires WorldOk(w, input) && OneLive(w.store.rows, w.now)
    ensures OneLiveThroughout(w, steps) <==> AllCareful(w, steps)
    decreases |steps|
  {
    hide WorldOk, Apply, OneLive, Careful;
    if steps != [] {
      StepKeeps(w, steps[0], input);
      if Careful(w, steps[0]) {
        CarefulExactly(Apply(w, steps[0]), steps[1..], input);
      }
    }
  }

  lemma {:induction false} ThroughoutAtEnd(w: World, steps: seq<Step>)
    requires OneLiveThroughout(w, steps)
    ensures OneLive(Run(w, steps).store.rows, Run(w, steps).now)
    decreases |steps|
  {
    hide Apply, OneLive;
    if steps != [] {
      ThroughoutAtEnd(Apply(w, steps[0]), steps[1..]);
    }
  }

  function Start(input: seq<InputRow>, expiresAt: int, now: int): World {
    World(Invitations.EMPTY, Queued(input, expiresAt), now)
  }

  lemma StartIsOk(input: seq<InputRow>, expiresAt: int, now: int)
    ensures WorldOk(Start(input, expiresAt, now), input)
  {
  }

  // ---- main results ----------------------------------------------------------------------------------------------

  /**
   * No two live invitations ever share an address, however it was spelled, if and only if nobody resends or reissues an
   * invitation, with new time, while another is live for its address.
   */
  lemma {:induction false} OneLiveExactly(input: seq<InputRow>, expiresAt: int, now: int, steps: seq<Step>)
    ensures OneLiveThroughout(Start(input, expiresAt, now), steps) <==> AllCareful(Start(input, expiresAt, now), steps)
  {
    StartIsOk(input, expiresAt, now);
    CarefulExactly(Start(input, expiresAt, now), steps, input);
  }

  /** After such a run no two live invitations share an address. */
  lemma {:induction false} AtMostOneLiveInvitation(input: seq<InputRow>, expiresAt: int, now: int, steps: seq<Step>,
                                                   i: nat, j: nat)
    requires AllCareful(Start(input, expiresAt, now), steps)
    ensures var w := Run(Start(input, expiresAt, now), steps);
            i < j < |w.store.rows| && Live(w.store.rows[i], w.now) && Live(w.store.rows[j], w.now)
            ==> Fold(w.store.rows[i].email) != Fold(w.store.rows[j].email)
  {
    hide AllCareful, OneLiveThroughout, Run;
    OneLiveExactly(input, expiresAt, now, steps);
    ThroughoutAtEnd(Start(input, expiresAt, now), steps);
  }

  /** Every write of an invitation is in the change log: its versions 0, 1, 2, ... in order, none missing or twice. */
  lemma {:induction false} EveryVersionIsRecorded(input: seq<InputRow>, expiresAt: int, now: int, steps: seq<Step>,
                                                  id: nat)
    ensures var s := Run(Start(input, expiresAt, now), steps).store;
            id < |s.rows| ==> Versions(s.log, id) == UpTo(s.rows[id].version + 1)
  {
    StartIsOk(input, expiresAt, now);
    RunKeeps(Start(input, expiresAt, now), steps, input);
  }

  /** Accepted, declined and revoked invitations never change again, and the recorded changes are never rewritten. */
  lemma {:induction false} ClosedInvitationsAreFinal(input: seq<InputRow>, expiresAt: int, now: int,
                                                     before: seq<Step>, later: seq<Step>,
                                  id: nat)
    ensures var a := Run(Start(input, expiresAt, now), before).store;
            var b := Run(Run(Start(input, expiresAt, now), before), later).store;
            a.log <= b.log && (id < |a.rows| && Closed(a.rows[id]) ==> id < |b.rows| && b.rows[id] == a.rows[id])
  {
    StartIsOk(input, expiresAt, now);
    RunKeeps(Start(input, expiresAt, now), before, input);
    var w := Run(Start(input, expiresAt, now), before);
    RunKeeps(w, later, input);
    if id < |w.store.rows| {
      assert RowGrows(w.store.rows[id], Run(w, later).store.rows[id]);
    }
  }

  /**
   * Whatever runs between a batch's chunks: there is one result for each row worked off, in order; a finished batch
   * decides each address once, at its first valid row; and a chunk never opens an erased upload.
   */
  lemma {:induction false} BatchResultsInEveryRun(input: seq<InputRow>, expiresAt: int, now: int, steps: seq<Step>,
                                                  env: Env, email: string,
                               i: nat)
    ensures var w := Run(Start(input, expiresAt, now), steps);
            && |w.batch.results| == w.batch.processed <= |input|
            && ResultsFit(input, w.batch.results)
            && BatchFits(w.batch) && Chunk(env.(now := w.now), true, w.store, w.batch).2 != Threw
            && (w.batch.status == COMPLETED ==>
                  (Decides(input, w.batch.results, email, i) <==> i == FirstOf(input, email) && i < |input|))
  {
    StartIsOk(input, expiresAt, now);
    RunKeeps(Start(input, expiresAt, now), steps, input);
    hide Run, Recorded, ResultFits, FirstOf, Has, Decides;
    var w := Run(Start(input, expiresAt, now), steps);
    ChunkKeeps(env.(now := w.now), true, w.store, w.batch, input);
    if w.batch.status == COMPLETED {
      EachAddressDecidedOnce(input, w.batch.results, email, i);
    }
  }

  /** An invitation runs out, the address is invited again, and resending the first makes both live. */
  lemma ResendMakesTwoLive(input: seq<InputRow>, expiresAt: int)
    ensures var steps := [IssueOne("a", 1), Tick(2 * DAY), IssueOne("a", 1)];
            var w := Run(Start(input, expiresAt, 0), steps);
            && AllCareful(Start(input, expiresAt, 0), steps) && |w.store.rows| == 2 && w.now == 2 * DAY
            && OneLive(w.store.rows, w.now)
            && Resend(w.store, 0, 1, w.now).1 == Done && !MayReopen(w.store, 0, 1, w.now)
            && !OneLive(Apply(w, ResendOne(0, 1)).store.rows, w.now)
  {
    var start := Start(input, expiresAt, 0);
    var first := Apply(start, IssueOne("a", 1));
    assert first.store.rows == [Fresh(Fold("a"), DAY)];
    var later := Apply(first, Tick(2 * DAY));
    var w := Apply(later, IssueOne("a", 1));
    assert w.store.rows == [Fresh(Fold("a"), DAY), Fresh(Fold("a"), 3 * DAY)];
    var steps := [IssueOne("a", 1), Tick(2 * DAY), IssueOne("a", 1)];
    assert steps[1..] == [Tick(2 * DAY), IssueOne("a", 1)] && steps[1..][1..] == [IssueOne("a", 1)];
    assert Run(w, []) == w && Run(later, [IssueOne("a", 1)]) == w;
    var after := Apply(w, ResendOne(0, 1)).store.rows;
    assert Live(after[0], w.now) && Live(after[1], w.now);
  }
}
