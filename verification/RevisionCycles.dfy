/**
 * What a finished virus scan does to a paper: activating the scanned version and opening the next review cycle after a
 * revision. Scan jobs may be repeated, late or out of order. A job's transaction is split between reading the latest
 * round and inserting the next one, so jobs may interleave there; the database keeps round numbers unique.
 */
module RevisionCycles {
  import opened Common

  datatype Kind = SUBMISSION | REVISION | CAMERA_READY

  datatype ScanStatus = PENDING_SCAN | CLEAN | INFECTED

  datatype Outcome = ACCEPT | REJECT | MINOR_REVISION | MAJOR_REVISION

  datatype Version = Version(kind: Kind, number: nat)

  /** A round has at most one decision. */
  datatype Round = Round(number: nat, decision: Option<Outcome>)

  /**
   * reading: the round numbers that running jobs found decided for revision; cycles: the rounds whose decision opened
   * the next one, in the order it happened.
   */
  datatype Paper = Paper(
    versions: seq<Version>,
    current: Option<nat>,
    cameraReady: bool,
    version: nat,
    assets: map<nat, ScanStatus>,
    rounds: seq<Round>,
    reading: set<nat>,
    cycles: seq<nat>)

  const NEW := Paper([], None, false, 0, map[], [], {}, [])

  // ---- the steps -------------------------------------------------------------------------------------------------

  predicate AsksRevision(decision: Option<Outcome>) {
    decision == Some(MINOR_REVISION) || decision == Some(MAJOR_REVISION)
  }

  /** The newest version of a kind: highest number, then latest created. */
  function LatestOf(versions: seq<Version>, kind: Kind): (r: Option<nat>)
    ensures r.Some? ==> r.value < |versions| && versions[r.value].kind == kind
    ensures forall i :: 0 <= i < |versions| && versions[i].kind == kind ==>
              r.Some? && versions[i].number <= versions[r.value].number
  {
    if versions == [] then None
    else
      var n := |versions| - 1;
      var before := LatestOf(versions[..n], kind);
      if versions[n].kind == kind && (before.None? || versions[before.value].number <= versions[n].number) then Some(n)
      else before
  }

  function LatestRound(rounds: seq<Round>): (r: Option<nat>)
    ensures r.Some? <==> rounds != []
    ensures r.Some? ==> r.value < |rounds| && forall i :: 0 <= i < |rounds| ==> rounds[i].number <= rounds[r.value].number
  {
    if rounds == [] then None
    else
      var n := |rounds| - 1;
      var before := LatestRound(rounds[..n]);
      if before.None? || rounds[before.value].number < rounds[n].number then Some(n) else before
  }

  function Upload(p: Paper, kind: Kind): Paper {
    var latest := LatestOf(p.versions, kind);
    p.(versions := p.versions + [Version(kind, (if latest.Some? then p.versions[latest.value].number else 0) + 1)])
  }

  function Decide(p: Paper, i: nat, outcome: Outcome): Paper {
    if i < |p.rounds| && p.rounds[i].decision.None? then p.(rounds := p.rounds[i := p.rounds[i].(decision := Some(outcome))])
    else p
  }

  /** Round numbers are unique: an insert of one that exists fails and changes nothing. */
  function Insert(p: Paper, number: nat): (Paper, bool) {
    if exists i :: 0 <= i < |p.rounds| && p.rounds[i].number == number then (p, false)
    else (p.(rounds := p.rounds + [Round(number, None)]), true)
  }

  function OpenFirst(p: Paper): Paper {
    if p.rounds == [] then Insert(p, 1).0 else p
  }

  datatype ScanResult = Ignored | Activated(opening: Option<nat>) | Threw

  /** The latest round's number, if its decision asks for a revision. */
  function CycleToOpen(p: Paper): Option<nat> {
    var latest := LatestRound(p.rounds);
    if latest.Some? && AsksRevision(p.rounds[latest.value].decision) then Some(p.rounds[latest.value].number) else None
  }

  /** The first part of a job. proof: the asset is a student document of this paper. */
  function Scan(p: Paper, asset: nat, v: nat, status: ScanStatus, proof: bool): (Paper, ScanResult) {
    var marked := p.(assets := p.assets[asset := status]);
    if status != CLEAN then (marked, Ignored)
    else if v >= |p.versions| then if proof then (marked, Ignored) else (p, Threw)
    else if p.versions[v].kind == REVISION && LatestOf(p.versions, REVISION) != Some(v) then (marked, Ignored)
    else
      var active := marked.(current := Some(v));
      match p.versions[v].kind
      case SUBMISSION => (active, Activated(None))
      case CAMERA_READY => (active.(cameraReady := true, version := p.version + 1), Activated(None))
      case REVISION =>
        var opening := CycleToOpen(p);
        (if opening.Some? then active.(reading := p.reading + {opening.value}) else active, Activated(opening))
  }

  /** The second part: the round after n, unless another job was first. */
  function Open(p: Paper, n: nat): Paper {
    if n !in p.reading then p
    else
      var r := Insert(p, n + 1);
      if r.1 then r.0.(cycles := p.cycles + [n]) else p
  }

  datatype Step =
    | UploadVersion(kind: Kind)
    | OpenFirstRound
    | DecideRound(i: nat, outcome: Outcome)
    | StartScan(asset: nat, v: nat, status: ScanStatus, proof: bool)
    | FinishScan(n: nat)

  function Apply(p: Paper, step: Step): Paper {
    match step
    case UploadVersion(kind) => Upload(p, kind)
    case OpenFirstRound => OpenFirst(p)
    case DecideRound(i, outcome) => Decide(p, i, outcome)
    case StartScan(asset, v, status, proof) => Scan(p, asset, v, status, proof).0
    case FinishScan(n) => Open(p, n)
  }

  function Run(p: Paper, steps: seq<Step>): Paper
    decreases |steps|
  {
    if steps == [] then p else Run(Apply(p, steps[0]), steps[1..])
  }

  // ---- invariants ------------------------------------------------------------------------------------------------

  predicate PaperOk(p: Paper) {
    && (forall i :: 0 <= i < |p.rounds| ==> p.rounds[i].number == i + 1)
    && (forall i :: 0 <= i < |p.rounds| - 1 ==> AsksRevision(p.rounds[i].decision))
    && (forall n :: n in p.reading ==> 1 <= n <= |p.rounds| && AsksRevision(p.rounds[n - 1].decision))
    && |p.cycles| == (if p.rounds == [] then 0 else |p.rounds| - 1)
    && (forall i :: 0 <= i < |p.cycles| ==> p.cycles[i] == i + 1)
    && (forall i, j :: 0 <= i < j < |p.versions| && p.versions[i].kind == p.versions[j].kind
          ==> p.versions[i].number < p.versions[j].number)
  }

  lemma ScanKeeps(p: Paper, asset: nat, v: nat, status: ScanStatus, proof: bool)
    requires PaperOk(p)
    ensures PaperOk(Scan(p, asset, v, status, proof).0)
  {
    hide LatestOf;
    if p.rounds != [] {
      LatestIsLast(p);
    }
  }

  lemma UploadKeeps(p: Paper, kind: Kind)
    requires PaperOk(p)
    ensures PaperOk(Upload(p, kind))
  {
  }

  lemma StepKeeps(p: Paper, step: Step)
    requires PaperOk(p)
    ensures PaperOk(Apply(p, step))
  {
    hide LatestOf;
    var next := Apply(p, step);
    match step {
      case StartScan(asset, v, status, proof) => ScanKeeps(p, asset, v, status, proof);
      case UploadVersion(kind) => UploadKeeps(p, kind);
      case FinishScan(n) =>
        if n in p.reading && n == |p.rounds| {
          assert next.rounds == p.rounds + [Round(n + 1, None)];
        } else if n in p.reading {
          assert p.rounds[n].number == n + 1;
        }
      case _ =>
    }
  }

  lemma {:induction false} RunKeeps(p: Paper, steps: seq<Step>)
    requires PaperOk(p)
    ensures PaperOk(Run(p, steps))
    decreases |steps|
  {
    hide PaperOk, Apply;
    if steps != [] {
      StepKeeps(p, steps[0]);
      RunKeeps(Apply(p, steps[0]), steps[1..]);
    }
  }

  // ---- main results ----------------------------------------------------------------------------------------------

  /** Round numbers are 1, 2, 3, ... and each later round follows one decided minor or major revision. */
  lemma {:induction false} RoundsFollowDecisions(steps: seq<Step>)
    ensures var p := Run(NEW, steps);
            && (forall i :: 0 <= i < |p.rounds| ==> p.rounds[i].number == i + 1)
            && (forall i :: 0 <= i < |p.rounds| - 1 ==> AsksRevision(p.rounds[i].decision))
  {
    RunKeeps(NEW, steps);
  }

  /** However many jobs run, a decision opens at most one cycle, and every cycle but the first was opened by one. */
  lemma {:induction false} OneCycleForEachDecision(steps: seq<Step>)
    ensures var p := Run(NEW, steps);
            && |p.cycles| == (if p.rounds == [] then 0 else |p.rounds| - 1)
            && (forall i, j :: 0 <= i < j < |p.cycles| ==> p.cycles[i] != p.cycles[j])
            && (forall i :: 0 <= i < |p.cycles| ==>
                  1 <= p.cycles[i] < |p.rounds| && AsksRevision(p.rounds[p.cycles[i] - 1].decision))
  {
    RunKeeps(NEW, steps);
  }

  /** A newer revision than v has been uploaded. */
  predicate Superseded(p: Paper, v: nat) {
    && v < |p.versions| && p.versions[v].kind == REVISION
    && exists u :: 0 <= u < |p.versions| && p.versions[u].kind == REVISION && p.versions[v].number < p.versions[u].number
  }

  lemma SupersededStays(p: Paper, step: Step, v: nat)
    requires Superseded(p, v) && p.current != Some(v)
    ensures Superseded(Apply(p, step), v) && Apply(p, step).current != Some(v)
  {
    var u :| 0 <= u < |p.versions| && p.versions[u].kind == REVISION && p.versions[v].number < p.versions[u].number;
    var next := Apply(p, step);
    assert next.versions[u] == p.versions[u] && next.versions[v] == p.versions[v];
    assert LatestOf(p.versions, REVISION) != Some(v);
  }

  lemma {:induction false} RunKeepsSuperseded(p: Paper, steps: seq<Step>, v: nat)
    requires Superseded(p, v) && p.current != Some(v)
    ensures Superseded(Run(p, steps), v) && Run(p, steps).current != Some(v)
    decreases |steps|
  {
    hide Superseded, Apply;
    if steps != [] {
      SupersededStays(p, steps[0], v);
      RunKeepsSuperseded(Apply(p, steps[0]), steps[1..], v);
    }
  }

  /** A superseded revision that is not current never becomes current, whatever scan jobs still arrive for it. */
  lemma {:induction false} SupersededNeverBecomesCurrent(before: seq<Step>, later: seq<Step>, v: nat)
    requires Superseded(Run(NEW, before), v) && Run(NEW, before).current != Some(v)
    ensures Run(Run(NEW, before), later).current != Some(v)
  {
    RunKeepsSuperseded(Run(NEW, before), later, v);
  }

  /** A whole job, with no other in between. */
  function Job(p: Paper, asset: nat, v: nat, status: ScanStatus, proof: bool): Paper {
    var r := Scan(p, asset, v, status, proof);
    if r.1.Activated? && r.1.opening.Some? then Open(r.0, r.1.opening.value) else r.0
  }

  /**
   * Right after a revision decision, the clean scan of the newest revision opens exactly the next round; any other
   * scan opens none.
   */
  lemma {:induction false} CleanRevisionOpensNextRound(steps: seq<Step>, asset: nat, v: nat, status: ScanStatus,
                                                       proof: bool)
    ensures var p := Run(NEW, steps);
            Job(p, asset, v, status, proof).rounds
            == p.rounds + if OpensCycle(p, v, status) then [Round(|p.rounds| + 1, None)] else []
  {
    RunKeeps(NEW, steps);
    JobOpens(Run(NEW, steps), asset, v, status, proof);
  }

  predicate OpensCycle(p: Paper, v: nat, status: ScanStatus) {
    && status == CLEAN && v < |p.versions| && p.versions[v].kind == REVISION
    && LatestOf(p.versions, REVISION) == Some(v)
    && p.rounds != [] && AsksRevision(p.rounds[|p.rounds| - 1].decision)
  }

  lemma LatestIsLast(p: Paper)
    requires PaperOk(p) && p.rounds != []
    ensures LatestRound(p.rounds) == Some(|p.rounds| - 1) && p.rounds[|p.rounds| - 1].number == |p.rounds|
    ensures forall i :: 0 <= i < |p.rounds| ==> p.rounds[i].number != |p.rounds| + 1
  {
    assert p.rounds[LatestRound(p.rounds).value].number >= p.rounds[|p.rounds| - 1].number;
  }

  lemma JobOpens(p: Paper, asset: nat, v: nat, status: ScanStatus, proof: bool)
    requires PaperOk(p)
    ensures Job(p, asset, v, status, proof).rounds
            == p.rounds + if OpensCycle(p, v, status) then [Round(|p.rounds| + 1, None)] else []
  {
    hide PaperOk, LatestOf, LatestRound;
    if p.rounds != [] {
      LatestIsLast(p);
    }
    assert p.rounds + [] == p.rounds;
  }

  /** Running the same job again straight away changes nothing, except that a camera-ready paper is touched again. */
  lemma {:induction false} RepeatedJob(steps: seq<Step>, asset: nat, v: nat, status: ScanStatus, proof: bool)
    ensures var once := Job(Run(NEW, steps), asset, v, status, proof);
            var twice := Job(once, asset, v, status, proof);
            if status == CLEAN && v < |once.versions| && once.versions[v].kind == CAMERA_READY
            then twice == once.(version := once.version + 1)
            else twice == once
  {
    RunKeeps(NEW, steps);
    hide Run, PaperOk, LatestOf, LatestRound, OpensCycle, Job, CycleToOpen;
    var p := Run(NEW, steps);
    var once := Job(p, asset, v, status, proof);
    JobKeepsOk(p, asset, v, status, proof);
    JobOpens(p, asset, v, status, proof);
    JobLeaves(p, asset, v, status, proof);
    NothingLeftToOpen(p, once, v, status);
    JobAgain(once, asset, v, status, proof);
  }

  predicate Activates(versions: seq<Version>, v: nat, status: ScanStatus) {
    && status == CLEAN && v < |versions|
    && (versions[v].kind == REVISION ==> LatestOf(versions, REVISION) == Some(v))
  }

  lemma JobLeaves(p: Paper, asset: nat, v: nat, status: ScanStatus, proof: bool)
    ensures var once := Job(p, asset, v, status, proof);
            && once.versions == p.versions
            && (Scan(p, asset, v, status, proof).1 != Threw ==> asset in once.assets && once.assets[asset] == status)
            && (Activates(p.versions, v, status) ==>
                  once.current == Some(v) && (p.versions[v].kind == CAMERA_READY ==> once.cameraReady))
  {
    hide LatestOf, LatestRound;
  }

  lemma JobAgain(once: Paper, asset: nat, v: nat, status: ScanStatus, proof: bool)
    requires Scan(once, asset, v, status, proof).1 != Threw ==> asset in once.assets && once.assets[asset] == status
    requires Activates(once.versions, v, status) ==>
               && once.current == Some(v) && (once.versions[v].kind == CAMERA_READY ==> once.cameraReady)
               && (once.versions[v].kind == REVISION ==> CycleToOpen(once).None?)
    ensures var twice := Job(once, asset, v, status, proof);
            if status == CLEAN && v < |once.versions| && once.versions[v].kind == CAMERA_READY
            then twice == once.(version := once.version + 1)
            else twice == once
  {
    hide LatestOf, LatestRound, CycleToOpen;
    if Scan(once, asset, v, status, proof).1 != Threw {
      assert once.assets[asset := status] == once.assets;
    }
  }

  /** After a job for v there is no cycle left for v to open. */
  lemma NothingLeftToOpen(p: Paper, once: Paper, v: nat, status: ScanStatus)
    requires PaperOk(once)
    requires once.rounds == p.rounds + if OpensCycle(p, v, status) then [Round(|p.rounds| + 1, None)] else []
    requires once.versions == p.versions
    ensures status == CLEAN && v < |p.versions| && LatestOf(p.versions, REVISION) == Some(v) ==> CycleToOpen(once).None?
  {
    if once.rounds != [] {
      LatestIsLast(once);
    }
  }

  lemma JobKeepsOk(p: Paper, asset: nat, v: nat, status: ScanStatus, proof: bool)
    requires PaperOk(p)
    ensures PaperOk(Job(p, asset, v, status, proof))
  {
    hide PaperOk;
    StepKeeps(p, StartScan(asset, v, status, proof));
    var r := Scan(p, asset, v, status, proof);
    if r.1.Activated? && r.1.opening.Some? {
      StepKeeps(r.0, FinishScan(r.1.opening.value));
    }
  }

  // ---- what repeated jobs still do -------------------------------------------------------------------------------

  /** What else a job leaves: the scan on its file, and a clean camera-ready version makes the paper camera-ready. */
  lemma JobAnswers(p: Paper, asset: nat, v: nat, status: ScanStatus, proof: bool)
    ensures var once := Job(p, asset, v, status, proof);
            var lost := status == CLEAN && v >= |p.versions| && !proof;
            var ready := status == CLEAN && v < |p.versions| && p.versions[v].kind == CAMERA_READY;
            && once.versions == p.versions
            && once.assets == (if lost then p.assets else p.assets[asset := status])
            && once.cameraReady == (p.cameraReady || ready) && once.version == p.version + (if ready then 1 else 0)
            && (lost ==> once == p)
  {
    hide LatestOf, LatestRound;
  }

  /** In every run a new version gets the next number of its kind, 1 for the first. */
  lemma {:induction false} UploadAnswers(steps: seq<Step>, kind: Kind)
    ensures var p := Run(NEW, steps);
            var after, n := Upload(p, kind), |p.versions|;
            && |after.versions| == n + 1 && after.versions[..n] == p.versions
            && after == p.(versions := after.versions) && after.versions[n].kind == kind
            && (forall i :: 0 <= i < n && p.versions[i].kind == kind ==> p.versions[i].number < after.versions[n].number)
            && (if exists i :: 0 <= i < n && p.versions[i].kind == kind
                then exists i :: 0 <= i < n && p.versions[i].kind == kind && p.versions[i].number + 1 == after.versions[n].number
                else after.versions[n].number == 1)
  {
    hide Run;
    var p := Run(NEW, steps);
    var latest := LatestOf(p.versions, kind);
    hide LatestOf;
    if latest.Some? {
      assert p.versions[latest.value].kind == kind;
    }
  }

  /** A whole job changes the current version exactly if it activates another one, and then to that one. */
  lemma {:induction false} JobSetsCurrentExactly(p: Paper, asset: nat, v: nat, status: ScanStatus, proof: bool)
    ensures var after := Job(p, asset, v, status, proof);
            && (after.current != p.current <==> Activates(p.versions, v, status) && p.current != Some(v))
            && (after.current != p.current ==> after.current == Some(v))
  {
    hide LatestOf, LatestRound;
  }

  /** The step scans a version clean in place of revision v: one of another kind, or the newest and newer revision. */
  predicate Displaces(p: Paper, step: Step, v: nat)
    requires v < |p.versions|
  {
    && step.StartScan? && step.status == CLEAN && step.v < |p.versions|
    && (p.versions[step.v].kind == REVISION ==>
          LatestOf(p.versions, REVISION) == Some(step.v) && p.versions[v].number < p.versions[step.v].number)
  }

  predicate CurrentThroughout(p: Paper, steps: seq<Step>, v: nat)
    decreases |steps|
  {
    p.current == Some(v) && (steps == [] || CurrentThroughout(Apply(p, steps[0]), steps[1..], v))
  }

  predicate NeverDisplaced(p: Paper, steps: seq<Step>, v: nat)
    decreases |steps|
  {
    v < |p.versions|
    && (steps == [] || (!Displaces(p, steps[0], v) && NeverDisplaced(Apply(p, steps[0]), steps[1..], v)))
  }

  lemma StepDisplacesExactly(p: Paper, step: Step, v: nat)
    requires PaperOk(p) && v < |p.versions| && p.versions[v].kind == REVISION && p.current == Some(v)
    ensures var next := Apply(p, step);
            && v < |next.versions| && next.versions[v] == p.versions[v]
            && (next.current != Some(v) <==> Displaces(p, step, v))
  {
    var latest := LatestOf(p.versions, REVISION);
    hide LatestOf, LatestRound;
    assert latest.Some? && (latest != Some(v) ==> p.versions[v].number < p.versions[latest.value].number) by {
      NewestIsNewer(p, v);
    }
  }

  lemma NewestIsNewer(p: Paper, v: nat)
    requires PaperOk(p) && v < |p.versions| && p.versions[v].kind == REVISION
    ensures var latest := LatestOf(p.versions, REVISION);
            latest.Some? && (latest != Some(v) ==> p.versions[v].number < p.versions[latest.value].number)
  {
    var latest := LatestOf(p.versions, REVISION).value;
    if latest != v {
      var first, second := if latest < v then latest else v, if latest < v then v else latest;
      assert p.versions[first].number < p.versions[second].number;
    }
  }

  lemma {:induction false} RunDisplacesExactly(p: Paper, steps: seq<Step>, v: nat)
    requires PaperOk(p) && v < |p.versions| && p.versions[v].kind == REVISION && p.current == Some(v)
    ensures CurrentThroughout(p, steps, v) <==> NeverDisplaced(p, steps, v)
    decreases |steps|
  {
    hide PaperOk, Apply, Displaces;
    if steps != [] {
      StepKeeps(p, steps[0]);
      StepDisplacesExactly(p, steps[0], v);
      if !Displaces(p, steps[0], v) {
        RunDisplacesExactly(Apply(p, steps[0]), steps[1..], v);
      }
    }
  }

  /**
   * In every run a current revision stays current throughout if and only if no version of another kind and no newer
   * revision, while it is the newest, is scanned clean.
   */
  lemma {:induction false} CurrentRevisionStaysExactly(before: seq<Step>, later: seq<Step>, v: nat)
    requires var p := Run(NEW, before);
             v < |p.versions| && p.versions[v].kind == REVISION && p.current == Some(v)
    ensures CurrentThroughout(Run(NEW, before), later, v) <==> NeverDisplaced(Run(NEW, before), later, v)
  {
    RunKeeps(NEW, before);
    RunDisplacesExactly(Run(NEW, before), later, v);
  }

  /** A late scan job of the submission puts it back in place of the revision: only revisions are checked for age. */
  lemma LateSubmissionScanReplacesRevision()
    ensures var p := Job(Upload(Upload(NEW, SUBMISSION), REVISION), 1, 1, CLEAN, false);
            p.current == Some(1) && Job(p, 0, 0, CLEAN, false).current == Some(0)
  {
    var one := Upload(NEW, SUBMISSION);
    assert one.versions == [Version(SUBMISSION, 1)];
    assert LatestOf(one.versions[..0], REVISION) == None && LatestOf(one.versions, REVISION) == None;
    var two := Upload(one, REVISION);
    assert two.versions == [Version(SUBMISSION, 1), Version(REVISION, 1)];
    assert two.versions[..1] == one.versions;
    assert LatestOf(two.versions, REVISION) == Some(1);
  }

  /** Repeating the old revision's job after the next revision decision opens a cycle with no new upload. */
  lemma RepeatedScanOpensNextCycle()
    ensures var uploaded := Upload(Decide(OpenFirst(NEW), 0, MINOR_REVISION), REVISION);
            var second := Decide(Job(uploaded, 0, 0, CLEAN, false), 1, MAJOR_REVISION);
            var third := Job(second, 0, 0, CLEAN, false);
            |second.rounds| == 2 && third.versions == second.versions && |third.rounds| == 3
  {
    var first := Decide(OpenFirst(NEW), 0, MINOR_REVISION);
    assert first.rounds == [Round(1, Some(MINOR_REVISION))];
    var uploaded := Upload(first, REVISION);
    assert LatestOf([], REVISION) == None;
    assert uploaded.versions == [Version(REVISION, 1)] && uploaded.versions[..0] == [];
    assert LatestOf(uploaded.versions, REVISION) == Some(0);
    assert LatestRound(uploaded.rounds) == Some(0);
    var scanned := Job(uploaded, 0, 0, CLEAN, false);
    assert scanned.rounds == [Round(1, Some(MINOR_REVISION)), Round(2, None)];
    var second := Decide(scanned, 1, MAJOR_REVISION);
    assert second.rounds == [Round(1, Some(MINOR_REVISION)), Round(2, Some(MAJOR_REVISION))];
    assert LatestRound(second.rounds) == Some(1);
  }

  // ---- the code --------------------------------------------------------------------------------------------------

  class PaperRecord {
    var versions: seq<Version>
    var current: Option<nat>
    var cameraReady: bool
    var version: nat
    var assets: map<nat, ScanStatus>
    var rounds: seq<Round>
    ghost var reading: set<nat>
    ghost var cycles: seq<nat>

    ghost function View(): Paper
      reads this
    {
      Paper(versions, current, cameraReady, version, assets, rounds, reading, cycles)
    }

    constructor ()
      ensures View() == NEW
    {
      versions, current, cameraReady, version, assets, rounds := [], None, false, 0, map[], [];
      reading, cycles := {}, [];
    }

    /** applyScanResultInTransaction; done is false when it throws and is rolled back. */
    method ApplyScanResult(asset: nat, v: nat, status: ScanStatus, proof: bool)
      returns (done: bool, activatedCameraReady: bool, openedRevisionCycle: bool)
      modifies this
      ensures View() == Job(old(View()), asset, v, status, proof)
      ensures done <==> Scan(old(View()), asset, v, status, proof).1 != Threw
      ensures openedRevisionCycle <==> |rounds| > |old(rounds)|
      ensures activatedCameraReady <==> version > old(version)
    {
      if status == CLEAN && v >= |versions| && !proof {
        return false, false, false;
      }
      assets := assets[asset := status];
      if status != CLEAN || v >= |versions| {
        return true, false, false;
      }
      var isRevision := versions[v].kind == REVISION;
      if isRevision && LatestOf(versions, REVISION) != Some(v) {
        return true, false, false;
      }
      activatedCameraReady := versions[v].kind == CAMERA_READY;
      current := Some(v);
      if activatedCameraReady {
        cameraReady, version := true, version + 1;
      }
      openedRevisionCycle := false;
      if isRevision {
        openedRevisionCycle := OpenRevisionCycle();
      }
      done := true;
    }

    method OpenRevisionCycle() returns (isNew: bool)
      modifies this
      ensures var opening := CycleToOpen(old(View()));
              View() == if opening.Some?
                        then Open(old(View()).(reading := old(reading) + {opening.value}), opening.value)
                        else old(View())
      ensures isNew <==> |rounds| > |old(rounds)|
    {
      var latest := LatestRound(rounds);
      if latest.None? || !AsksRevision(rounds[latest.value].decision) {
        return false;
      }
      var n := rounds[latest.value].number;
      reading := reading + {n};
      if exists i :: 0 <= i < |rounds| && rounds[i].number == n + 1 {
        return false;
      }
      rounds := rounds + [Round(n + 1, None)];
      cycles := cycles + [n];
      return true;
    }
  }
}
