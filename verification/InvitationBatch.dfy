/**
 * A batch of invitations worked off 25 rows at a time. Each chunk is one transaction: it picks up at the stored count
 * of processed rows, so a crash before the commit simply repeats the chunk.
 */
module InvitationBatch {
  import opened Common
  import opened Invitations

  const CHUNK := 25

  /** An uploaded row; email is None when the row fails validation. */
  datatype InputRow = InputRow(rowId: Option<string>, email: Option<string>)

  datatype RowOutcome =
    | INVALID
    | DUPLICATE_IN_BATCH(firstRow: nat)
    | SKIPPED_REVIEWER
    | SKIPPED_AUTHOR
    | EXISTING(id: nat)
    | CLOSED_INVITATION(id: nat)
    | CREATED(id: nat)

  datatype Result = Result(row: nat, rowId: Option<string>, outcome: RowOutcome)

  datatype BatchStatus = QUEUED | RUNNING | COMPLETED | CANCELLED | FAILED

  /** input is None once it has been erased. */
  datatype Batch =
    Batch(input: Option<seq<InputRow>>, status: BatchStatus, processed: nat, results: seq<Result>, expiresAt: int)

  /** Who already reviews or writes for the conference (folded addresses), and the time of the transaction. */
  datatype Env = Env(reviewers: set<string>, authors: set<string>, days: nat, now: int)

  datatype ChunkEnd = Finished | More | Threw

  // ---- first occurrences -----------------------------------------------------------------------------------------

  predicate Has(row: InputRow, email: string) {
    row.email.Some? && Fold(row.email.value) == email
  }

  /** The first valid row with this folded address; the length of the input if there is none. */
  function FirstOf(input: seq<InputRow>, email: string): (k: nat)
    ensures k <= |input|
    ensures k < |input| ==> Has(input[k], email)
    ensures forall j :: 0 <= j < k ==> !Has(input[j], email)
  {
    if input == [] then 0
    else
      var n := |input| - 1;
      var k := FirstOf(input[..n], email);
      if k < n || Has(input[n], email) then k else |input|
  }

  // ---- one row, one chunk ----------------------------------------------------------------------------------------

  /** What becomes of an address at its first valid row, given the invitations there are. */
  function Verdict(env: Env, rows: seq<Invitation>, email: string): RowOutcome {
    if email in env.reviewers then SKIPPED_REVIEWER
    else if email in env.authors then SKIPPED_AUTHOR
    else
      var live := NewestLive(rows, email, env.now);
      if live.Some? then EXISTING(live.value)
      else if ClosedBefore(rows, email) then CLOSED_INVITATION(NewestOf(rows, email).value)
      else CREATED(|rows|)
  }

  function Perform(env: Env, s: Store, email: string, verdict: RowOutcome): Store
    requires verdict == Verdict(env, s.rows, email)
  {
    match verdict
    case EXISTING(id) => MarkSent(s, id)
    case CREATED(_) => Add(s, Fresh(email, env.now + env.days * DAY), SentLinkGenerated)
    case _ => s
  }

  function ProcessRow(env: Env, input: seq<InputRow>, s: Store, index: nat): (Store, Result)
    requires index < |input|
  {
    var row := input[index];
    if row.email.None? then (s, Result(index + 1, row.rowId, INVALID))
    else
      var email := Fold(row.email.value);
      var first := FirstOf(input, email);
      if first != index then (s, Result(index + 1, row.rowId, DUPLICATE_IN_BATCH(first + 1)))
      else
        var verdict := Verdict(env, s.rows, email);
        (Perform(env, s, email, verdict), Result(index + 1, row.rowId, verdict))
  }

  /** Rows lo up to, not including, hi in one pass. */
  function Pass(env: Env, input: seq<InputRow>, s: Store, lo: nat, hi: nat): (Store, seq<Result>)
    requires lo <= hi <= |input|
    decreases hi
  {
    if lo == hi then (s, [])
    else
      var before := Pass(env, input, s, lo, hi - 1);
      var last := ProcessRow(env, input, before.0, hi - 1);
      (last.0, before.1 + [last.1])
  }

  predicate Over(status: BatchStatus) {
    status == COMPLETED || status == CANCELLED || status == FAILED
  }

  /** One transaction. granted: the key, grant, organiser and scopes behind the batch are all still good. */
  function Chunk(env: Env, granted: bool, s: Store, b: Batch): (Store, Batch, ChunkEnd)
    requires b.input.Some? ==> b.processed <= |b.input.value|
  {
    if Over(b.status) then (s, b, Finished)
    else if !granted || b.expiresAt <= env.now then (s, b.(status := CANCELLED, input := None), Finished)
    else if b.input.None? then (s, b, Threw)
    else
      var input := b.input.value;
      var last := Min(b.processed + CHUNK, |input|);
      var pass := Pass(env, input, s, b.processed, last);
      (pass.0,
       b.(processed := last, results := b.results + pass.1, status := if last == |input| then COMPLETED else RUNNING),
       if last == |input| then Finished else More)
  }

  function Queued(input: seq<InputRow>, expiresAt: int): Batch {
    Batch(Some(input), QUEUED, 0, [], expiresAt)
  }

  /**
   * A batch that is over stays as it is; one whose grant is gone or whose time has run out is cancelled and its upload
   * erased; neither touches an invitation.
   */
  lemma StoppedChunk(env: Env, granted: bool, s: Store, b: Batch)
    requires b.input.Some? ==> b.processed <= |b.input.value|
    ensures var r := Chunk(env, granted, s, b);
            && (b.status in {COMPLETED, CANCELLED, FAILED} ==> r == (s, b, Finished))
            && (b.status in {QUEUED, RUNNING} && (!granted || b.expiresAt <= env.now) ==>
                  r == (s, Batch(None, CANCELLED, b.processed, b.results, b.expiresAt), Finished))
            && (b.status in {QUEUED, RUNNING} && granted && b.expiresAt > env.now ==>
                  r.2 == (if b.input.None? then Threw
                          else if b.processed + 25 < |b.input.value| then More else Finished))
  {
    hide Pass;
  }

  // ---- chunking is invisible -------------------------------------------------------------------------------------

  lemma {:induction false} PassSplit(env: Env, input: seq<InputRow>, s: Store, lo: nat, mid: nat, hi: nat)
    requires lo <= mid <= hi <= |input|
    ensures var a := Pass(env, input, s, lo, mid);
            var b := Pass(env, input, a.0, mid, hi);
            Pass(env, input, s, lo, hi) == (b.0, a.1 + b.1)
    decreases hi
  {
    hide ProcessRow;
    var a := Pass(env, input, s, lo, mid);
    if mid < hi {
      PassSplit(env, input, s, lo, mid, hi - 1);
      var b := Pass(env, input, a.0, mid, hi - 1);
      var last := ProcessRow(env, input, b.0, hi - 1);
      assert (a.1 + b.1) + [last.1] == a.1 + (b.1 + [last.1]);
    } else {
      assert Pass(env, input, a.0, mid, mid) == (a.0, []);
      assert a.1 + [] == a.1;
    }
  }

  /** Attempts at a chunk; a false entry crashed before its commit and left nothing behind. */
  function Attempts(env: Env, s: Store, b: Batch, commits: seq<bool>): (Store, Batch)
    requires b.input.Some? ==> b.processed <= |b.input.value|
    decreases |commits|
  {
    if commits == [] then (s, b)
    else
      var before := Attempts(env, s, b, commits[..|commits| - 1]);
      if commits[|commits| - 1] && (before.1.input.Some? ==> before.1.processed <= |before.1.input.value|)
      then var r := Chunk(env, true, before.0, before.1); (r.0, r.1)
      else before
  }

  function Commits(commits: seq<bool>): nat {
    if commits == [] then 0
    else Commits(commits[..|commits| - 1]) + if commits[|commits| - 1] then 1 else 0
  }

  /** After any crashes and retries the stored state is that of one pass over the rows processed so far. */
  lemma {:induction false} ChunkingIsInvisible(env: Env, s: Store, input: seq<InputRow>, expiresAt: int,
                                               commits: seq<bool>)
    requires expiresAt > env.now
    ensures var done := Min(CHUNK * Commits(commits), |input|);
            var pass := Pass(env, input, s, 0, done);
            Attempts(env, s, Queued(input, expiresAt), commits)
            == (pass.0, Batch(Some(input), if Commits(commits) == 0 then QUEUED
                                           else if done == |input| then COMPLETED else RUNNING,
                              done, pass.1, expiresAt))
    decreases |commits|
  {
    hide ProcessRow;
    if commits != [] {
      var n := |commits| - 1;
      ChunkingIsInvisible(env, s, input, expiresAt, commits[..n]);
      var done := Min(CHUNK * Commits(commits[..n]), |input|);
      PassSplit(env, input, s, 0, done, Min(done + CHUNK, |input|));
    }
  }

  /** Enough commits finish the batch, with the results and invitations of a single pass. */
  lemma {:induction false} FinishedBatchIsOnePass(env: Env, s: Store, input: seq<InputRow>, expiresAt: int,
                                                  commits: seq<bool>)
    requires expiresAt > env.now && Commits(commits) >= 1 && CHUNK * Commits(commits) >= |input|
    ensures var r := Attempts(env, s, Queued(input, expiresAt), commits);
            r.1.status == COMPLETED && (r.0, r.1.results) == Pass(env, input, s, 0, |input|)
  {
    ChunkingIsInvisible(env, s, input, expiresAt, commits);
  }

  // ---- the results -----------------------------------------------------------------------------------------------

  /** Result i belongs to row i, and says DUPLICATE or INVALID exactly when the row is one. */
  predicate ResultFits(input: seq<InputRow>, i: nat, r: Result)
    requires i < |input|
  {
    && r.row == i + 1 && r.rowId == input[i].rowId
    && (r.outcome.INVALID? <==> input[i].email.None?)
    && (input[i].email.Some? ==>
          var first := FirstOf(input, Fold(input[i].email.value));
          if first == i then !r.outcome.DUPLICATE_IN_BATCH? else r.outcome == DUPLICATE_IN_BATCH(first + 1))
  }

  predicate ResultsFit(input: seq<InputRow>, results: seq<Result>) {
    |results| <= |input| && forall i :: 0 <= i < |results| ==> ResultFits(input, i, results[i])
  }

  lemma {:induction false} PassResults(env: Env, input: seq<InputRow>, s: Store, lo: nat, hi: nat)
    requires lo <= hi <= |input|
    ensures var results := Pass(env, input, s, lo, hi).1;
            |results| == hi - lo && forall i :: 0 <= i < hi - lo ==> ResultFits(input, lo + i, results[i])
    decreases hi
  {
    if lo < hi {
      PassResults(env, input, s, lo, hi - 1);
    }
  }

  /** The result i decides an address: it is neither INVALID nor a duplicate. */
  predicate Decides(input: seq<InputRow>, results: seq<Result>, email: string, i: nat) {
    && i < |results| && i < |input| && Has(input[i], email)
    && !results[i].outcome.INVALID? && !results[i].outcome.DUPLICATE_IN_BATCH?
  }

  /** Every valid address of a finished batch is decided exactly once, at its first valid row. */
  lemma {:induction false} EachAddressDecidedOnce(input: seq<InputRow>, results: seq<Result>, email: string, i: nat)
    requires ResultsFit(input, results) && |results| == |input|
    ensures Decides(input, results, email, i) <==> i == FirstOf(input, email) && i < |input|
  {
    if i < |input| {
      assert ResultFits(input, i, results[i]);
    }
  }

  // ---- what a pass does to the invitations -----------------------------------------------------------------------

  /** The rows of one address are the same in both tables, and no row was added for it. */
  predicate Untouched(a: Store, b: Store, email: string) {
    && |a.rows| <= |b.rows|
    && (forall i :: 0 <= i < |a.rows| && Fold(a.rows[i].email) == email ==> b.rows[i] == a.rows[i])
    && (forall i :: 0 <= i < |a.rows| && Fold(a.rows[i].email) != email ==> Fold(b.rows[i].email) != email)
    && (forall i :: |a.rows| <= i < |b.rows| ==> Fold(b.rows[i].email) != email)
  }

  lemma RowKeeps(env: Env, input: seq<InputRow>, s: Store, index: nat)
    requires Recorded(s) && index < |input|
    ensures Writes(s, ProcessRow(env, input, s, index).0) && KeepsOneLive(s, ProcessRow(env, input, s, index).0, env.now)
  {
    hide Recorded, Grows, LogComplete, OneLive, EmailsFolded, NewestOf, FirstOf, Fold;
    NothingGrows(s);
    if input[index].email.Some? && FirstOf(input, Fold(input[index].email.value)) == index {
      var email := Fold(input[index].email.value);
      FoldTwice(input[index].email.value);
      match Verdict(env, s.rows, email) {
        case EXISTING(id) => MarkSentKeeps(s, id, env.now);
        case CREATED(_) => AddKeeps(s, Fresh(email, env.now + env.days * DAY), SentLinkGenerated, env.now);
        case _ =>
      }
    }
  }

  /** A row writes only invitations for its own address, and only if it is the first valid row with that address. */
  lemma {:induction false} RowTouchesItsAddress(env: Env, input: seq<InputRow>, s: Store, index: nat, email: string)
    requires index < |input| && FirstOf(input, email) != index
    ensures Untouched(s, ProcessRow(env, input, s, index).0, email)
  {
    hide FirstOf, NewestOf, ClosedBefore;
    if input[index].email.Some? && FirstOf(input, Fold(input[index].email.value)) == index {
      FoldTwice(input[index].email.value);
    }
  }

  lemma UntouchedTwice(a: Store, b: Store, c: Store, email: string)
    requires Untouched(a, b, email) && Untouched(b, c, email)
    ensures Untouched(a, c, email)
  {
  }

  /** A pass over rows lo..hi touches an address only if its first valid row is among them. */
  lemma {:induction false} PassTouches(env: Env, input: seq<InputRow>, s: Store, lo: nat, hi: nat, email: string)
    requires lo <= hi <= |input| && !(lo <= FirstOf(input, email) < hi)
    ensures Untouched(s, Pass(env, input, s, lo, hi).0, email)
    decreases hi
  {
    hide ProcessRow, Untouched, Fold, Has;
    if lo == hi {
      UntouchedAtFirst(s, email);
    } else {
      PassTouches(env, input, s, lo, hi - 1, email);
      var before := Pass(env, input, s, lo, hi - 1).0;
      RowTouchesItsAddress(env, input, before, hi - 1, email);
      UntouchedTwice(s, before, ProcessRow(env, input, before, hi - 1).0, email);
    }
  }

  lemma {:induction false} PassKeeps(env: Env, input: seq<InputRow>, s: Store, lo: nat, hi: nat)
    requires Recorded(s) && lo <= hi <= |input|
    ensures Writes(s, Pass(env, input, s, lo, hi).0) && KeepsOneLive(s, Pass(env, input, s, lo, hi).0, env.now)
    decreases hi
  {
    hide Recorded, Grows, OneLive, ProcessRow;
    if lo == hi {
      NothingGrows(s);
    } else {
      PassKeeps(env, input, s, lo, hi - 1);
      var before := Pass(env, input, s, lo, hi - 1).0;
      RowKeeps(env, input, before, hi - 1);
      GrowsTwice(s, before, ProcessRow(env, input, before, hi - 1).0);
    }
  }

  lemma UntouchedAtFirst(s: Store, email: string)
    ensures Untouched(s, s, email)
  {
  }

  /** The rows for an address are the same in a and in the longer b. */
  predicate SameRowsFor(a: seq<Invitation>, b: seq<Invitation>, email: string) {
    && |a| <= |b|
    && (forall i :: 0 <= i < |a| ==> (IsFor(a[i], email) ==> b[i] == a[i]))
    && (forall i :: 0 <= i < |b| ==> (IsFor(b[i], email) ==> i < |a| && a[i] == b[i]))
  }

  /** An untouched address looks the same in both tables, however it is looked up. */
  lemma {:induction false} LookupsAgree(a: Store, b: Store, email: string, now: int)
    requires Fold(email) == email && Untouched(a, b, email)
    ensures NewestLive(a.rows, email, now) == NewestLive(b.rows, email, now)
    ensures NewestOf(a.rows, email) == NewestOf(b.rows, email)
    ensures ClosedBefore(a.rows, email) <==> ClosedBefore(b.rows, email)
  {
    hide NewestLive, NewestOf, ClosedBefore;
    assert SameRowsFor(a.rows, b.rows, email);
    NewestLiveAgrees(a.rows, b.rows, email, now);
    NewestOfAgrees(a.rows, b.rows, email);
    ClosedAgrees(a.rows, b.rows, email);
  }

  lemma ClosedAgrees(a: seq<Invitation>, b: seq<Invitation>, email: string)
    requires SameRowsFor(a, b, email)
    ensures ClosedBefore(a, email) <==> ClosedBefore(b, email)
  {
    hide IsFor;
    if ClosedBefore(a, email) {
      var i :| 0 <= i < |a| && IsFor(a[i], email) && Closed(a[i]);
      assert IsFor(b[i], email);
    }
    if ClosedBefore(b, email) {
      var i :| 0 <= i < |b| && IsFor(b[i], email) && Closed(b[i]);
      assert IsFor(a[i], email);
    }
  }

  lemma {:induction false} NewestLiveAgrees(a: seq<Invitation>, b: seq<Invitation>, email: string, now: int)
    requires SameRowsFor(a, b, email)
    ensures NewestLive(a, email, now) == NewestLive(b, email, now)
  {
    hide NewestLive, IsFor;
    var x, y := NewestLive(a, email, now), NewestLive(b, email, now);
    if x.Some? {
      assert IsFor(a[x.value], email) && LiveFor(b[x.value], email, now);
    }
    if y.Some? {
      assert IsFor(b[y.value], email) && LiveFor(a[y.value], email, now);
    }
  }

  lemma {:induction false} NewestOfAgrees(a: seq<Invitation>, b: seq<Invitation>, email: string)
    requires SameRowsFor(a, b, email)
    ensures NewestOf(a, email) == NewestOf(b, email)
  {
    hide NewestOf, IsFor;
    var x, y := NewestOf(a, email), NewestOf(b, email);
    if x.Some? {
      assert IsFor(b[x.value], email);
    }
    if y.Some? {
      assert IsFor(a[y.value], email);
    }
  }

  /**
   * What an address comes to: nobody who reviews or writes for the conference is invited, a live invitation is kept, an
   * address whose invitations are closed is left alone, and any other is invited.
   */
  lemma VerdictAnswers(env: Env, rows: seq<Invitation>, email: string)
    ensures var v := Verdict(env, rows, email);
            && (v == SKIPPED_REVIEWER <==> email in env.reviewers)
            && (v == SKIPPED_AUTHOR <==> email in env.authors && email !in env.reviewers)
            && (v.EXISTING? <==>
                  && email !in env.reviewers && email !in env.authors
                  && exists i :: 0 <= i < |rows| && LiveFor(rows[i], email, env.now))
            && (v.EXISTING? ==>
                  v.id < |rows| && LiveFor(rows[v.id], email, env.now)
                  && forall i :: v.id < i < |rows| ==> !LiveFor(rows[i], email, env.now))
            && (v.CLOSED_INVITATION? <==>
                  && email !in env.reviewers && email !in env.authors
                  && (forall i :: 0 <= i < |rows| ==> !LiveFor(rows[i], email, env.now))
                  && exists i :: 0 <= i < |rows| && Fold(rows[i].email) == Fold(email) && Closed(rows[i]))
            && (v.CLOSED_INVITATION? ==>
                  v.id < |rows| && Fold(rows[v.id].email) == Fold(email)
                  && forall i :: v.id < i < |rows| ==> Fold(rows[i].email) != Fold(email))
            && (v.CREATED? ==> v.id == |rows|)
            && !v.INVALID? && !v.DUPLICATE_IN_BATCH?
  {
    var live, newest := NewestLive(rows, email, env.now), NewestOf(rows, email);
    hide NewestLive, NewestOf, Fold;
    assert forall i :: 0 <= i < |rows| ==> (IsFor(rows[i], email) <==> Fold(rows[i].email) == Fold(email));
  }

  /** A created invitation runs for the batch's days. */
  lemma CreatedRunsForDays(env: Env, s: Store, email: string)
    requires Verdict(env, s.rows, email).CREATED?
    ensures AddedFor(s, Perform(env, s, email, Verdict(env, s.rows, email)), email, env.now + env.days * DAY)
  {
  }

  /** Equal up to the id a created invitation happens to get. */
  predicate SameVerdict(a: RowOutcome, b: RowOutcome) {
    a == b || (a.CREATED? && b.CREATED?)
  }

  /**
   * What a row comes to depends only on its own address's history before the batch, never on the other rows or on
   * where the chunks were cut.
   */
  lemma {:induction false} VerdictsComeFromTheStart(env: Env, input: seq<InputRow>, s: Store, i: nat)
    requires i < |input| && input[i].email.Some?
    requires FirstOf(input, Fold(input[i].email.value)) == i
    ensures var results := Pass(env, input, s, 0, |input|).1;
            && |results| == |input|
            && SameVerdict(results[i].outcome, Verdict(env, s.rows, Fold(input[i].email.value)))
  {
    hide Verdict, Untouched, NewestLive, NewestOf, ClosedBefore, ResultFits, Fold;
    var email := Fold(input[i].email.value);
    FoldTwice(input[i].email.value);
    var before := Pass(env, input, s, 0, i).0;
    PassTouches(env, input, s, 0, i, email);
    VerdictCarriesOver(env, s, before, email);
    PassSplit(env, input, s, 0, i, |input|);
    PassSplit(env, input, before, i, i + 1, |input|);
    PassResults(env, input, s, 0, i);
    PassResults(env, input, before, i, i + 1);
    PassResults(env, input, s, 0, |input|);
    var one := Pass(env, input, before, i, i + 1);
    assert Pass(env, input, before, i, i) == (before, []);
    assert one.1[0] == ProcessRow(env, input, before, i).1;
    assert Pass(env, input, s, 0, |input|).1[i] == one.1[0];
  }

  /** An address the batch may add: its first valid row is among lo..hi, and nothing stood in its way at the start. */
  predicate MayAdd(env: Env, input: seq<InputRow>, s: Store, email: string, lo: nat, hi: nat) {
    && lo <= FirstOf(input, email) < hi
    && Verdict(env, s.rows, email).CREATED?
  }

  /** The invitations a pass adds: at most one for each address, and none for an address that was closed or live. */
  predicate AddsSoundly(env: Env, input: seq<InputRow>, s: Store, after: Store, lo: nat, hi: nat) {
    && |s.rows| <= |after.rows|
    && (forall i :: |s.rows| <= i < |after.rows| ==> MayAdd(env, input, s, after.rows[i].email, lo, hi))
    && (forall i, j :: |s.rows| <= i < j < |after.rows| ==> after.rows[i].email != after.rows[j].email)
  }

  lemma {:induction false} PassAddsSoundly(env: Env, input: seq<InputRow>, s: Store, lo: nat, hi: nat)
    requires lo <= hi <= |input|
    ensures AddsSoundly(env, input, s, Pass(env, input, s, lo, hi).0, lo, hi)
    decreases hi
  {
    hide Untouched, ProcessRow, MayAdd;
    if lo < hi {
      var index := hi - 1;
      PassAddsSoundly(env, input, s, lo, index);
      var before := Pass(env, input, s, lo, index).0;
      forall email | !(lo <= FirstOf(input, email) < index)
        ensures Untouched(s, before, email)
      {
        PassTouches(env, input, s, lo, index, email);
      }
      RowAddsSoundly(env, input, s, before, lo, index);
    }
  }

  lemma {:induction false} RowAddsSoundly(env: Env, input: seq<InputRow>, s: Store, before: Store, lo: nat, index: nat)
    requires lo <= index < |input| && AddsSoundly(env, input, s, before, lo, index)
    requires forall email :: !(lo <= FirstOf(input, email) < index) ==> Untouched(s, before, email)
    ensures AddsSoundly(env, input, s, ProcessRow(env, input, before, index).0, lo, index + 1)
  {
    hide ProcessRow, Untouched, FirstOf, AddsSoundly, MayAdd;
    RowAddsAtMostOne(env, input, s, before, index);
    AddsOneMore(env, input, s, before, ProcessRow(env, input, before, index).0, lo, index);
  }

  /** Emails stay, and at most one row is added, for an address whose first valid row is index. */
  predicate AddsOne(env: Env, input: seq<InputRow>, s: Store, before: Store, after: Store, index: nat) {
    && |before.rows| <= |after.rows| <= |before.rows| + 1
    && (forall i :: 0 <= i < |before.rows| ==> after.rows[i].email == before.rows[i].email)
    && (|after.rows| == |before.rows| + 1 ==>
          MayAdd(env, input, s, after.rows[|before.rows|].email, index, index + 1))
  }

  lemma AddsOneMore(env: Env, input: seq<InputRow>, s: Store, before: Store, after: Store, lo: nat, index: nat)
    requires lo <= index && AddsSoundly(env, input, s, before, lo, index)
    requires AddsOne(env, input, s, before, after, index)
    ensures AddsSoundly(env, input, s, after, lo, index + 1)
  {
    hide FirstOf, Verdict;
    var n := |before.rows|;
    forall i | |s.rows| <= i < n
      ensures MayAdd(env, input, s, after.rows[i].email, lo, index)
    {
      assert MayAdd(env, input, s, before.rows[i].email, lo, index);
    }
  }

  lemma {:induction false} RowAddsAtMostOne(env: Env, input: seq<InputRow>, s: Store, before: Store, index: nat)
    requires index < |input|
    requires forall email :: FirstOf(input, email) == index ==> Untouched(s, before, email)
    ensures AddsOne(env, input, s, before, ProcessRow(env, input, before, index).0, index)
  {
    hide NewestOf, FirstOf, NewestLive, ClosedBefore, Fold, Verdict, Untouched;
    var row := input[index];
    if row.email.Some? && FirstOf(input, Fold(row.email.value)) == index {
      var email := Fold(row.email.value);
      FoldTwice(row.email.value);
      VerdictCarriesOver(env, s, before, email);
      if !Verdict(env, before.rows, email).CREATED? {
        KeptEmails(env, before, email);
      }
    }
  }

  lemma VerdictCarriesOver(env: Env, s: Store, before: Store, email: string)
    requires Fold(email) == email && Untouched(s, before, email)
    ensures SameVerdict(Verdict(env, before.rows, email), Verdict(env, s.rows, email))
  {
    LookupsAgree(s, before, email, env.now);
  }

  lemma KeptEmails(env: Env, s: Store, email: string)
    requires !Verdict(env, s.rows, email).CREATED?
    ensures var after := Perform(env, s, email, Verdict(env, s.rows, email));
            |after.rows| == |s.rows| && forall i :: 0 <= i < |s.rows| ==> after.rows[i].email == s.rows[i].email
  {
  }

  /** A closed address is never invited again by a batch, in one pass or in any chunks. */
  lemma {:induction false} BatchNeverRecreates(env: Env, input: seq<InputRow>, s: Store, email: string)
    requires ClosedBefore(s.rows, email)
    ensures var after := Pass(env, input, s, 0, |input|).0;
            forall i :: |s.rows| <= i < |after.rows| ==> after.rows[i].email != email
  {
    PassAddsSoundly(env, input, s, 0, |input|);
  }

  // ---- a batch alongside everything else -------------------------------------------------------------------------

  /** What holds of a batch uploaded as input, whatever environment each of its chunks ran in. */
  predicate BatchOk(b: Batch, input: seq<InputRow>, now: int) {
    && (b.input.Some? ==> b.input.value == input)
    && (b.input.None? ==> Over(b.status) || b.expiresAt <= now)
    && b.processed == |b.results|
    && ResultsFit(input, b.results)
    && (b.status == COMPLETED ==> b.processed == |input|)
    && (!Over(b.status) ==> b.processed < |input| || input == [])
  }

  /** A chunk never opens an erased upload, and either ends the batch or gets further. */
  lemma ChunkKeeps(env: Env, granted: bool, s: Store, b: Batch, input: seq<InputRow>)
    requires Recorded(s) && BatchOk(b, input, env.now)
    ensures var r := Chunk(env, granted, s, b);
            && Writes(s, r.0) && KeepsOneLive(s, r.0, env.now) && BatchOk(r.1, input, env.now)
            && r.2 != Threw && b.results <= r.1.results
            && (r.2 == More ==> r.1.processed == b.processed + CHUNK)
            && (r.2 == Finished ==> Over(r.1.status))
  {
    hide Recorded, Grows, OneLive, ProcessRow;
    NothingGrows(s);
    if !Over(b.status) && granted && b.expiresAt > env.now {
      var last := Min(b.processed + CHUNK, |input|);
      PassKeeps(env, input, s, b.processed, last);
      PassResults(env, input, s, b.processed, last);
      var pass := Pass(env, input, s, b.processed, last);
      forall i | 0 <= i < last
        ensures ResultFits(input, i, (b.results + pass.1)[i])
      {
        if i < b.processed {
          assert ResultFits(input, i, b.results[i]);
        } else {
          var k := i - b.processed;
          assert ResultFits(input, b.processed + k, pass.1[k]);
        }
      }
    }
  }
}
