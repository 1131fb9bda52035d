/**
 * The invitation change feed. Writers append rows numbered by one database-wide sequence while they hold their
 * conference's advisory lock; a poller reads the committed rows behind a cursor. A transaction is a run of separate
 * steps (lock, insert, commit or roll back), so any number of writers interleave with the poller.
 */
module ChangeFeed {
  import opened Common

  type Conference = nat
  type Transaction = nat

  datatype Change = Change(sequence: nat, conference: Conference, invitation: nat, action: string, version: nat)

  /** The fields of the row a writer supplies; the database assigns the sequence. */
  datatype Draft = Draft(conference: Conference, invitation: nat, action: string, version: nat)

  /**
   * next: the next sequence number; rolled-back numbers are not reused.
   * holder: who holds each conference's advisory lock.
   * pending: rows inserted but not yet committed; committed: the rows a reader can see.
   */
  datatype Log = Log(next: nat, holder: map<Conference, Transaction>,
                     pending: map<nat, (Transaction, Change)>, committed: map<nat, Change>)

  const EMPTY := Log(1, map[], map[], map[])

  // ---- writers ---------------------------------------------------------------------------------------------------

  predicate MayLock(log: Log, t: Transaction, c: Conference) {
    c !in log.holder || log.holder[c] == t
  }

  /** A transaction that finds the lock taken waits, so taking it is a step only when it is free or already held. */
  function Lock(log: Log, t: Transaction, c: Conference): Log {
    if MayLock(log, t, c) then log.(holder := log.holder[c := t]) else log
  }

  function Insert(log: Log, t: Transaction, d: Draft): Log {
    var row := Change(log.next, d.conference, d.invitation, d.action, d.version);
    log.(next := log.next + 1, pending := log.pending[log.next := (t, row)])
  }

  /** recordInvitationChange once its lock request has been granted. */
  function Record(log: Log, t: Transaction, d: Draft): Log {
    if d.conference in log.holder && log.holder[d.conference] == t then Insert(log, t, d) else log
  }

  function Owned(log: Log, t: Transaction): set<nat> {
    set n | n in log.pending && log.pending[n].0 == t
  }

  function Release(log: Log, t: Transaction): map<Conference, Transaction> {
    map c | c in log.holder && log.holder[c] != t :: log.holder[c]
  }

  function Commit(log: Log, t: Transaction): Log {
    Log(log.next, Release(log, t), log.pending - Owned(log, t),
        log.committed + map n | n in Owned(log, t) :: log.pending[n].1)
  }

  /** A rollback drops the rows and the locks, and leaves a gap in the numbering. */
  function Rollback(log: Log, t: Transaction): Log {
    log.(holder := Release(log, t), pending := log.pending - Owned(log, t))
  }

  // ---- the reader ------------------------------------------------------------------------------------------------

  /** The conference's committed rows numbered lo up to, not including, hi, in ascending order. */
  function Between(committed: map<nat, Change>, c: Conference, lo: nat, hi: nat): (rows: seq<Change>)
    decreases hi
  {
    if hi <= lo then []
    else
      var before := Between(committed, c, lo, hi - 1);
      if hi - 1 in committed && committed[hi - 1].conference == c then before + [committed[hi - 1]] else before
  }

  datatype Page = Page(data: seq<Change>, nextCursor: nat, hasMore: bool)

  /** One more row than the limit is fetched, only to learn whether another page follows. */
  function PageAfter(log: Log, c: Conference, cursor: nat, limit: nat): Page {
    var found := Between(log.committed, c, cursor + 1, log.next);
    var rows := if |found| > limit + 1 then found[..limit + 1] else found;
    var data := if |rows| > limit then rows[..limit] else rows;
    Page(data, if data == [] then cursor else data[|data| - 1].sequence, |rows| > limit)
  }

  // ---- the whole system ------------------------------------------------------------------------------------------

  /** One poller of one conference follows nextCursor and keeps what it was given. */
  datatype Feed = Feed(log: Log, conference: Conference, cursor: nat, delivered: seq<Change>)

  datatype Step =
    | TakeLock(t: Transaction, c: Conference)
    | RecordChange(t: Transaction, d: Draft)
    | CommitWriter(t: Transaction)
    | RollBackWriter(t: Transaction)
    | Poll(limit: nat)

  function Apply(f: Feed, step: Step): Feed {
    match step
    case TakeLock(t, c) => f.(log := Lock(f.log, t, c))
    case RecordChange(t, d) => f.(log := Record(f.log, t, d))
    case CommitWriter(t) => f.(log := Commit(f.log, t))
    case RollBackWriter(t) => f.(log := Rollback(f.log, t))
    case Poll(limit) =>
      var page := PageAfter(f.log, f.conference, f.cursor, limit);
      f.(cursor := page.nextCursor, delivered := f.delivered + page.data)
  }

  function Run(f: Feed, steps: seq<Step>): Feed
    decreases |steps|
  {
    if steps == [] then f else Run(Apply(f, steps[0]), steps[1..])
  }

  // ---- what holds between any two steps --------------------------------------------------------------------------

  predicate LogOk(log: Log) {
    && log.next >= 1
    && (forall n :: n in log.pending ==> PendingOk(log, n))
    && (forall n :: n in log.committed ==> 1 <= n < log.next && log.committed[n].sequence == n)
    && (forall n, m :: (n in log.pending && m in log.committed
                        && log.pending[n].1.conference == log.committed[m].conference) ==> m < n)
  }

  /** An uncommitted row's writer still holds the conference's lock. */
  predicate PendingOk(log: Log, n: nat)
    requires n in log.pending
  {
    && 1 <= n < log.next && log.pending[n].1.sequence == n && n !in log.committed
    && log.pending[n].1.conference in log.holder
    && log.holder[log.pending[n].1.conference] == log.pending[n].0
  }

  predicate FeedOk(f: Feed) {
    && LogOk(f.log)
    && f.cursor < f.log.next
    && (f.cursor == 0 || (f.cursor in f.log.committed && f.log.committed[f.cursor].conference == f.conference))
    && f.delivered == Between(f.log.committed, f.conference, 1, f.cursor + 1)
  }

  lemma {:induction false} BetweenSplit(committed: map<nat, Change>, c: Conference, lo: nat, mid: nat, hi: nat)
    requires lo <= mid <= hi
    ensures Between(committed, c, lo, hi) == Between(committed, c, lo, mid) + Between(committed, c, mid, hi)
    decreases hi
  {
    if mid < hi {
      BetweenSplit(committed, c, lo, mid, hi - 1);
    }
  }

  /** A stretch of the feed depends only on the rows numbered inside it. */
  lemma {:induction false} BetweenAgrees(a: map<nat, Change>, b: map<nat, Change>, c: Conference, lo: nat, hi: nat)
    requires forall n :: lo <= n < hi ==>
               ((n in a && a[n].conference == c) <==> (n in b && b[n].conference == c))
    requires forall n :: lo <= n < hi && n in a && a[n].conference == c ==> n in b && a[n] == b[n]
    ensures Between(a, c, lo, hi) == Between(b, c, lo, hi)
    decreases hi
  {
    if lo < hi {
      BetweenAgrees(a, b, c, lo, hi - 1);
    }
  }

  predicate Ascending(rows: seq<Change>) {
    forall i, j :: 0 <= i < j < |rows| ==> rows[i].sequence < rows[j].sequence
  }

  /** A stretch is ascending and holds exactly the conference's committed rows in its range. */
  lemma {:induction false} BetweenExact(log: Log, c: Conference, lo: nat, hi: nat)
    requires LogOk(log)
    ensures var rows := Between(log.committed, c, lo, hi);
            && Ascending(rows)
            && (forall i :: 0 <= i < |rows| ==>
                  && lo <= rows[i].sequence < hi && rows[i].sequence in log.committed
                  && log.committed[rows[i].sequence] == rows[i] && rows[i].conference == c)
            && (forall n :: lo <= n < hi && n in log.committed && log.committed[n].conference == c
                  ==> log.committed[n] in rows)
    decreases hi
  {
    if lo < hi {
      BetweenExact(log, c, lo, hi - 1);
      var before := Between(log.committed, c, lo, hi - 1);
      if hi - 1 in log.committed && log.committed[hi - 1].conference == c {
        assert forall row :: row in before ==> row in before + [log.committed[hi - 1]];
        assert (before + [log.committed[hi - 1]])[|before|] == log.committed[hi - 1];
      }
    }
  }

  /** Cutting a stretch after its k-th row is the stretch up to that row's number. */
  lemma {:induction false} BetweenPrefix(log: Log, c: Conference, lo: nat, hi: nat, k: nat)
    requires LogOk(log) && 0 < k <= |Between(log.committed, c, lo, hi)|
    ensures var rows := Between(log.committed, c, lo, hi);
            rows[..k] == Between(log.committed, c, lo, rows[k - 1].sequence + 1)
    decreases hi
  {
    var rows := Between(log.committed, c, lo, hi);
    BetweenExact(log, c, lo, hi);
    var before := Between(log.committed, c, lo, hi - 1);
    if k <= |before| {
      BetweenPrefix(log, c, lo, hi - 1, k);
      assert rows[..k] == before[..k];
    } else {
      assert rows[..k] == rows;
    }
  }

  lemma {:induction false} PageIsNextStretch(log: Log, c: Conference, cursor: nat, limit: nat)
    requires LogOk(log) && cursor < log.next
    ensures var page := PageAfter(log, c, cursor, limit);
            && cursor <= page.nextCursor < log.next
            && page.data == Between(log.committed, c, cursor + 1, page.nextCursor + 1)
            && (page.nextCursor == cursor
                || (page.nextCursor in log.committed && log.committed[page.nextCursor].conference == c))
            && (!page.hasMore ==> page.data == Between(log.committed, c, cursor + 1, log.next))
            && (page.hasMore ==> |page.data| == limit && Between(log.committed, c, page.nextCursor + 1, log.next) != [])
  {
    assert Between(log.committed, c, cursor + 1, cursor + 1) == [];
    hide Between, LogOk, Ascending;
    var found := Between(log.committed, c, cursor + 1, log.next);
    var page := PageAfter(log, c, cursor, limit);
    PageIsPrefix(log, c, cursor, limit);
    var k := |page.data|;
    if k > 0 {
      BetweenPrefix(log, c, cursor + 1, log.next, k);
      RowInRange(log, c, cursor + 1, log.next, k - 1);
    }
    BetweenSplit(log.committed, c, cursor + 1, page.nextCursor + 1, log.next);
  }

  /** A page is the first rows of what is left, and says whether it is all of them. */
  lemma {:induction false} PageIsPrefix(log: Log, c: Conference, cursor: nat, limit: nat)
    ensures var found := Between(log.committed, c, cursor + 1, log.next);
            var page := PageAfter(log, c, cursor, limit);
            && |page.data| <= |found| && page.data == found[..|page.data|]
            && (if page.hasMore then |page.data| == limit && limit < |found| else page.data == found)
            && page.nextCursor == (if page.data == [] then cursor else found[|page.data| - 1].sequence)
  {
    hide Between;
  }

  lemma {:induction false} RowInRange(log: Log, c: Conference, lo: nat, hi: nat, k: nat)
    requires LogOk(log) && k < |Between(log.committed, c, lo, hi)|
    ensures var row := Between(log.committed, c, lo, hi)[k];
            lo <= row.sequence < hi && row.sequence in log.committed && log.committed[row.sequence].conference == c
  {
    BetweenExact(log, c, lo, hi);
  }

  lemma WriterKeepsLog(log: Log, t: Transaction, c: Conference, d: Draft)
    requires LogOk(log)
    ensures LogOk(Lock(log, t, c)) && LogOk(Record(log, t, d)) && LogOk(Commit(log, t)) && LogOk(Rollback(log, t))
  {
    CommitKeepsLog(log, t);
  }

  /** Committing one writer's rows: no other writer has a row pending in the conferences it held. */
  lemma CommitKeepsLog(log: Log, t: Transaction)
    requires LogOk(log)
    ensures LogOk(Commit(log, t))
  {
    var after := Commit(log, t);
    forall n, m | n in after.pending && m in after.committed
                  && after.pending[n].1.conference == after.committed[m].conference
      ensures m < n
    {
      assert PendingOk(log, n);
      assert m in Owned(log, t) ==> PendingOk(log, m);
    }
    forall n | n in after.pending
      ensures PendingOk(after, n)
    {
      assert PendingOk(log, n);
    }
    forall n | n in after.committed
      ensures 1 <= n < after.next && after.committed[n].sequence == n
    {
      if n in Owned(log, t) {
        assert PendingOk(log, n);
      }
    }
  }

  lemma CommitKeepsFeed(f: Feed, t: Transaction)
    requires FeedOk(f)
    ensures FeedOk(Apply(f, CommitWriter(t)))
  {
    var after := Commit(f.log, t);
    CommitKeepsLog(f.log, t);
    forall n | 1 <= n < f.cursor + 1
      ensures (n in f.log.committed && f.log.committed[n].conference == f.conference)
              <==> (n in after.committed && after.committed[n].conference == f.conference)
      ensures n in f.log.committed ==> n in after.committed && f.log.committed[n] == after.committed[n]
    {
      if n in Owned(f.log, t) {
        assert PendingOk(f.log, n);
      }
    }
    BetweenAgrees(f.log.committed, after.committed, f.conference, 1, f.cursor + 1);
    assert f.cursor in f.log.committed && f.cursor in f.log.pending ==> PendingOk(f.log, f.cursor);
  }

  lemma StepKeepsFeed(f: Feed, step: Step)
    requires FeedOk(f)
    ensures FeedOk(Apply(f, step))
  {
    match step
    case CommitWriter(t) => CommitKeepsFeed(f, t);
    case Poll(limit) =>
      PageIsNextStretch(f.log, f.conference, f.cursor, limit);
      var cursor := PageAfter(f.log, f.conference, f.cursor, limit).nextCursor;
      BetweenSplit(f.log.committed, f.conference, 1, f.cursor + 1, cursor + 1);
    case TakeLock(t, c) => WriterKeepsLog(f.log, t, c, Draft(0, 0, "", 0));
    case RecordChange(t, d) => WriterKeepsLog(f.log, t, 0, d);
    case RollBackWriter(t) => WriterKeepsLog(f.log, t, 0, Draft(0, 0, "", 0));
  }

  lemma {:induction false} RunKeepsFeed(f: Feed, steps: seq<Step>)
    requires FeedOk(f)
    ensures FeedOk(Run(f, steps)) && Run(f, steps).conference == f.conference
    decreases |steps|
  {
    if steps != [] {
      StepKeepsFeed(f, steps[0]);
      RunKeepsFeed(Apply(f, steps[0]), steps[1..]);
    }
  }

  // ---- main results ----------------------------------------------------------------------------------------------

  /**
   * Over every interleaving of writers and the poller, what was delivered is ascending, without repeats, and is
   * exactly the conference's committed changes numbered up to the cursor.
   */
  lemma {:induction false} NeverSkipsOrRepeats(c: Conference, steps: seq<Step>)
    ensures var f := Run(Feed(EMPTY, c, 0, []), steps);
            && Ascending(f.delivered)
            && (forall i :: 0 <= i < |f.delivered| ==>
                  && f.delivered[i].conference == c && f.delivered[i].sequence <= f.cursor
                  && f.delivered[i].sequence in f.log.committed
                  && f.log.committed[f.delivered[i].sequence] == f.delivered[i])
            && (forall n :: n in f.log.committed && f.log.committed[n].conference == c && n <= f.cursor
                  ==> f.log.committed[n] in f.delivered)
  {
    RunKeepsFeed(Feed(EMPTY, c, 0, []), steps);
    var f := Run(Feed(EMPTY, c, 0, []), steps);
    BetweenExact(f.log, c, 1, f.cursor + 1);
  }

  /** Whatever commits later is numbered past the cursor: a delivered prefix is never amended. */
  lemma {:induction false} CommitsLandBehindTheCursor(c: Conference, before: seq<Step>, later: seq<Step>, n: nat)
    ensures var f := Run(Feed(EMPTY, c, 0, []), before);
            var g := Run(f, later);
            && f.delivered <= g.delivered
            && (NewRow(f, g, n) ==> n > f.cursor)
  {
    RunKeepsFeed(Feed(EMPTY, c, 0, []), before);
    RunOnlyExtends(Run(Feed(EMPTY, c, 0, []), before), later, n);
  }

  /** A row of the polled conference that committed between f and g. */
  predicate NewRow(f: Feed, g: Feed, n: nat) {
    n !in f.log.committed && n in g.log.committed && g.log.committed[n].conference == f.conference
  }

  lemma {:induction false} RunOnlyExtends(f: Feed, steps: seq<Step>, n: nat)
    requires FeedOk(f)
    ensures var g := Run(f, steps);
            && f.delivered <= g.delivered && f.cursor <= g.cursor && g.conference == f.conference
            && (n in f.log.committed ==> n in g.log.committed && g.log.committed[n] == f.log.committed[n])
            && (NewRow(f, g, n) ==> n > f.cursor)
    decreases |steps|
  {
    if steps != [] {
      var next := Apply(f, steps[0]);
      StepKeepsFeed(f, steps[0]);
      if steps[0].Poll? {
        PageIsNextStretch(f.log, f.conference, f.cursor, steps[0].limit);
      } else if steps[0].CommitWriter? && n in Owned(f.log, steps[0].t) {
        assert PendingOk(f.log, n);
      } else if steps[0].CommitWriter? {
        assert n in next.log.committed <==> n in f.log.committed;
      }
      RunOnlyExtends(next, steps[1..], n);
    }
  }

  /** A poll that reports no further page has caught up; one that reports more has moved on by a full page. */
  lemma {:induction false} PollCatchesUpOrMoves(c: Conference, steps: seq<Step>, limit: nat)
    requires limit > 0
    ensures var f := Run(Feed(EMPTY, c, 0, []), steps);
            var g := Apply(f, Poll(limit));
            if PageAfter(f.log, c, f.cursor, limit).hasMore
            then g.cursor > f.cursor && |g.delivered| == |f.delivered| + limit
            else g.delivered == Between(f.log.committed, c, 1, f.log.next)
  {
    RunKeepsFeed(Feed(EMPTY, c, 0, []), steps);
    var f := Run(Feed(EMPTY, c, 0, []), steps);
    RunOnlyExtends(Feed(EMPTY, c, 0, []), steps, 0);
    PageIsNextStretch(f.log, c, f.cursor, limit);
    BetweenSplit(f.log.committed, c, 1, f.cursor + 1, f.log.next);
    var page := PageAfter(f.log, c, f.cursor, limit);
    if page.hasMore {
      assert page.data != [];
      BetweenExact(f.log, c, f.cursor + 1, f.log.next);
    }
  }

  /**
   * The lock must last until the commit. If two transactions insert without it, the later number can commit first,
   * be delivered, and leave the earlier one behind the cursor for good.
   */
  lemma WithoutTheLockARowIsSkipped(c: Conference)
    ensures var first, second := Draft(c, 0, "A", 0), Draft(c, 1, "B", 0);
            var early := Commit(Insert(Insert(EMPTY, 1, first), 2, second), 2);
            var polled := Apply(Feed(early, c, 0, []), Poll(10));
            var late := Apply(polled, CommitWriter(1));
            && late.log.committed[1].conference == c && 1 <= late.cursor && late.log.committed[1] !in late.delivered
  {
    var first, second := Draft(c, 0, "A", 0), Draft(c, 1, "B", 0);
    var one, two := Change(1, c, 0, "A", 0), Change(2, c, 1, "B", 0);
    var both := Insert(Insert(EMPTY, 1, first), 2, second);
    assert both.pending == map[1 := (1, one), 2 := (2, two)];
    assert Owned(both, 2) == {2} && Owned(both, 1) == {1};
    var early := Commit(both, 2);
    assert early.committed == map[2 := two] && early.pending == map[1 := (1, one)];
    assert Between(early.committed, c, 1, 2) == [];
    assert Between(early.committed, c, 1, 3) == [two];
    assert Owned(early, 1) == {1};
  }

  // ---- the code --------------------------------------------------------------------------------------------------

  class ChangeLog {
    var next: nat
    var holder: map<Conference, Transaction>
    var pending: map<nat, (Transaction, Change)>
    var committed: map<nat, Change>

    function View(): Log
      reads this
    {
      Log(next, holder, pending, committed)
    }

    constructor ()
      ensures View() == EMPTY
    {
      next, holder, pending, committed := 1, map[], map[], map[];
    }

    /** recordInvitationChange: take the lock, then insert; false while another transaction holds the lock. */
    method RecordInvitationChange(t: Transaction, d: Draft) returns (done: bool)
      modifies this
      ensures View() == Record(Lock(old(View()), t, d.conference), t, d)
      ensures done == MayLock(old(View()), t, d.conference)
      ensures !done ==> View() == old(View())
    {
      if d.conference in holder && holder[d.conference] != t {
        return false;
      }
      holder := holder[d.conference := t];
      pending := pending[next := (t, Change(next, d.conference, d.invitation, d.action, d.version))];
      next := next + 1;
      return true;
    }

    /** End of a transaction: its rows become visible all at once, and only then are its locks released. */
    method CommitTransaction(t: Transaction)
      modifies this
      ensures View() == Commit(old(View()), t)
    {
      var mine := set n | n in pending && pending[n].0 == t;
      committed := committed + map n | n in mine :: pending[n].1;
      pending := pending - mine;
      holder := map c | c in holder && holder[c] != t :: holder[c];
    }

    method RollBackTransaction(t: Transaction)
      modifies this
      ensures View() == Rollback(old(View()), t)
    {
      pending := pending - set n | n in pending && pending[n].0 == t;
      holder := map c | c in holder && holder[c] != t :: holder[c];
    }

    /** changes: the committed rows behind the cursor, scanned upwards until one more than a page is found. */
    method Changes(c: Conference, cursor: nat, limit: nat) returns (page: Page)
      ensures page == PageAfter(View(), c, cursor, limit)
    {
      var rows: seq<Change> := [];
      var n := cursor + 1;
      ghost var found := Between(committed, c, cursor + 1, next);
      while n < next && |rows| <= limit
        invariant cursor < n && (n <= next || n == cursor + 1)
        invariant |rows| <= limit + 1
        invariant rows == Between(committed, c, cursor + 1, n)
      {
        if n in committed && committed[n].conference == c {
          rows := rows + [committed[n]];
        }
        n := n + 1;
      }
      assert found == rows + Between(committed, c, n, next) by {
        if n <= next {
          BetweenSplit(committed, c, cursor + 1, n, next);
        }
      }
      assert |found| > limit + 1 ==> found[..limit + 1] == rows;
      assert |found| <= limit + 1 && |rows| <= limit ==> rows == found;
      assert |rows| == limit + 1 ==> rows == found[..limit + 1];
      var data := if |rows| > limit then rows[..limit] else rows;
      page := Page(data, if data == [] then cursor else data[|data| - 1].sequence, |rows| > limit);
    }
  }
}
