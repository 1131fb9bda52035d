/** The invitation tables and the code that writes them: generating links, the expiry sweep and the batch worker. */
module InvitationDesk {
  import opened Common
  import opened Invitations
  import opened InvitationBatch

  class Desk {
    var rows: seq<Invitation>
    var log: seq<Entry>

    function View(): Store
      reads this
    {
      Store(rows, log)
    }

    constructor ()
      ensures View() == Invitations.EMPTY
    {
      rows, log := [], [];
    }

    method Create(row: Invitation, action: Action) returns (id: nat)
      modifies this
      ensures View() == Add(old(View()), row, action) && id == old(|rows|)
    {
      id := |rows|;
      rows := rows + [row];
      log := log + [Entry(id, action, row.version)];
    }

    method Update(id: nat, row: Invitation, action: Action)
      requires id < |rows|
      modifies this
      ensures View() == Put(old(View()), id, row, action)
    {
      rows := rows[id := row];
      log := log + [Entry(id, action, row.version)];
    }

    method Share(id: nat)
      requires id < |rows|
      modifies this
      ensures View() == MarkSent(old(View()), id)
    {
      var row := rows[id];
      if !row.sent {
        Update(id, row.(sent := true, version := row.version + 1), SentLinkGenerated);
      }
    }

    method ShareLink(id: nat, now: int) returns (outcome: Outcome)
      modifies this
      ensures (View(), outcome) == Link(old(View()), id, now)
    {
      if id >= |rows| || rows[id].revoked {
        return NotFound;
      }
      if rows[id].status == Pending && rows[id].expiresAt > now && !rows[id].sent {
        Share(id);
      }
      outcome := if rows[id].status == Pending && rows[id].expiresAt > now then Done else Conflict;
    }

    method RemoveInvitation(id: nat) returns (outcome: Outcome)
      modifies this
      ensures (View(), outcome) == Remove(old(View()), id)
    {
      if id >= |rows| || rows[id].revoked {
        return NotFound;
      }
      if rows[id].status != Pending {
        return Conflict;
      }
      var row := rows[id];
      Update(id, row.(status := Expired, revoked := true, version := row.version + 1), Revoked);
      return Done;
    }

    /** The newest live invitation of every requested email, found in one scan from the newest row down. */
    method CurrentLive(emails: seq<string>, now: int) returns (current: map<string, nat>)
      requires AllFolded(emails)
      ensures forall k :: 0 <= k < |emails| ==>
                NewestLive(rows, emails[k], now)
                == if emails[k] in current then Some(current[emails[k]]) else None
    {
      current := map[];
      var i := |rows|;
      while i > 0
        invariant 0 <= i <= |rows|
        invariant forall e :: e in current ==> i <= current[e] < |rows|
        invariant forall e :: e in current ==> Fold(rows[current[e]].email) == e && Live(rows[current[e]], now)
        invariant forall j :: i <= j < |rows| && Live(rows[j], now) && Fold(rows[j].email) in emails
                              ==> Fold(rows[j].email) in current && j <= current[Fold(rows[j].email)]
      {
        i := i - 1;
        var email := Fold(rows[i].email);
        if Live(rows[i], now) && email in emails && email !in current {
          current := current[email := i];
        }
      }
      forall k | 0 <= k < |emails|
        ensures NewestLive(rows, emails[k], now)
                == if emails[k] in current then Some(current[emails[k]]) else None
      {
        var newest := NewestLive(rows, emails[k], now);
        if emails[k] in current {
          assert LiveFor(rows[current[emails[k]]], emails[k], now);
        }
        if newest.Some? {
          assert LiveFor(rows[newest.value], emails[k], now) && Fold(rows[newest.value].email) == emails[k];
        }
      }
    }

    /** The looked-up invitation of one email, or a new one. */
    method Serve(email: string, current: Option<nat>, now: int) returns (id: nat)
      requires current == NewestLive(rows, email, now)
      modifies this
      ensures (View(), id) == GenerateOne(old(View()), email, now)
    {
      if current.Some? {
        Share(current.value);
        id := current.value;
      } else {
        id := Create(Fresh(email, now + TTL_DAYS * DAY), SentLinkGenerated);
      }
    }

    /** generate: the live invitations are looked up once, before any is written. */
    method GenerateLinks(emails: seq<string>, now: int) returns (ids: seq<nat>)
      requires AllFolded(emails) && Distinct(emails)
      modifies this
      ensures (View(), ids) == Generate(old(View()), emails, now)
    {
      var current := CurrentLive(emails, now);
      ids := [];
      var k := 0;
      assert emails[..0] == [];
      while k < |emails|
        invariant 0 <= k <= |emails|
        invariant (View(), ids) == Generate(old(View()), emails[..k], now)
        invariant forall j :: k <= j < |emails| ==>
                    NewestLive(rows, emails[j], now)
                    == if emails[j] in current then Some(current[emails[j]]) else None
      {
        hide NewestLive, Generate, GenerateOne, Fold;
        ghost var before := View();
        var email := emails[k];
        var id := Serve(email, if email in current then Some(current[email]) else None, now);
        ids := ids + [id];
        GenerateExtends(old(View()), emails, k, now);
        forall j | k < j < |emails|
          ensures NewestLive(rows, emails[j], now) == NewestLive(before.rows, emails[j], now)
        {
          GenerateElsewhere(before, email, emails[j], now);
        }
        k := k + 1;
      }
      assert emails[..k] == emails;
    }

    /** The whole request: the addresses as typed. */
    method GenerateRequested(raw: seq<string>, now: int) returns (ids: seq<nat>)
      modifies this
      ensures (View(), ids) == Generate(old(View()), Normalise(raw), now)
    {
      NormaliseIsASet(raw);
      ids := GenerateLinks(Normalise(raw), now);
    }

    /** The sweep's second half: each candidate of a possibly stale scan is checked again before it is written. */
    method SweepExpired(candidates: seq<nat>, now: int)
      modifies this
      ensures View() == ExpireAll(old(View()), candidates, now)
    {
      var k := 0;
      while k < |candidates|
        invariant 0 <= k <= |candidates|
        invariant View() == ExpireAll(old(View()), candidates[..k], now)
      {
        assert candidates[..k + 1][..k] == candidates[..k];
        var id := candidates[k];
        if id < |rows| && rows[id].status == Pending && !rows[id].revoked && rows[id].expiresAt <= now {
          Update(id, rows[id].(status := Expired, version := rows[id].version + 1), ExpiredBySweep);
        }
        k := k + 1;
      }
      assert candidates[..k] == candidates;
    }
  }

  lemma {:induction false} GenerateExtends(s: Store, emails: seq<string>, k: nat, now: int)
    requires k < |emails|
    ensures var before := Generate(s, emails[..k], now);
            var last := GenerateOne(before.0, emails[k], now);
            Generate(s, emails[..k + 1], now) == (last.0, before.1 + [last.1])
  {
    assert emails[..k + 1][..k] == emails[..k];
  }

  /** Serving one email leaves another's newest live invitation where it was. */
  lemma {:induction false} GenerateElsewhere(s: Store, email: string, other: string, now: int)
    requires Fold(email) == email && Fold(other) == other && email != other
    ensures NewestLive(GenerateOne(s, email, now).0.rows, other, now) == NewestLive(s.rows, other, now)
  {
    var after := GenerateOne(s, email, now).0.rows;
    assert SameRowsFor(s.rows, after, other);
    NewestLiveAgrees(s.rows, after, other, now);
  }

  /** One uploaded batch, and the desk it writes to. */
  class BatchJob {
    const desk: Desk
    var input: Option<seq<InputRow>>
    var status: BatchStatus
    var processed: nat
    var results: seq<Result>
    var expiresAt: int

    function View(): Batch
      reads this
    {
      Batch(input, status, processed, results, expiresAt)
    }

    predicate Valid()
      reads this
    {
      input.Some? ==> processed <= |input.value|
    }

    constructor (desk: Desk, rows: seq<InputRow>, expiresAt: int)
      ensures Valid() && View() == Queued(rows, expiresAt) && this.desk == desk
    {
      this.desk := desk;
      input, status, processed, results, this.expiresAt := Some(rows), QUEUED, 0, [], expiresAt;
    }

    /** The map from each folded address to its first valid row. */
    static method FirstRows(rows: seq<InputRow>) returns (first: map<string, nat>)
      ensures forall i :: 0 <= i < |rows| && rows[i].email.Some? ==>
                Fold(rows[i].email.value) in first
                && first[Fold(rows[i].email.value)] == FirstOf(rows, Fold(rows[i].email.value))
    {
      first := map[];
      for index := 0 to |rows|
        invariant forall e :: e in first ==>
                    first[e] < index && Has(rows[first[e]], e) && forall j :: 0 <= j < first[e] ==> !Has(rows[j], e)
        invariant forall i :: 0 <= i < index && rows[i].email.Some? ==> Fold(rows[i].email.value) in first
      {
        if rows[index].email.Some? {
          var email := Fold(rows[index].email.value);
          if email !in first {
            first := first[email := index];
          }
        }
      }
      forall i | 0 <= i < |rows| && rows[i].email.Some?
        ensures first[Fold(rows[i].email.value)] == FirstOf(rows, Fold(rows[i].email.value))
      {
        var email := Fold(rows[i].email.value);
        assert Has(rows[i], email) && Has(rows[first[email]], email);
      }
    }

    /** One row of a chunk. */
    method WorkRow(env: Env, rows: seq<InputRow>, first: map<string, nat>, index: nat) returns (result: Result)
      requires index < |rows|
      requires rows[index].email.Some? ==>
                 Fold(rows[index].email.value) in first
                 && first[Fold(rows[index].email.value)] == FirstOf(rows, Fold(rows[index].email.value))
      modifies desk
      ensures (desk.View(), result) == ProcessRow(env, rows, old(desk.View()), index)
    {
      var row := rows[index];
      if row.email.None? {
        return Result(index + 1, row.rowId, INVALID);
      }
      var email := Fold(row.email.value);
      if first[email] != index {
        return Result(index + 1, row.rowId, DUPLICATE_IN_BATCH(first[email] + 1));
      }
      if email in env.reviewers {
        return Result(index + 1, row.rowId, SKIPPED_REVIEWER);
      }
      if email in env.authors {
        return Result(index + 1, row.rowId, SKIPPED_AUTHOR);
      }
      var live := NewestLive(desk.rows, email, env.now);
      if live.Some? {
        desk.Share(live.value);
        return Result(index + 1, row.rowId, EXISTING(live.value));
      }
      if exists i :: 0 <= i < |desk.rows| && IsFor(desk.rows[i], email) && Closed(desk.rows[i]) {
        return Result(index + 1, row.rowId, CLOSED_INVITATION(NewestOf(desk.rows, email).value));
      }
      var id := desk.Create(Fresh(email, env.now + env.days * DAY), SentLinkGenerated);
      return Result(index + 1, row.rowId, CREATED(id));
    }

    /** processInvitationBatchChunk, from the stored resume point. */
    method ProcessChunk(env: Env, granted: bool) returns (end: ChunkEnd)
      requires Valid()
      modifies this, desk
      ensures Valid() && (desk.View(), View(), end) == Chunk(env, granted, old(desk.View()), old(View()))
    {
      if status == COMPLETED || status == CANCELLED || status == FAILED {
        return Finished;
      }
      if !granted || expiresAt <= env.now {
        status, input := CANCELLED, None;
        return Finished;
      }
      if input.None? {
        return Threw;
      }
      var rows := input.value;
      var first := FirstRows(rows);
      var last := if processed + CHUNK < |rows| then processed + CHUNK else |rows|;
      var done: seq<Result> := [];
      var index := processed;
      while index < last
        invariant processed <= index <= last
        invariant View() == old(View())
        invariant (desk.View(), done) == Pass(env, rows, old(desk.View()), processed, index)
      {
        hide ProcessRow, FirstOf, Fold;
        var result := WorkRow(env, rows, first, index);
        done := done + [result];
        index := index + 1;
      }
      results := results + done;
      processed := last;
      status := if last == |rows| then COMPLETED else RUNNING;
      end := if last == |rows| then Finished else More;
    }

    /** processInvitationBatchJob: chunks until one reports the end. It ends because every other chunk gets further. */
    method Work(env: Env) returns (end: ChunkEnd)
      requires Valid() && input.Some? && processed < |input.value| && !Over(status) && expiresAt > env.now
      modifies this, desk
      ensures end == Finished && status == COMPLETED && input == old(input) && processed == |input.value|
      ensures var pass := Pass(env, input.value, old(desk.View()), old(processed), |input.value|);
              desk.View() == pass.0 && results == old(results) + pass.1
    {
      hide Pass;
      ghost var s, start, rows := desk.View(), processed, input.value;
      end := ProcessChunk(env, true);
      while end == More
        invariant Valid() && input == Some(rows) && expiresAt == old(expiresAt) && end != Threw
        invariant start < processed <= |rows|
        invariant if end == More then !Over(status) && processed < |rows| else status == COMPLETED && processed == |rows|
        invariant desk.View() == Pass(env, rows, s, start, processed).0
        invariant results == old(results) + Pass(env, rows, s, start, processed).1
        decreases |rows| - processed
      {
        PassSplit(env, rows, s, start, processed, Min(processed + CHUNK, |rows|));
        end := ProcessChunk(env, true);
      }
    }
  }
}
