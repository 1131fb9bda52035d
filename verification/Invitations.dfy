/**
 * Reviewer invitations of one conference and every transaction that writes them. A row's id is its position, so a
 * higher id was created later; rows are never deleted. Each writer holds the conference's change lock until it
 * commits, so a transaction is one atomic step. A change row is appended for every write of an invitation.
 */
module Invitations {
  import opened Common

  datatype Status = Pending | Accepted | Declined | Expired

  datatype Invitation =
    Invitation(email: string, status: Status, revoked: bool, expiresAt: int, sent: bool, version: nat)

  datatype Action =
    SentLinkGenerated | Revoked | ExpiredBySweep | Answered | Resent | Extended | Reissued | Reinvited

  /** One appended change: which invitation, what happened, and the version it was left at. */
  datatype Entry = Entry(invitation: nat, action: Action, version: nat)

  datatype Store = Store(rows: seq<Invitation>, log: seq<Entry>)

  datatype Outcome = Done | NotFound | Conflict | BadRequest

  const EMPTY := Store([], [])

  const DAY := 86400000

  /** REVIEWER_INVITATION_TTL_DAYS. */
  const TTL_DAYS := 7

  // ---- emails ----------------------------------------------------------------------------------------------------

  function LowerChar(c: char): char {
    if 'A' <= c <= 'Z' then (c as int + 32) as char else c
  }

  /** toLowerCase, on the ASCII letters. */
  function Fold(email: string): (r: string)
    ensures |r| == |email|
  {
    seq(|email|, i requires 0 <= i < |email| => LowerChar(email[i]))
  }

  lemma FoldTwice(email: string)
    ensures Fold(Fold(email)) == Fold(email)
  {
    forall i | 0 <= i < |email|
      ensures Fold(Fold(email))[i] == Fold(email)[i]
    {
      assert Fold(Fold(email))[i] == LowerChar(Fold(email)[i]);
    }
  }

  /** The order the source sorts addresses in. */
  predicate Precedes(a: string, b: string) {
    b != "" && (a == "" || a[0] < b[0] || (a[0] == b[0] && Precedes(a[1..], b[1..])))
  }

  function InsertSorted(email: string, sorted: seq<string>): seq<string> {
    if sorted == [] then [email]
    else if Precedes(sorted[0], email) then [sorted[0]] + InsertSorted(email, sorted[1..])
    else [email] + sorted
  }

  /** The requested addresses folded, each once, in order. */
  function Normalise(raw: seq<string>): seq<string> {
    if raw == [] then []
    else
      var rest := Normalise(raw[1..]);
      if Fold(raw[0]) in rest then rest else InsertSorted(Fold(raw[0]), rest)
  }

  lemma {:induction false} InsertKeepsContents(email: string, sorted: seq<string>)
    ensures forall e :: e in InsertSorted(email, sorted) <==> e == email || e in sorted
    ensures |InsertSorted(email, sorted)| == |sorted| + 1
    decreases |sorted|
  {
    if sorted != [] {
      InsertKeepsContents(email, sorted[1..]);
      assert sorted == [sorted[0]] + sorted[1..];
    }
  }

  predicate Distinct(emails: seq<string>) {
    forall i, j :: 0 <= i < j < |emails| ==> emails[i] != emails[j]
  }

  predicate AllFolded(emails: seq<string>) {
    forall i :: 0 <= i < |emails| ==> Fold(emails[i]) == emails[i]
  }

  lemma {:induction false} InsertKeepsDistinct(email: string, sorted: seq<string>)
    requires Distinct(sorted) && email !in sorted
    ensures Distinct(InsertSorted(email, sorted))
    decreases |sorted|
  {
    if sorted != [] && Precedes(sorted[0], email) {
      InsertKeepsContents(email, sorted[1..]);
      InsertKeepsDistinct(email, sorted[1..]);
      assert sorted[0] !in InsertSorted(email, sorted[1..]);
    }
  }

  /** Folding leaves each requested address exactly once, whatever its spellings. */
  lemma {:induction false} NormaliseIsASet(raw: seq<string>)
    ensures Distinct(Normalise(raw)) && AllFolded(Normalise(raw))
    ensures forall e :: e in Normalise(raw) <==> exists i :: 0 <= i < |raw| && Fold(raw[i]) == e
    decreases |raw|
  {
    if raw != [] {
      var rest := Normalise(raw[1..]);
      NormaliseIsASet(raw[1..]);
      FoldTwice(raw[0]);
      if Fold(raw[0]) !in rest {
        InsertKeepsDistinct(Fold(raw[0]), rest);
        InsertKeepsContents(Fold(raw[0]), rest);
      }
      forall i | 0 <= i < |Normalise(raw)|
        ensures Fold(Normalise(raw)[i]) == Normalise(raw)[i]
      {
        assert Normalise(raw)[i] == Fold(raw[0]) || Normalise(raw)[i] in rest;
      }
      forall e
        ensures e in Normalise(raw) <==> exists i :: 0 <= i < |raw| && Fold(raw[i]) == e
      {
        if e in rest {
          var i :| 0 <= i < |raw[1..]| && Fold(raw[1..][i]) == e;
          assert Fold(raw[i + 1]) == e;
        }
        if i :| 0 <= i < |raw| && Fold(raw[i]) == e {
          assert i > 0 ==> Fold(raw[1..][i - 1]) == e;
        }
      }
    }
  }

  // ---- lifecycle -------------------------------------------------------------------------------------------------

  predicate Live(row: Invitation, now: int) {
    row.status == Pending && !row.revoked && row.expiresAt > now
  }

  /** An answer or a revocation closes an invitation for good; running out of time does not. */
  predicate Closed(row: Invitation) {
    row.status == Declined || row.status == Accepted || row.revoked
  }

  datatype Lifecycle = PENDING | SENT | ACCEPTED | DECLINED | EXPIRED | REVOKED

  function InvitationLifecycle(row: Invitation, now: int): Lifecycle {
    if row.revoked then REVOKED
    else if row.status == Accepted then ACCEPTED
    else if row.status == Declined then DECLINED
    else if row.status == Expired || row.expiresAt <= now then EXPIRED
    else if row.sent then SENT
    else PENDING
  }

  /** The database filter that counts and lists one lifecycle state. */
  predicate LifecycleFilter(state: Lifecycle, row: Invitation, now: int) {
    match state
    case REVOKED => row.revoked
    case ACCEPTED => !row.revoked && row.status == Accepted
    case DECLINED => !row.revoked && row.status == Declined
    case EXPIRED => !row.revoked && (row.status == Expired || (row.status == Pending && row.expiresAt <= now))
    case SENT => !row.revoked && row.status == Pending && row.expiresAt > now && row.sent
    case PENDING => !row.revoked && row.status == Pending && row.expiresAt > now && !row.sent
  }

  function CountWhere(rows: seq<Invitation>, state: Lifecycle, now: int): int {
    if rows == [] then 0
    else CountWhere(rows[..|rows| - 1], state, now) + if LifecycleFilter(state, rows[|rows| - 1], now) then 1 else 0
  }

  /** The six database counts split the ledger: every invitation is counted once, under its lifecycle state. */
  lemma {:induction false} CountsCoverEveryInvitation(rows: seq<Invitation>, now: int)
    ensures CountWhere(rows, PENDING, now) + CountWhere(rows, SENT, now) + CountWhere(rows, ACCEPTED, now)
            + CountWhere(rows, DECLINED, now) + CountWhere(rows, EXPIRED, now) + CountWhere(rows, REVOKED, now) == |rows|
    ensures forall i, state :: 0 <= i < |rows| ==>
              (LifecycleFilter(state, rows[i], now) <==> InvitationLifecycle(rows[i], now) == state)
  {
    if rows != [] {
      CountsCoverEveryInvitation(rows[..|rows| - 1], now);
    }
  }

  // ---- looking up an email ---------------------------------------------------------------------------------------

  /** Addresses are compared without regard to case. */
  predicate IsFor(row: Invitation, email: string) {
    Fold(row.email) == Fold(email)
  }

  predicate LiveFor(row: Invitation, email: string, now: int) {
    Live(row, now) && IsFor(row, email)
  }

  /** The newest live invitation for an email. */
  function NewestLive(rows: seq<Invitation>, email: string, now: int): (r: Option<nat>)
    ensures r.Some? ==> r.value < |rows| && LiveFor(rows[r.value], email, now)
    ensures forall i :: 0 <= i < |rows| && LiveFor(rows[i], email, now) ==> r.Some? && i <= r.value
  {
    if rows == [] then None
    else if LiveFor(rows[|rows| - 1], email, now) then Some(|rows| - 1)
    else NewestLive(rows[..|rows| - 1], email, now)
  }

  /** The newest invitation for an email, live or not. */
  function NewestOf(rows: seq<Invitation>, email: string): (r: Option<nat>)
    ensures r.Some? ==> r.value < |rows| && IsFor(rows[r.value], email)
    ensures forall i :: 0 <= i < |rows| && IsFor(rows[i], email) ==> r.Some? && i <= r.value
  {
    if rows == [] then None
    else if IsFor(rows[|rows| - 1], email) then Some(|rows| - 1)
    else NewestOf(rows[..|rows| - 1], email)
  }

  predicate ClosedBefore(rows: seq<Invitation>, email: string) {
    exists i :: 0 <= i < |rows| && IsFor(rows[i], email) && Closed(rows[i])
  }

  // ---- the two ways a row is written -----------------------------------------------------------------------------

  function Put(s: Store, id: nat, row: Invitation, action: Action): Store
    requires id < |s.rows|
  {
    Store(s.rows[id := row], s.log + [Entry(id, action, row.version)])
  }

  function Add(s: Store, row: Invitation, action: Action): Store {
    Store(s.rows + [row], s.log + [Entry(|s.rows|, action, row.version)])
  }

  function Fresh(email: string, expiresAt: int): Invitation {
    Invitation(email, Pending, false, expiresAt, true, 0)
  }

  // ---- the bot's operations --------------------------------------------------------------------------------------

  function MarkSent(s: Store, id: nat): Store
    requires id < |s.rows|
  {
    var row := s.rows[id];
    if row.sent then s else Put(s, id, row.(sent := true, version := row.version + 1), SentLinkGenerated)
  }

  function Link(s: Store, id: nat, now: int): (Store, Outcome) {
    if id >= |s.rows| || s.rows[id].revoked then (s, NotFound)
    else if !Live(s.rows[id], now) then (s, Conflict)
    else (MarkSent(s, id), Done)
  }

  function Remove(s: Store, id: nat): (Store, Outcome) {
    if id >= |s.rows| || s.rows[id].revoked then (s, NotFound)
    else if s.rows[id].status != Pending then (s, Conflict)
    else
      var row := s.rows[id];
      (Put(s, id, row.(status := Expired, revoked := true, version := row.version + 1), Revoked), Done)
  }

  /** One requested email: hand back its live invitation, or create one. */
  function GenerateOne(s: Store, email: string, now: int): (Store, nat) {
    var existing := NewestLive(s.rows, email, now);
    if existing.Some? then (MarkSent(s, existing.value), existing.value)
    else (Add(s, Fresh(email, now + TTL_DAYS * DAY), SentLinkGenerated), |s.rows|)
  }

  function Generate(s: Store, emails: seq<string>, now: int): (Store, seq<nat>) {
    if emails == [] then (s, [])
    else
      var before := Generate(s, emails[..|emails| - 1], now);
      var last := GenerateOne(before.0, emails[|emails| - 1], now);
      (last.0, before.1 + [last.1])
  }

  // ---- the expiry sweep ------------------------------------------------------------------------------------------

  /** One candidate in its own transaction; the scan that named it may be stale, so it is checked again. */
  function ExpireOne(s: Store, id: nat, now: int): Store {
    if id >= |s.rows| || s.rows[id].status != Pending || s.rows[id].revoked || s.rows[id].expiresAt > now then s
    else Put(s, id, s.rows[id].(status := Expired, version := s.rows[id].version + 1), ExpiredBySweep)
  }

  function ExpireAll(s: Store, candidates: seq<nat>, now: int): Store {
    if candidates == [] then s
    else ExpireOne(ExpireAll(s, candidates[..|candidates| - 1], now), candidates[|candidates| - 1], now)
  }

  // ---- other writers of the same rows ----------------------------------------------------------------------------

  /** The invitee accepts or declines. */
  function Answer(s: Store, id: nat, accepted: bool, now: int): (Store, Outcome) {
    if id >= |s.rows| then (s, NotFound)
    else if !Live(s.rows[id], now) then (s, Conflict)
    else
      var row := s.rows[id];
      (Put(s, id, row.(status := if accepted then Accepted else Declined, version := row.version + 1), Answered), Done)
  }

  /** An organiser invites one address. Existing rows are matched by exact spelling. */
  function Issue(s: Store, email: string, days: nat, now: int): (Store, Outcome) {
    if exists i :: 0 <= i < |s.rows| && s.rows[i].email == Fold(email) && Live(s.rows[i], now) then (s, Conflict)
    else (Add(s, Fresh(Fold(email), now + days * DAY), SentLinkGenerated), Done)
  }

  function Resend(s: Store, id: nat, days: nat, now: int): (Store, Outcome) {
    if id >= |s.rows| then (s, NotFound)
    else if Closed(s.rows[id]) then (s, Conflict)
    else
      var row := s.rows[id];
      (Put(s, id, row.(status := Pending, expiresAt := now + days * DAY, sent := true, version := row.version + 1),
           Resent), Done)
  }

  datatype Command = EXTEND | REISSUE | REVOKE | REINVITE

  /** applyInvitationAction; reviewer: the invitee already has reviewer access. */
  function Act(s: Store, id: nat, version: nat, command: Command, days: nat, reviewer: bool, now: int)
    : (Store, Outcome)
  {
    if id >= |s.rows| then (s, NotFound)
    else if s.rows[id].version != version then (s, Conflict)
    else
      var row := s.rows[id];
      var state := InvitationLifecycle(row, now);
      var expiresAt := now + days * DAY;
      if command == REINVITE then
        if state != DECLINED && state != REVOKED then (s, Conflict)
        else if NewestLive(s.rows, row.email, now).Some? then (s, Conflict)
        else if reviewer then (s, Conflict)
        else (Add(s, Fresh(row.email, expiresAt), Reinvited), Done)
      else if state == ACCEPTED || state == DECLINED || state == REVOKED then (s, Conflict)
      else if command == EXTEND && (state == EXPIRED || expiresAt <= row.expiresAt) then (s, BadRequest)
      else if command == REVOKE then
        (Put(s, id, row.(status := Expired, revoked := true, version := row.version + 1), Revoked), Done)
      else
        (Put(s, id, row.(status := Pending, expiresAt := expiresAt, sent := row.sent || command == REISSUE,
                         version := row.version + 1),
             if command == REISSUE then Reissued else Extended), Done)
  }

  // ---- invariants ------------------------------------------------------------------------------------------------

  /** At most one live invitation per case-folded email. */
  predicate OneLive(rows: seq<Invitation>, now: int) {
    forall i, j :: 0 <= i < j < |rows| && Live(rows[i], now) && Live(rows[j], now)
      ==> Fold(rows[i].email) != Fold(rows[j].email)
  }

  predicate EmailsFolded(rows: seq<Invitation>) {
    forall i :: 0 <= i < |rows| ==> Fold(rows[i].email) == rows[i].email
  }

  /** The versions recorded for one invitation, oldest first. */
  function Versions(log: seq<Entry>, id: nat): seq<nat> {
    if log == [] then []
    else
      var last := log[|log| - 1];
      Versions(log[..|log| - 1], id) + if last.invitation == id then [last.version] else []
  }

  function UpTo(n: nat): seq<nat> {
    if n == 0 then [] else UpTo(n - 1) + [n - 1]
  }

  /** The log holds each invitation's versions 0, 1, 2, ... up to its current one: no write went unrecorded. */
  ghost predicate LogComplete(s: Store) {
    && (forall id: nat :: id < |s.rows| ==> Versions(s.log, id) == UpTo(s.rows[id].version + 1))
    && (forall id: nat :: id >= |s.rows| ==> Versions(s.log, id) == [])
  }

  /** Holds after every transaction, however many live invitations an address has. */
  ghost predicate Recorded(s: Store) {
    EmailsFolded(s.rows) && LogComplete(s)
  }

  /** What every writer does to the table; only resending and reissuing can do less than KeepsOneLive. */
  ghost predicate Writes(a: Store, b: Store) {
    Recorded(b) && Grows(a, b)
  }

  predicate KeepsOneLive(a: Store, b: Store, now: int) {
    OneLive(a.rows, now) ==> OneLive(b.rows, now)
  }

  /** What no transaction undoes: ids, emails, recorded changes, and a closed invitation. */
  predicate Grows(a: Store, b: Store) {
    && |a.rows| <= |b.rows| && a.log <= b.log
    && (forall i :: 0 <= i < |a.rows| ==> RowGrows(a.rows[i], b.rows[i]))
  }

  predicate RowGrows(a: Invitation, b: Invitation) {
    && b.email == a.email && b.version >= a.version
    && (Closed(a) ==> b == a)
    && (a.sent ==> b.sent)
  }

  lemma GrowsTwice(a: Store, b: Store, c: Store)
    requires Grows(a, b) && Grows(b, c)
    ensures Grows(a, c)
  {
    forall i | 0 <= i < |a.rows|
      ensures RowGrows(a.rows[i], c.rows[i])
    {
      assert RowGrows(a.rows[i], b.rows[i]) && RowGrows(b.rows[i], c.rows[i]);
    }
  }

  lemma {:induction false} VersionsAppend(log: seq<Entry>, entry: Entry, id: nat)
    ensures Versions(log + [entry], id) == Versions(log, id) + if entry.invitation == id then [entry.version] else []
  {
    assert (log + [entry])[..|log|] == log;
  }

  /** A write that bumps an open row's version, keeps its email and does not revive it beside another live one. */
  lemma PutKeeps(s: Store, id: nat, row: Invitation, action: Action, now: int)
    requires Recorded(s) && id < |s.rows| && !Closed(s.rows[id])
    requires row.email == s.rows[id].email && row.version == s.rows[id].version + 1 && (s.rows[id].sent ==> row.sent)
    ensures Writes(s, Put(s, id, row, action))
    ensures OneLive(s.rows, now) ==>
              (OneLive(Put(s, id, row, action).rows, now) <==> (Live(row, now) ==> !AnotherLive(s.rows, id, now)))
  {
    var after := Put(s, id, row, action);
    forall k: nat
      ensures Versions(after.log, k) == Versions(s.log, k) + if k == id then [row.version] else []
    {
      VersionsAppend(s.log, Entry(id, action, row.version), k);
    }
    hide LogComplete, Versions, Fold;
    if OneLive(s.rows, now) {
      PutKeepsOneLive(s, id, row, action, now);
    }
  }

  lemma PutKeepsOneLive(s: Store, id: nat, row: Invitation, action: Action, now: int)
    requires OneLive(s.rows, now) && EmailsFolded(s.rows) && id < |s.rows| && row.email == s.rows[id].email
    ensures OneLive(Put(s, id, row, action).rows, now) <==> (Live(row, now) ==> !AnotherLive(s.rows, id, now))
  {
    hide Fold;
    var after := Put(s, id, row, action);
    if Live(row, now) && AnotherLive(s.rows, id, now) {
      var j :| 0 <= j < |s.rows| && j != id && LiveFor(s.rows[j], s.rows[id].email, now);
      assert after.rows[j] == s.rows[j] && after.rows[id] == row;
      if j < id {
        assert Live(after.rows[j], now) && Live(after.rows[id], now);
      } else {
        assert Live(after.rows[id], now) && Live(after.rows[j], now);
      }
      assert !OneLive(after.rows, now);
    } else {
      forall i, j | 0 <= i < j < |after.rows| && Live(after.rows[i], now) && Live(after.rows[j], now)
        ensures Fold(after.rows[i].email) != Fold(after.rows[j].email)
      {
        if i == id {
          assert !LiveFor(s.rows[j], s.rows[id].email, now);
        } else if j == id {
          assert !LiveFor(s.rows[i], s.rows[id].email, now);
        }
      }
    }
  }

  /** Some row other than id is live for the same email. */
  predicate AnotherLive(rows: seq<Invitation>, id: nat, now: int)
    requires id < |rows|
  {
    exists j :: 0 <= j < |rows| && j != id && LiveFor(rows[j], rows[id].email, now)
  }

  predicate OneLivePair(rows: seq<Invitation>, i: nat, j: nat, now: int)
    requires i < j < |rows|
  {
    Live(rows[i], now) && Live(rows[j], now) ==> Fold(rows[i].email) != Fold(rows[j].email)
  }

  lemma LiveIsAlone(rows: seq<Invitation>, id: nat, now: int)
    requires OneLive(rows, now) && id < |rows| && Live(rows[id], now)
    ensures !AnotherLive(rows, id, now)
  {
    forall j | 0 <= j < |rows| && j != id
      ensures !LiveFor(rows[j], rows[id].email, now)
    {
      if Live(rows[j], now) {
        assert OneLivePair(rows, if j < id then j else id, if j < id then id else j, now);
      }
    }
  }

  lemma AddKeeps(s: Store, row: Invitation, action: Action, now: int)
    requires Recorded(s) && row.version == 0 && Fold(row.email) == row.email
    requires forall i :: 0 <= i < |s.rows| ==> !LiveFor(s.rows[i], row.email, now)
    ensures Writes(s, Add(s, row, action)) && KeepsOneLive(s, Add(s, row, action), now)
  {
    AddKeepsLog(s, row, action);
    hide LogComplete, Fold, RowGrows;
    var after := Add(s, row, action);
    if OneLive(s.rows, now) {
      forall i, j | 0 <= i < j < |after.rows| && Live(after.rows[i], now) && Live(after.rows[j], now)
        ensures Fold(after.rows[i].email) != Fold(after.rows[j].email)
      {
        if j == |s.rows| {
          assert !LiveFor(s.rows[i], row.email, now);
        }
      }
    }
    forall i | 0 <= i < |s.rows|
      ensures RowGrows(s.rows[i], after.rows[i])
    {
      SameRowGrows(s.rows[i]);
    }
  }

  lemma SameRowGrows(row: Invitation)
    ensures RowGrows(row, row)
  {
  }

  lemma AddKeepsLog(s: Store, row: Invitation, action: Action)
    requires LogComplete(s) && row.version == 0
    ensures LogComplete(Add(s, row, action))
  {
    hide Versions;
    var after := Add(s, row, action);
    forall k: nat
      ensures Versions(after.log, k) == Versions(s.log, k) + if k == |s.rows| then [0] else []
    {
      VersionsAppend(s.log, Entry(|s.rows|, action, 0), k);
    }
    assert UpTo(1) == [0];
  }

  lemma MarkSentKeeps(s: Store, id: nat, now: int)
    requires Recorded(s) && id < |s.rows| && Live(s.rows[id], now)
    ensures Writes(s, MarkSent(s, id)) && KeepsOneLive(s, MarkSent(s, id), now)
  {
    hide OneLive, EmailsFolded, LogComplete;
    NothingGrows(s);
    if !s.rows[id].sent {
      PutKeeps(s, id, s.rows[id].(sent := true, version := s.rows[id].version + 1), SentLinkGenerated, now);
      if OneLive(s.rows, now) {
        LiveIsAlone(s.rows, id, now);
      }
    }
  }

  lemma LinkRemoveAnswerKeep(s: Store, id: nat, accepted: bool, now: int)
    requires Recorded(s)
    ensures Writes(s, Link(s, id, now).0) && KeepsOneLive(s, Link(s, id, now).0, now)
    ensures Writes(s, Remove(s, id).0) && KeepsOneLive(s, Remove(s, id).0, now)
    ensures Writes(s, Answer(s, id, accepted, now).0) && KeepsOneLive(s, Answer(s, id, accepted, now).0, now)
  {
    hide OneLive, EmailsFolded, LogComplete;
    if id < |s.rows| {
      var row := s.rows[id];
      if Live(row, now) {
        MarkSentKeeps(s, id, now);
        PutKeeps(s, id, row.(status := if accepted then Accepted else Declined, version := row.version + 1), Answered, now);
      }
      if row.status == Pending && !row.revoked {
        PutKeeps(s, id, row.(status := Expired, revoked := true, version := row.version + 1), Revoked, now);
      }
    }
    NothingGrows(s);
  }

  lemma NothingGrows(s: Store)
    ensures Grows(s, s)
  {
  }

  lemma ExpireOneKeeps(s: Store, id: nat, now: int, later: int)
    requires Recorded(s) && now <= later
    ensures Writes(s, ExpireOne(s, id, now)) && KeepsOneLive(s, ExpireOne(s, id, now), later)
  {
    hide OneLive, EmailsFolded, LogComplete;
    NothingGrows(s);
    if ExpireOne(s, id, now) != s {
      PutKeeps(s, id, s.rows[id].(status := Expired, version := s.rows[id].version + 1), ExpiredBySweep, later);
    }
  }

  lemma {:induction false} ExpireAllKeeps(s: Store, candidates: seq<nat>, now: int, later: int)
    requires Recorded(s) && now <= later
    ensures Writes(s, ExpireAll(s, candidates, now)) && KeepsOneLive(s, ExpireAll(s, candidates, now), later)
  {
    hide Recorded, Grows, OneLive;
    if candidates == [] {
      NothingGrows(s);
    } else {
      var before := ExpireAll(s, candidates[..|candidates| - 1], now);
      ExpireAllKeeps(s, candidates[..|candidates| - 1], now, later);
      ExpireOneKeeps(before, candidates[|candidates| - 1], now, later);
      GrowsTwice(s, before, ExpireAll(s, candidates, now));
    }
  }

  /** The sweep only writes down what the clock already says: no later reader sees a different lifecycle. */
  lemma {:induction false} SweepIsInvisible(s: Store, candidates: seq<nat>, now: int, later: int)
    requires now <= later
    ensures var after := ExpireAll(s, candidates, now);
            && |after.rows| == |s.rows|
            && forall i :: 0 <= i < |s.rows| ==>
                 InvitationLifecycle(after.rows[i], later) == InvitationLifecycle(s.rows[i], later)
  {
    if candidates != [] {
      SweepIsInvisible(s, candidates[..|candidates| - 1], now, later);
    }
  }

  lemma GenerateOneKeeps(s: Store, email: string, now: int)
    requires Recorded(s) && Fold(email) == email
    ensures var r := GenerateOne(s, email, now);
            && Writes(s, r.0) && KeepsOneLive(s, r.0, now)
            && r.1 < |r.0.rows| && LiveFor(r.0.rows[r.1], email, now) && r.0.rows[r.1].sent
            && |r.0.rows| <= |s.rows| + 1
            && (forall i :: 0 <= i < |s.rows| && i != r.1 ==> r.0.rows[i] == s.rows[i])
  {
    hide Recorded, Writes, OneLive;
    var existing := NewestLive(s.rows, email, now);
    if existing.Some? {
      MarkSentKeeps(s, existing.value, now);
    } else {
      AddKeeps(s, Fresh(email, now + TTL_DAYS * DAY), SentLinkGenerated, now);
    }
  }

  /** The id handed back for an email names a live, sent invitation for it. */
  predicate Served(s: Store, email: string, id: nat, now: int) {
    id < |s.rows| && LiveFor(s.rows[id], email, now) && s.rows[id].sent
  }

  /** Serving one more email leaves the others served. */
  lemma ServedStays(s: Store, email: string, id: nat, next: string, now: int)
    requires Recorded(s) && Fold(next) == next && Fold(email) == email && next != email
    requires Served(s, email, id, now)
    ensures Served(GenerateOne(s, next, now).0, email, id, now)
  {
    GenerateOneKeeps(s, next, now);
  }

  /** Every requested email ends up with a live, sent invitation, and its id is the one handed back. */
  lemma {:induction false} GenerateKeeps(s: Store, emails: seq<string>, now: int)
    requires Recorded(s) && AllFolded(emails) && Distinct(emails)
    ensures var r := Generate(s, emails, now);
            && Writes(s, r.0) && KeepsOneLive(s, r.0, now) && |r.1| == |emails|
            && (forall k :: 0 <= k < |emails| ==> Served(r.0, emails[k], r.1[k], now))
    decreases |emails|
  {
    hide Recorded, Grows, OneLive, GenerateOne, Served, Fold;
    if emails == [] {
      NothingGrows(s);
    } else {
      var n := |emails| - 1;
      assert emails[..n] + [emails[n]] == emails;
      GenerateKeeps(s, emails[..n], now);
      var before := Generate(s, emails[..n], now);
      var last := GenerateOne(before.0, emails[n], now);
      GenerateOneServes(before.0, emails[n], now);
      GrowsTwice(s, before.0, last.0);
      forall k | 0 <= k < n
        ensures Served(last.0, emails[k], before.1[k], now)
      {
        assert Served(before.0, emails[..n][k], before.1[k], now);
        ServedStays(before.0, emails[k], before.1[k], emails[n], now);
      }
    }
  }

  lemma GenerateOneServes(s: Store, email: string, now: int)
    requires Recorded(s) && Fold(email) == email
    ensures var r := GenerateOne(s, email, now);
            Writes(s, r.0) && KeepsOneLive(s, r.0, now) && Served(r.0, email, r.1, now)
  {
    GenerateOneKeeps(s, email, now);
  }

  /** The id is that of the newest live invitation for the email, and it has been sent. */
  predicate ServedNewest(s: Store, email: string, id: nat, now: int) {
    NewestLive(s.rows, email, now) == Some(id) && s.rows[id].sent
  }

  lemma ServedIsNewest(s: Store, email: string, id: nat, now: int)
    requires OneLive(s.rows, now) && Served(s, email, id, now)
    ensures ServedNewest(s, email, id, now)
  {
    LiveIsAlone(s.rows, id, now);
    var found := NewestLive(s.rows, email, now).value;
    assert LiveFor(s.rows[found], s.rows[id].email, now);
  }

  /** Asking for emails whose newest live invitations have been sent writes nothing and hands back their ids. */
  lemma {:induction false} GenerateServed(s: Store, emails: seq<string>, ids: seq<nat>, now: int)
    requires |ids| == |emails| && forall k :: 0 <= k < |emails| ==> ServedNewest(s, emails[k], ids[k], now)
    ensures Generate(s, emails, now) == (s, ids)
    decreases |emails|
  {
    hide NewestLive;
    if emails == [] {
      assert ids == [];
    } else {
      var n := |emails| - 1;
      assert forall k :: 0 <= k < n ==> emails[..n][k] == emails[k] && ids[..n][k] == ids[k];
      GenerateServed(s, emails[..n], ids[..n], now);
      assert ServedNewest(s, emails[n], ids[n], now);
      assert ids == ids[..n] + [ids[n]];
    }
  }

  lemma ServesNewest(s: Store, email: string, now: int)
    requires Fold(email) == email
    ensures ServedNewest(GenerateOne(s, email, now).0, email, GenerateOne(s, email, now).1, now)
  {
    hide NewestLive;
    var r := GenerateOne(s, email, now);
    assert LiveFor(r.0.rows[r.1], email, now);
    var found := NewestLive(r.0.rows, email, now).value;
    assert found >= r.1 && LiveFor(r.0.rows[found], email, now);
    assert found < |s.rows| ==> LiveFor(s.rows[found], email, now);
  }

  /** Serving one more email, the same or another, leaves the newest live invitation where it was. */
  lemma ServedNewestStays(s: Store, email: string, id: nat, next: string, now: int)
    requires Fold(email) == email && Fold(next) == next && ServedNewest(s, email, id, now)
    ensures ServedNewest(GenerateOne(s, next, now).0, email, id, now)
  {
    hide NewestLive, Fold;
    if next != email {
      var r := GenerateOne(s, next, now);
      assert forall i :: 0 <= i < |s.rows| && i != r.1 ==> r.0.rows[i] == s.rows[i];
      assert IsFor(r.0.rows[r.1], next) && !IsFor(r.0.rows[r.1], email);
      assert LiveFor(s.rows[id], email, now) && LiveFor(r.0.rows[id], email, now);
      var found := NewestLive(r.0.rows, email, now).value;
      assert LiveFor(r.0.rows[found], email, now) && found != r.1 && LiveFor(s.rows[found], email, now);
    }
  }

  lemma {:induction false} GenerateServesNewest(s: Store, emails: seq<string>, now: int)
    requires AllFolded(emails)
    ensures var r := Generate(s, emails, now);
            |r.1| == |emails| && forall k :: 0 <= k < |emails| ==> ServedNewest(r.0, emails[k], r.1[k], now)
    decreases |emails|
  {
    hide GenerateOne, ServedNewest, Fold;
    if emails != [] {
      var n := |emails| - 1;
      GenerateServesNewest(s, emails[..n], now);
      var before := Generate(s, emails[..n], now);
      ServesNewest(before.0, emails[n], now);
      forall k | 0 <= k < n
        ensures ServedNewest(GenerateOne(before.0, emails[n], now).0, emails[k], before.1[k], now)
      {
        assert ServedNewest(before.0, emails[..n][k], before.1[k], now);
        ServedNewestStays(before.0, emails[k], before.1[k], emails[n], now);
      }
    }
  }

  /** Asking again at the same moment writes nothing and hands back the same ids, whatever invitations there are. */
  lemma {:induction false} GenerateAgain(s: Store, emails: seq<string>, now: int)
    requires AllFolded(emails)
    ensures var r := Generate(s, emails, now);
            Generate(r.0, emails, now) == r
  {
    hide Generate, ServedNewest;
    GenerateServesNewest(s, emails, now);
    GenerateServed(Generate(s, emails, now).0, emails, Generate(s, emails, now).1, now);
  }

  lemma IssueKeeps(s: Store, email: string, days: nat, now: int)
    requires Recorded(s)
    ensures Writes(s, Issue(s, email, days, now).0) && KeepsOneLive(s, Issue(s, email, days, now).0, now)
  {
    FoldTwice(email);
    NothingGrows(s);
    hide LogComplete, OneLive, Grows;
    if Issue(s, email, days, now).1 == Done {
      forall i | 0 <= i < |s.rows|
        ensures !LiveFor(s.rows[i], Fold(email), now)
      {
        assert Fold(s.rows[i].email) == s.rows[i].email;
      }
      AddKeeps(s, Fresh(Fold(email), now + days * DAY), SentLinkGenerated, now);
    }
  }

  /**
   * Sending again and reissuing give an expired row a new deadline without looking for another live one. They keep
   * one live invitation per email exactly when no other row is live for it, or the new deadline is not ahead.
   */
  predicate MayReopen(s: Store, id: nat, days: nat, now: int)
    requires id < |s.rows|
  {
    days == 0 || !AnotherLive(s.rows, id, now)
  }

  /** Resending acts on any row that is not closed. */
  predicate CanResend(s: Store, id: nat) {
    id < |s.rows| && !Closed(s.rows[id])
  }

  /** Reissuing acts on a row that is not closed and has not changed since it was shown. */
  predicate CanReissue(s: Store, id: nat, version: nat) {
    id < |s.rows| && !Closed(s.rows[id]) && s.rows[id].version == version
  }

  lemma ResendKeepsOneLiveExactly(s: Store, id: nat, days: nat, now: int)
    requires Recorded(s)
    ensures var r := Resend(s, id, days, now);
            && Writes(s, r.0) && (r.1 == Done <==> CanResend(s, id))
            && (OneLive(s.rows, now) ==>
                  (OneLive(r.0.rows, now) <==> (CanResend(s, id) ==> MayReopen(s, id, days, now))))
  {
    hide OneLive, EmailsFolded, LogComplete, Versions;
    NothingGrows(s);
    if CanResend(s, id) {
      var row := s.rows[id];
      PutKeeps(s, id, row.(status := Pending, expiresAt := now + days * DAY, sent := true, version := row.version + 1),
               Resent, now);
    }
  }

  lemma ActKeeps(s: Store, id: nat, version: nat, command: Command, days: nat, reviewer: bool, now: int)
    requires Recorded(s)
    ensures var r := Act(s, id, version, command, days, reviewer, now);
            && Writes(s, r.0)
            && (command == REISSUE ==> (r.1 == Done <==> CanReissue(s, id, version)))
            && (OneLive(s.rows, now) ==>
                  (OneLive(r.0.rows, now) <==>
                     (command == REISSUE && CanReissue(s, id, version) ==> MayReopen(s, id, days, now))))
  {
    hide OneLive, EmailsFolded, LogComplete, Versions, NewestLive;
    var r := Act(s, id, version, command, days, reviewer, now);
    NothingGrows(s);
    if r.1 == Done {
      var row := s.rows[id];
      if command == REINVITE {
        assert EmailFolded(s.rows, id) by { EmailsAreFolded(s.rows, id); }
        NoneLive(s.rows, row.email, now);
        AddKeeps(s, Fresh(row.email, now + days * DAY), Reinvited, now);
      } else {
        PutKeeps(s, id, r.0.rows[id], r.0.log[|s.log|].action, now);
        if command == EXTEND && OneLive(s.rows, now) {
          LiveIsAlone(s.rows, id, now);
        }
      }
    }
  }

  predicate EmailFolded(rows: seq<Invitation>, id: nat)
    requires id < |rows|
  {
    Fold(rows[id].email) == rows[id].email
  }

  lemma EmailsAreFolded(rows: seq<Invitation>, id: nat)
    requires EmailsFolded(rows) && id < |rows|
    ensures EmailFolded(rows, id)
  {
  }

  lemma {:induction false} NoneLive(rows: seq<Invitation>, email: string, now: int)
    requires NewestLive(rows, email, now).None?
    ensures forall i :: 0 <= i < |rows| ==> !LiveFor(rows[i], email, now)
  {
  }

  // ---- what each writer leaves -----------------------------------------------------------------------------------

  /** Waiting for an answer, whether the link has been shared or not. */
  predicate Waiting(s: Store, id: nat, now: int) {
    id < |s.rows| && (InvitationLifecycle(s.rows[id], now) == PENDING || InvitationLifecycle(s.rows[id], now) == SENT)
  }

  /** Only this row changed: its version moved by one, it kept its address, and later it is in this state. */
  ghost predicate LeftAs(s: Store, after: Store, id: nat, state: Lifecycle, until: int) {
    && id < |s.rows| == |after.rows|
    && (forall i :: 0 <= i < |s.rows| && i != id ==> after.rows[i] == s.rows[i])
    && after.rows[id].email == s.rows[id].email && after.rows[id].version == s.rows[id].version + 1
    && after.rows[id].expiresAt == until
    && forall later :: later < until || state in {ACCEPTED, DECLINED, REVOKED} ==>
         InvitationLifecycle(after.rows[id], later) == state
  }

  /** One invitation more, for this address, shared, and open until then. */
  ghost predicate AddedFor(s: Store, after: Store, email: string, until: int) {
    && |after.rows| == |s.rows| + 1 && after.rows[..|s.rows|] == s.rows
    && var row := after.rows[|s.rows|];
       && row.email == email && row.version == 0 && row.expiresAt == until
       && forall later :: InvitationLifecycle(row, later) == if later < until then SENT else EXPIRED
  }

  /** Accepting and declining need a waiting invitation, sharing its link too; removing needs one not yet answered or swept. */
  lemma AnswerAnswers(s: Store, id: nat, accepted: bool, now: int)
    ensures var r := Answer(s, id, accepted, now);
            && (r.1 == Done <==> Waiting(s, id, now)) && (r.1 != Done ==> r.0 == s)
            && (r.1 == Done ==> LeftAs(s, r.0, id, if accepted then ACCEPTED else DECLINED, s.rows[id].expiresAt))
    ensures var r := Remove(s, id);
            && (r.1 == Done <==> id < |s.rows| && s.rows[id].status == Pending && !s.rows[id].revoked)
            && (r.1 != Done ==> r.0 == s)
            && (r.1 == Done ==> LeftAs(s, r.0, id, REVOKED, s.rows[id].expiresAt))
    ensures var r := Link(s, id, now);
            && (r.1 == Done <==> Waiting(s, id, now)) && (r.1 != Done ==> r.0 == s)
            && (r.1 == Done ==> if s.rows[id].sent then r.0 == s else LeftAs(s, r.0, id, SENT, s.rows[id].expiresAt))
  {
  }

  /** Resending gives any invitation that was not answered or revoked its time anew. */
  lemma ResendAnswers(s: Store, id: nat, days: nat, now: int)
    ensures var r := Resend(s, id, days, now);
            && (r.1 == Done <==> id < |s.rows| && InvitationLifecycle(s.rows[id], now) !in {ACCEPTED, DECLINED, REVOKED})
            && (r.1 != Done ==> r.0 == s)
            && (r.1 == Done ==> LeftAs(s, r.0, id, SENT, now + days * DAY))
  {
  }

  /** An organiser invites an address exactly if no invitation is live for it. */
  lemma IssueAnswers(s: Store, email: string, days: nat, now: int)
    ensures var r := Issue(s, email, days, now);
            && (r.1 == Done <==> forall i :: 0 <= i < |s.rows| && s.rows[i].email == Fold(email) ==> !Live(s.rows[i], now))
            && (if r.1 == Done then AddedFor(s, r.0, Fold(email), now + days * DAY) else r.0 == s)
  {
  }

  /** The organiser's commands on a row that is as it was shown. */
  lemma {:induction false} ActAnswers(s: Store, id: nat, command: Command, days: nat, reviewer: bool, now: int)
    requires id < |s.rows|
    ensures var row, until := s.rows[id], now + days * DAY;
            var state, r := InvitationLifecycle(row, now), Act(s, id, row.version, command, days, reviewer, now);
            && (r.1 != Done ==> r.0 == s)
            && (r.1 == Done <==>
                  match command
                  case EXTEND => state in {PENDING, SENT} && row.expiresAt < until
                  case REISSUE => state in {PENDING, SENT, EXPIRED}
                  case REVOKE => state in {PENDING, SENT, EXPIRED}
                  case REINVITE => state in {DECLINED, REVOKED} && !reviewer && NewestLive(s.rows, row.email, now).None?)
            && (r.1 == Done ==>
                  match command
                  case EXTEND => LeftAs(s, r.0, id, state, until)
                  case REISSUE => LeftAs(s, r.0, id, SENT, until)
                  case REVOKE => LeftAs(s, r.0, id, REVOKED, row.expiresAt)
                  case REINVITE => AddedFor(s, r.0, row.email, until))
    ensures forall version {:trigger Act(s, id, version, command, days, reviewer, now)} :: version != s.rows[id].version ==>
              Act(s, id, version, command, days, reviewer, now) == (s, Conflict)
  {
    hide NewestLive;
  }

  /** A requested address keeps its newest live invitation, shared from now on, or gets one for seven days. */
  lemma GenerateAnswers(s: Store, email: string, now: int)
    ensures var r := GenerateOne(s, email, now);
            if exists i :: 0 <= i < |s.rows| && LiveFor(s.rows[i], email, now) then
              && r.1 < |s.rows| && LiveFor(s.rows[r.1], email, now)
              && (forall i :: r.1 < i < |s.rows| ==> !LiveFor(s.rows[i], email, now))
              && (if s.rows[r.1].sent then r.0 == s else LeftAs(s, r.0, r.1, SENT, s.rows[r.1].expiresAt))
            else
              r.1 == |s.rows| && AddedFor(s, r.0, email, now + 7 * DAY)
  {
    var newest := NewestLive(s.rows, email, now);
    hide NewestLive;
    if i :| 0 <= i < |s.rows| && LiveFor(s.rows[i], email, now) {
      assert newest.Some?;
    }
  }

  /** The sweep marks every candidate that has run out unanswered, and no other row. */
  lemma {:induction false} SweepAnswers(s: Store, candidates: seq<nat>, now: int)
    ensures var after := ExpireAll(s, candidates, now);
            && |after.rows| == |s.rows|
            && forall i :: 0 <= i < |s.rows| ==>
                 if i in candidates && s.rows[i].status == Pending && !s.rows[i].revoked && s.rows[i].expiresAt <= now
                 then after.rows[i] == s.rows[i].(status := Expired, version := s.rows[i].version + 1)
                 else after.rows[i] == s.rows[i]
  {
    if candidates != [] {
      var n := |candidates| - 1;
      SweepAnswers(s, candidates[..n], now);
      assert candidates == candidates[..n] + [candidates[n]];
    }
  }

  /** Two live invitations for one address, by reissuing an expired one after a new one was issued. */
  lemma ReissueMakesTwoLive()
    ensures var s := Issue(Issue(EMPTY, "a", 1, 0).0, "a", 1, 2 * DAY).0;
            && |s.rows| == 2 && OneLive(s.rows, 2 * DAY)
            && !OneLive(Act(s, 0, 0, REISSUE, 1, false, 2 * DAY).0.rows, 2 * DAY)
  {
    var first := Issue(EMPTY, "a", 1, 0).0;
    assert first.rows == [Fresh(Fold("a"), DAY)];
    var s := Issue(first, "a", 1, 2 * DAY).0;
    assert s.rows == [Fresh(Fold("a"), DAY), Fresh(Fold("a"), 3 * DAY)];
    var after := Act(s, 0, 0, REISSUE, 1, false, 2 * DAY).0;
    assert Live(after.rows[0], 2 * DAY) && Live(after.rows[1], 2 * DAY);
  }
}
