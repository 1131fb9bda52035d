/**
 * The bot limiter of one conference: fixed-window request counters and two levels of leases, kept by small scripts
 * that each run atomically. One request runs three scripts, so requests interleave between them. Times are
 * milliseconds on one clock; a script may carry a time read somewhat earlier, never one ahead of the clock.
 */
module Limiter {
  import opened Common

  type Key = nat
  type Request = nat

  const WINDOW := 60000
  const LEASE := 60000
  const LEASE_SET_TTL := 61000
  const KEY_LIMIT := 60
  const CONFERENCE_LIMIT := 300
  const KEY_LEASES := 2
  const CONFERENCE_LEASES := 10

  // ---- the scripts -----------------------------------------------------------------------------------------------

  /** A counter that expires WINDOW after its first increment. */
  datatype Window = Window(count: nat, startedAt: int)

  function Rate(window: Option<Window>, now: int): Window {
    if window.None? || now >= window.value.startedAt + WINDOW then Window(1, now)
    else Window(window.value.count + 1, window.value.startedAt)
  }

  /** A sorted set of lease tokens by expiry, dropped as a whole at dropsAt. */
  datatype LeaseSet = LeaseSet(members: map<Request, int>, dropsAt: int)

  const NO_LEASES := LeaseSet(map[], 0)

  function Stored(s: LeaseSet, now: int): LeaseSet {
    if now >= s.dropsAt then NO_LEASES else s
  }

  function Purge(s: LeaseSet, at: int): LeaseSet {
    s.(members := map q | q in s.members && s.members[q] > at :: s.members[q])
  }

  function AddLease(s: LeaseSet, q: Request, at: int, now: int): LeaseSet {
    LeaseSet(s.members[q := at + LEASE], now + LEASE_SET_TTL)
  }

  /** The lease script on the key's and the conference's set. */
  function TakeLease(mine: LeaseSet, all: LeaseSet, q: Request, at: int, now: int): (LeaseSet, LeaseSet, bool) {
    var m, a := Purge(Stored(mine, now), at), Purge(Stored(all, now), at);
    if |m.members| >= KEY_LEASES || |a.members| >= CONFERENCE_LEASES then (m, a, false)
    else (AddLease(m, q, at, now), AddLease(a, q, at, now), true)
  }

  function Drop(s: LeaseSet, q: Request): LeaseSet {
    s.(members := s.members - {q})
  }

  // ---- requests --------------------------------------------------------------------------------------------------

  /** How far a request has come: what it was counted as and when, and until when its lease runs. */
  datatype Phase =
    | KeyCounted(key: Key, n: nat, keyAt: int)
    | Counted(key: Key, n: nat, keyAt: int, c: nat, conferenceAt: int)
    | Refused(key: Key, n: nat, keyAt: int, c: nat, conferenceAt: int)
    | Running(key: Key, n: nat, keyAt: int, c: nat, conferenceAt: int, leasedUntil: int)
    | Ended(key: Key, n: nat, keyAt: int, c: nat, conferenceAt: int)

  datatype World = World(
    now: int,
    keyWindows: map<Key, Window>,
    conferenceWindow: Option<Window>,
    keyLeases: map<Key, LeaseSet>,
    conferenceLeases: LeaseSet,
    requests: map<Request, Phase>)

  datatype Step =
    | Tick(ms: nat)
    | CountKey(q: Request, k: Key)
    | CountConference(q: Request)
    | Acquire(q: Request, delay: nat)
    | Release(q: Request)

  function WindowOf(w: World, k: Key): Option<Window> {
    if k in w.keyWindows then Some(w.keyWindows[k]) else None
  }

  function LeasesOf(w: World, k: Key): LeaseSet {
    if k in w.keyLeases then w.keyLeases[k] else NO_LEASES
  }

  /** A step that does not apply to the request's phase leaves the world alone; request ids are not reused. */
  function Apply(w: World, step: Step): World {
    match step
    case Tick(ms) => w.(now := w.now + ms)
    case CountKey(q, k) =>
      if q in w.requests then w
      else
        var window := Rate(WindowOf(w, k), w.now);
        w.(keyWindows := w.keyWindows[k := window], requests := w.requests[q := KeyCounted(k, window.count, w.now)])
    case CountConference(q) =>
      if q in w.requests && w.requests[q].KeyCounted? then
        var p := w.requests[q];
        var window := Rate(w.conferenceWindow, w.now);
        w.(conferenceWindow := Some(window),
           requests := w.requests[q := Counted(p.key, p.n, p.keyAt, window.count, w.now)])
      else w
    case Acquire(q, delay) =>
      if q in w.requests && w.requests[q].Counted? then
        var p := w.requests[q];
        if p.n > KEY_LIMIT || p.c > CONFERENCE_LIMIT then
          w.(requests := w.requests[q := Refused(p.key, p.n, p.keyAt, p.c, p.conferenceAt)])
        else
          var at := w.now - delay;
          var r := TakeLease(LeasesOf(w, p.key), w.conferenceLeases, q, at, w.now);
          w.(keyLeases := w.keyLeases[p.key := r.0], conferenceLeases := r.1,
             requests := w.requests[q := if r.2 then Running(p.key, p.n, p.keyAt, p.c, p.conferenceAt, at + LEASE)
                                         else Refused(p.key, p.n, p.keyAt, p.c, p.conferenceAt)])
      else w
    case Release(q) =>
      if q in w.requests && w.requests[q].Running? then
        var p := w.requests[q];
        w.(keyLeases := w.keyLeases[p.key := Drop(Stored(LeasesOf(w, p.key), w.now), q)],
           conferenceLeases := Drop(Stored(w.conferenceLeases, w.now), q),
           requests := w.requests[q := Ended(p.key, p.n, p.keyAt, p.c, p.conferenceAt)])
      else w
  }

  function Run(w: World, steps: seq<Step>): World
    decreases |steps|
  {
    if steps == [] then w else Run(Apply(w, steps[0]), steps[1..])
  }

  function Idle(now: int): World {
    World(now, map[], None, map[], NO_LEASES, map[])
  }

  // ---- leases ----------------------------------------------------------------------------------------------------

  /** The requests still running on an unexpired lease. */
  function LiveLeases(w: World): set<Request> {
    set q | q in w.requests && w.requests[q].Running? && w.requests[q].leasedUntil > w.now
  }

  function LiveLeasesOf(w: World, k: Key): set<Request> {
    set q | q in LiveLeases(w) && w.requests[q].key == k
  }

  predicate HoldsLease(s: LeaseSet, q: Request, leasedUntil: int) {
    q in s.members && s.members[q] == leasedUntil
  }

  /** A lease set outlives every lease in it by a second, and no lease runs longer than LEASE from now. */
  predicate SetOk(s: LeaseSet, limit: nat, now: int) {
    && |s.members| <= limit
    && forall q :: q in s.members ==> s.members[q] + 1000 <= s.dropsAt && s.members[q] <= now + LEASE
  }

  predicate LeasesOk(w: World) {
    && (forall k :: k in w.keyLeases ==> SetOk(w.keyLeases[k], KEY_LEASES, w.now))
    && SetOk(w.conferenceLeases, CONFERENCE_LEASES, w.now)
    && (forall q :: q in LiveLeases(w) ==> LeaseHeld(w, q))
  }

  /** A live lease is in its key's set and in the conference's. */
  predicate LeaseHeld(w: World, q: Request)
    requires q in w.requests && w.requests[q].Running?
  {
    && HoldsLease(LeasesOf(w, w.requests[q].key), q, w.requests[q].leasedUntil)
    && HoldsLease(w.conferenceLeases, q, w.requests[q].leasedUntil)
  }

  /** Every lease of a that is live, other than q's, is in b. */
  ghost predicate KeepsLive(a: LeaseSet, b: LeaseSet, q: Request, now: int) {
    forall p, until :: p != q && until > now && HoldsLease(a, p, until) ==> HoldsLease(b, p, until)
  }

  lemma {:induction false} Subset<T>(a: set<T>, b: set<T>)
    requires a <= b
    ensures |a| <= |b|
    decreases a
  {
    if x :| x in a {
      Subset(a - {x}, b - {x});
    }
  }

  /** Neither purging nor the set's own expiry takes a live lease. */
  lemma PurgeKeeps(s: LeaseSet, at: int, now: int, limit: nat, q: Request)
    requires SetOk(s, limit, now) && at <= now
    ensures SetOk(Purge(Stored(s, now), at), limit, now) && KeepsLive(s, Purge(Stored(s, now), at), q, now)
  {
    if now < s.dropsAt {
      Subset(Purge(s, at).members.Keys, s.members.Keys);
    }
  }

  lemma DropKeeps(s: LeaseSet, q: Request, now: int, limit: nat)
    requires SetOk(s, limit, now)
    ensures SetOk(Drop(Stored(s, now), q), limit, now) && KeepsLive(s, Drop(Stored(s, now), q), q, now)
  {
    if now < s.dropsAt {
      Subset((s.members - {q}).Keys, s.members.Keys);
    }
  }

  lemma AddLeaseKeeps(s: LeaseSet, q: Request, at: int, now: int, limit: nat)
    requires SetOk(s, limit, now) && |s.members| < limit && at <= now
    ensures SetOk(AddLease(s, q, at, now), limit, now) && HoldsLease(AddLease(s, q, at, now), q, at + LEASE)
    ensures KeepsLive(s, AddLease(s, q, at, now), q, now)
  {
    assert AddLease(s, q, at, now).members.Keys == s.members.Keys + {q};
  }

  lemma KeepsLiveTwice(a: LeaseSet, b: LeaseSet, c: LeaseSet, q: Request, now: int)
    requires KeepsLive(a, b, q, now) && KeepsLive(b, c, q, now)
    ensures KeepsLive(a, c, q, now)
  {
  }

  lemma TakeLeaseKeeps(mine: LeaseSet, all: LeaseSet, q: Request, at: int, now: int)
    requires SetOk(mine, KEY_LEASES, now) && SetOk(all, CONFERENCE_LEASES, now) && at <= now
    ensures var r := TakeLease(mine, all, q, at, now);
            && SetOk(r.0, KEY_LEASES, now) && SetOk(r.1, CONFERENCE_LEASES, now)
            && KeepsLive(mine, r.0, q, now) && KeepsLive(all, r.1, q, now)
            && (r.2 ==> HoldsLease(r.0, q, at + LEASE) && HoldsLease(r.1, q, at + LEASE))
  {
    hide SetOk, KeepsLive, HoldsLease, Purge, Stored, AddLease;
    var m, a := Purge(Stored(mine, now), at), Purge(Stored(all, now), at);
    PurgeKeeps(mine, at, now, KEY_LEASES, q);
    PurgeKeeps(all, at, now, CONFERENCE_LEASES, q);
    if TakeLease(mine, all, q, at, now).2 {
      AddLeaseKeeps(m, q, at, now, KEY_LEASES);
      AddLeaseKeeps(a, q, at, now, CONFERENCE_LEASES);
      KeepsLiveTwice(mine, m, AddLease(m, q, at, now), q, now);
      KeepsLiveTwice(all, a, AddLease(a, q, at, now), q, now);
    }
  }

  lemma EmptyIsOk(limit: nat, now: int)
    ensures SetOk(NO_LEASES, limit, now)
  {
  }

  lemma AcquireKeepsLeases(w: World, q: Request, delay: nat)
    requires LeasesOk(w)
    ensures LeasesOk(Apply(w, Acquire(q, delay)))
  {
    hide TakeLease, SetOk;
    var next := Apply(w, Acquire(q, delay));
    if q in w.requests && w.requests[q].Counted? && w.requests[q].n <= KEY_LIMIT && w.requests[q].c <= CONFERENCE_LIMIT {
      var key := w.requests[q].key;
      EmptyIsOk(KEY_LEASES, w.now);
      TakeLeaseKeeps(LeasesOf(w, key), w.conferenceLeases, q, w.now - delay, w.now);
      forall p | p in LiveLeases(next)
        ensures LeaseHeld(next, p)
      {
        if p != q {
          assert p in LiveLeases(w) && LeaseHeld(w, p);
        }
      }
    } else {
      forall p | p in LiveLeases(next)
        ensures LeaseHeld(next, p)
      {
        assert p in LiveLeases(w) && LeaseHeld(w, p);
      }
    }
  }

  lemma ReleaseKeepsLeases(w: World, q: Request)
    requires LeasesOk(w)
    ensures LeasesOk(Apply(w, Release(q)))
  {
    hide SetOk, HoldsLease, Drop, Stored;
    var next := Apply(w, Release(q));
    if next != w {
      EmptyIsOk(KEY_LEASES, w.now);
      DropKeeps(LeasesOf(w, w.requests[q].key), q, w.now, KEY_LEASES);
      DropKeeps(w.conferenceLeases, q, w.now, CONFERENCE_LEASES);
      forall p | p in LiveLeases(next)
        ensures LeaseHeld(next, p)
      {
        assert p in LiveLeases(w) && LeaseHeld(w, p);
      }
    }
  }

  lemma StepKeepsLeases(w: World, step: Step)
    requires LeasesOk(w)
    ensures LeasesOk(Apply(w, step))
  {
    match step
    case Acquire(q, delay) => AcquireKeepsLeases(w, q, delay);
    case Release(q) => ReleaseKeepsLeases(w, q);
    case _ =>
      var next := Apply(w, step);
      forall p | p in LiveLeases(next)
        ensures LeaseHeld(next, p)
      {
        assert p in LiveLeases(w) && LeaseHeld(w, p);
      }
  }

  // ---- rates -----------------------------------------------------------------------------------------------------

  /**
   * How many of the counted requests numbered at most limit can fall into the minute from t, given the window now
   * open. The minute meets at most two windows, and the first request of the earlier one lies before t.
   */
  predicate PassesOk(window: Option<Window>, t: int, limit: nat, passes: nat, now: int) {
    && limit >= 1
    && (now < t ==> passes == 0)
    && match window
       case None => passes == 0
       case Some(w) =>
         && w.count >= 1 && w.startedAt <= now
         && if w.startedAt + WINDOW <= t then passes == 0
            else if w.startedAt < t then passes <= Min(w.count, limit) - 1
            else if w.startedAt == t then passes <= Min(w.count, limit)
            else if w.startedAt < t + WINDOW then passes <= limit - 1 + Min(w.count, limit)
            else passes <= 2 * limit - 1
  }

  predicate InMinute(x: int, t: int) {
    t <= x < t + WINDOW
  }

  lemma RateKeepsPasses(window: Option<Window>, t: int, limit: nat, passes: nat, now: int)
    requires PassesOk(window, t, limit, passes, now)
    ensures var next := Rate(window, now);
            PassesOk(Some(next), t, limit, passes + (if InMinute(now, t) && next.count <= limit then 1 else 0), now)
  {
  }

  function KeyPasses(w: World, k: Key, t: int): set<Request> {
    set q | q in w.requests && w.requests[q].key == k && w.requests[q].n <= KEY_LIMIT && InMinute(w.requests[q].keyAt, t)
  }

  predicate ConferencePass(p: Phase, t: int) {
    !p.KeyCounted? && p.c <= CONFERENCE_LIMIT && InMinute(p.conferenceAt, t)
  }

  function ConferencePasses(w: World, t: int): set<Request> {
    set q | q in w.requests && ConferencePass(w.requests[q], t)
  }

  predicate RatesOk(w: World, k: Key, t: int) {
    && PassesOk(WindowOf(w, k), t, KEY_LIMIT, |KeyPasses(w, k, t)|, w.now)
    && PassesOk(w.conferenceWindow, t, CONFERENCE_LIMIT, |ConferencePasses(w, t)|, w.now)
    && (forall q :: q in w.requests ==> PhaseOk(w.requests[q], w.now))
  }

  predicate PhaseOk(p: Phase, now: int) {
    && p.keyAt <= now && (!p.KeyCounted? ==> p.conferenceAt <= now)
    && (p.Running? || p.Ended? ==> p.n <= KEY_LIMIT && p.c <= CONFERENCE_LIMIT)
  }

  lemma CountKeyPasses(w: World, q: Request, key: Key, k: Key, t: int)
    requires q !in w.requests
    ensures var next := Apply(w, CountKey(q, key));
            && ConferencePasses(next, t) == ConferencePasses(w, t)
            && KeyPasses(next, k, t) == KeyPasses(w, k, t) +
                 (if key == k && Rate(WindowOf(w, k), w.now).count <= KEY_LIMIT && InMinute(w.now, t) then {q} else {})
            && q !in KeyPasses(w, k, t)
  {
    hide Rate, InMinute;
  }

  lemma CountKeyKeepsRates(w: World, q: Request, key: Key, k: Key, t: int)
    requires RatesOk(w, k, t)
    ensures RatesOk(Apply(w, CountKey(q, key)), k, t)
  {
    hide Rate, PassesOk, InMinute, KeyPasses, ConferencePasses;
    if q !in w.requests {
      CountKeyPasses(w, q, key, k, t);
      RateKeepsPasses(WindowOf(w, k), t, KEY_LIMIT, |KeyPasses(w, k, t)|, w.now);
    }
  }

  lemma CountConferencePasses(w: World, q: Request, k: Key, t: int)
    requires q in w.requests && w.requests[q].KeyCounted?
    ensures var next := Apply(w, CountConference(q));
            && KeyPasses(next, k, t) == KeyPasses(w, k, t)
            && ConferencePasses(next, t) == ConferencePasses(w, t) +
                 (if Rate(w.conferenceWindow, w.now).count <= CONFERENCE_LIMIT && InMinute(w.now, t) then {q} else {})
            && q !in ConferencePasses(w, t)
  {
    hide Rate, InMinute;
  }

  lemma CountConferenceKeepsRates(w: World, q: Request, k: Key, t: int)
    requires RatesOk(w, k, t)
    ensures RatesOk(Apply(w, CountConference(q)), k, t)
  {
    hide Rate, PassesOk, InMinute, KeyPasses, ConferencePasses;
    if q in w.requests && w.requests[q].KeyCounted? {
      CountConferencePasses(w, q, k, t);
      RateKeepsPasses(w.conferenceWindow, t, CONFERENCE_LIMIT, |ConferencePasses(w, t)|, w.now);
    }
  }

  lemma TickKeepsRates(w: World, ms: nat, k: Key, t: int)
    requires RatesOk(w, k, t)
    ensures RatesOk(Apply(w, Tick(ms)), k, t)
  {
    var next := Apply(w, Tick(ms));
    assert KeyPasses(next, k, t) == KeyPasses(w, k, t);
    assert ConferencePasses(next, t) == ConferencePasses(w, t);
    assert forall q :: q in w.requests ==> PhaseOk(w.requests[q], w.now);
  }

  lemma LeaseStepKeepsRates(w: World, step: Step, k: Key, t: int)
    requires RatesOk(w, k, t) && (step.Acquire? || step.Release?)
    ensures RatesOk(Apply(w, step), k, t)
  {
    hide Rate, PassesOk, TakeLease, Drop, InMinute;
    var next := Apply(w, step);
    assert KeyPasses(next, k, t) == KeyPasses(w, k, t);
    assert ConferencePasses(next, t) == ConferencePasses(w, t);
  }

  lemma StepKeepsRates(w: World, step: Step, k: Key, t: int)
    requires RatesOk(w, k, t)
    ensures RatesOk(Apply(w, step), k, t)
  {
    hide RatesOk, Apply;
    match step
    case Tick(ms) => TickKeepsRates(w, ms, k, t);
    case CountKey(q, key) => CountKeyKeepsRates(w, q, key, k, t);
    case CountConference(q) => CountConferenceKeepsRates(w, q, k, t);
    case _ => LeaseStepKeepsRates(w, step, k, t);
  }

  // ---- main results ----------------------------------------------------------------------------------------------

  lemma {:induction false} RunKeeps(w: World, steps: seq<Step>, k: Key, t: int)
    requires LeasesOk(w) && RatesOk(w, k, t)
    ensures LeasesOk(Run(w, steps)) && RatesOk(Run(w, steps), k, t)
    decreases |steps|
  {
    hide LeasesOk, RatesOk, Apply;
    if steps != [] {
      StepKeepsLeases(w, steps[0]);
      StepKeepsRates(w, steps[0], k, t);
      RunKeeps(Apply(w, steps[0]), steps[1..], k, t);
    }
  }

  lemma IdleIsOk(now: int, k: Key, t: int)
    ensures LeasesOk(Idle(now)) && RatesOk(Idle(now), k, t)
  {
    assert LiveLeases(Idle(now)) == {} && KeyPasses(Idle(now), k, t) == {} && ConferencePasses(Idle(now), t) == {};
  }

  /** At any moment at most 2 requests of a key and 10 of the conference run on a live lease. */
  lemma {:induction false} ConcurrencyIsBounded(now: int, steps: seq<Step>, k: Key)
    ensures var w := Run(Idle(now), steps);
            |LiveLeasesOf(w, k)| <= KEY_LEASES && |LiveLeases(w)| <= CONFERENCE_LEASES
  {
    IdleIsOk(now, k, 0);
    RunKeeps(Idle(now), steps, k, 0);
    var w := Run(Idle(now), steps);
    hide Run;
    forall q | q in LiveLeases(w)
      ensures q in w.conferenceLeases.members && q in LeasesOf(w, w.requests[q].key).members
    {
      assert LeaseHeld(w, q);
    }
    Subset(LiveLeases(w), w.conferenceLeases.members.Keys);
    Subset(LiveLeasesOf(w, k), LeasesOf(w, k).members.Keys);
  }

  /** A live lease is in both of its sets, and neither set can expire before the lease does. */
  lemma {:induction false} LiveLeasesAreNeverDropped(now: int, steps: seq<Step>, q: Request)
    ensures var w := Run(Idle(now), steps);
            q in LiveLeases(w) ==>
              var until := w.requests[q].leasedUntil;
              var mine := LeasesOf(w, w.requests[q].key);
              && HoldsLease(Stored(mine, w.now), q, until) && HoldsLease(Stored(w.conferenceLeases, w.now), q, until)
              && mine.dropsAt >= until + 1000 && w.conferenceLeases.dropsAt >= until + 1000
  {
    IdleIsOk(now, 0, 0);
    RunKeeps(Idle(now), steps, 0, 0);
    var w := Run(Idle(now), steps);
    if q in LiveLeases(w) {
      assert LeaseHeld(w, q);
    }
  }

  /** Let through by both counters and given a lease. */
  predicate Admitted(p: Phase) {
    p.Running? || p.Ended?
  }

  function AdmittedOfKey(w: World, k: Key, t: int): set<Request> {
    set q | q in w.requests && Admitted(w.requests[q]) && w.requests[q].key == k && InMinute(w.requests[q].keyAt, t)
  }

  function AdmittedToConference(w: World, t: int): set<Request> {
    set q | q in w.requests && Admitted(w.requests[q]) && InMinute(w.requests[q].conferenceAt, t)
  }

  /** Any 60 seconds, wherever they begin, admit fewer than twice the limit: 119 for a key, 599 for the conference. */
  lemma {:induction false} AnyMinuteIsBounded(now: int, steps: seq<Step>, k: Key, t: int)
    ensures var w := Run(Idle(now), steps);
            && |AdmittedOfKey(w, k, t)| <= 2 * KEY_LIMIT - 1
            && |AdmittedToConference(w, t)| <= 2 * CONFERENCE_LIMIT - 1
  {
    IdleIsOk(now, k, t);
    RunKeeps(Idle(now), steps, k, t);
    var w := Run(Idle(now), steps);
    hide Run;
    assert forall q :: q in w.requests ==> PhaseOk(w.requests[q], w.now);
    Subset(AdmittedOfKey(w, k, t), KeyPasses(w, k, t));
    Subset(AdmittedToConference(w, t), ConferencePasses(w, t));
  }

  // ---- who is let through ----------------------------------------------------------------------------------------

  predicate RunsOn(w: World, q: Request, until: int) {
    q in w.requests && w.requests[q].Running? && w.requests[q].leasedUntil == until
  }

  /** An unexpired lease in the set belongs to a request that is running on it, of this key if one is named. */
  ghost predicate SetRuns(w: World, s: LeaseSet, key: Option<Key>) {
    forall q, until :: HoldsLease(s, q, until) && until > w.now ==>
      RunsOn(w, q, until) && (key.Some? ==> w.requests[q].key == key.value)
  }

  ghost predicate LeasesAreRunning(w: World) {
    (forall k :: SetRuns(w, LeasesOf(w, k), Some(k))) && SetRuns(w, w.conferenceLeases, None)
  }

  /** Every lease of b that is still live was in a, or is q's new one. */
  ghost predicate ComesFrom(a: LeaseSet, b: LeaseSet, q: Request, gained: Option<int>) {
    forall p, until :: HoldsLease(b, p, until) ==> HoldsLease(a, p, until) || (p == q && gained == Some(until))
  }

  lemma LeasesComeFrom(mine: LeaseSet, all: LeaseSet, q: Request, at: int, now: int)
    ensures var r := TakeLease(mine, all, q, at, now);
            var gained := if r.2 then Some(at + LEASE) else None;
            ComesFrom(mine, r.0, q, gained) && ComesFrom(all, r.1, q, gained)
  {
  }

  /** The requests other than q go on as they were, and q runs on its gained lease if it got one. */
  lemma SetStillRuns(w: World, next: World, a: LeaseSet, b: LeaseSet, q: Request, gained: Option<int>, key: Option<Key>)
    requires SetRuns(w, a, key) && ComesFrom(a, b, q, gained) && w.now <= next.now
    requires forall p :: p in w.requests && p != q ==> p in next.requests && next.requests[p] == w.requests[p]
    requires forall until :: HoldsLease(a, q, until) && until > next.now ==> !HoldsLease(b, q, until)
    requires gained.Some? ==> RunsOn(next, q, gained.value) && (key.Some? ==> next.requests[q].key == key.value)
    ensures SetRuns(next, b, key)
  {
    hide HoldsLease;
    forall p, until | HoldsLease(b, p, until) && until > next.now
      ensures RunsOn(next, p, until) && (key.Some? ==> next.requests[p].key == key.value)
    {
      if p != q {
        assert HoldsLease(a, p, until) && RunsOn(w, p, until);
      }
    }
  }

  lemma NotRunning(w: World, s: LeaseSet, q: Request, key: Option<Key>)
    requires SetRuns(w, s, key) && !(q in w.requests && w.requests[q].Running?)
    ensures forall until :: HoldsLease(s, q, until) ==> until <= w.now
  {
    hide HoldsLease;
    forall until | HoldsLease(s, q, until)
      ensures until <= w.now
    {
      assert until > w.now ==> RunsOn(w, q, until);
    }
  }

  lemma SameSet(s: LeaseSet, q: Request)
    ensures ComesFrom(s, s, q, None)
  {
  }

  /** A step that touches no lease, of a request that is not running. */
  lemma PlainStepKeepsRunning(w: World, next: World, q: Request)
    requires LeasesAreRunning(w) && !(q in w.requests && w.requests[q].Running?)
    requires w.now <= next.now && next.keyLeases == w.keyLeases && next.conferenceLeases == w.conferenceLeases
    requires forall p :: p in w.requests && p != q ==> p in next.requests && next.requests[p] == w.requests[p]
    ensures LeasesAreRunning(next)
  {
    hide SetRuns, ComesFrom, HoldsLease;
    forall k
      ensures SetRuns(next, LeasesOf(next, k), Some(k))
    {
      assert LeasesOf(next, k) == LeasesOf(w, k);
      NotRunning(w, LeasesOf(w, k), q, Some(k));
      SameSet(LeasesOf(w, k), q);
      SetStillRuns(w, next, LeasesOf(w, k), LeasesOf(w, k), q, None, Some(k));
    }
    NotRunning(w, w.conferenceLeases, q, None);
    SameSet(w.conferenceLeases, q);
    SetStillRuns(w, next, w.conferenceLeases, w.conferenceLeases, q, None, None);
  }

  lemma AcquireKeepsRunning(w: World, q: Request, delay: nat)
    requires LeasesAreRunning(w) && q in w.requests && w.requests[q].Counted?
    requires w.requests[q].n <= KEY_LIMIT && w.requests[q].c <= CONFERENCE_LIMIT
    ensures LeasesAreRunning(Apply(w, Acquire(q, delay)))
  {
    hide SetRuns, ComesFrom, HoldsLease, TakeLease;
    var key, at, next := w.requests[q].key, w.now - delay, Apply(w, Acquire(q, delay));
    var r := TakeLease(LeasesOf(w, key), w.conferenceLeases, q, at, w.now);
    var gained := if r.2 then Some(at + LEASE) else None;
    LeasesComeFrom(LeasesOf(w, key), w.conferenceLeases, q, at, w.now);
    assert next.keyLeases == w.keyLeases[key := r.0] && next.conferenceLeases == r.1;
    assert r.2 ==> RunsOn(next, q, at + LEASE) && next.requests[q].key == key;
    forall k
      ensures SetRuns(next, LeasesOf(next, k), Some(k))
    {
      NotRunning(w, LeasesOf(w, k), q, Some(k));
      if k == key {
        SetStillRuns(w, next, LeasesOf(w, k), r.0, q, gained, Some(k));
      } else {
        SameSet(LeasesOf(w, k), q);
        SetStillRuns(w, next, LeasesOf(w, k), LeasesOf(w, k), q, None, Some(k));
      }
    }
    NotRunning(w, w.conferenceLeases, q, None);
    SetStillRuns(w, next, w.conferenceLeases, r.1, q, gained, None);
  }

  lemma Dropped(s: LeaseSet, q: Request, now: int)
    ensures ComesFrom(s, Drop(Stored(s, now), q), q, None)
    ensures forall until :: !HoldsLease(Drop(Stored(s, now), q), q, until)
  {
  }

  lemma ReleaseKeepsRunning(w: World, q: Request)
    requires LeasesAreRunning(w) && q in w.requests && w.requests[q].Running?
    ensures LeasesAreRunning(Apply(w, Release(q)))
  {
    hide SetRuns, ComesFrom, HoldsLease, Drop, Stored;
    var key, next := w.requests[q].key, Apply(w, Release(q));
    forall k
      ensures SetRuns(next, LeasesOf(next, k), Some(k))
    {
      if k == key {
        Dropped(LeasesOf(w, k), q, w.now);
        SetStillRuns(w, next, LeasesOf(w, k), LeasesOf(next, k), q, None, Some(k));
      } else {
        OtherKey(w, q, k);
        SameSet(LeasesOf(w, k), q);
        SetStillRuns(w, next, LeasesOf(w, k), LeasesOf(w, k), q, None, Some(k));
      }
    }
    Dropped(w.conferenceLeases, q, w.now);
    SetStillRuns(w, next, w.conferenceLeases, next.conferenceLeases, q, None, None);
  }

  lemma OtherKey(w: World, q: Request, k: Key)
    requires SetRuns(w, LeasesOf(w, k), Some(k)) && q in w.requests && w.requests[q].key != k
    ensures forall until :: HoldsLease(LeasesOf(w, k), q, until) ==> until <= w.now
  {
    hide HoldsLease;
    forall until | HoldsLease(LeasesOf(w, k), q, until)
      ensures until <= w.now
    {
      assert until > w.now ==> RunsOn(w, q, until);
    }
  }

  lemma TickKeepsRunning(w: World, ms: nat)
    requires LeasesAreRunning(w)
    ensures LeasesAreRunning(Apply(w, Tick(ms)))
  {
    hide HoldsLease;
    var next := Apply(w, Tick(ms));
    forall k
      ensures SetRuns(next, LeasesOf(next, k), Some(k))
    {
      assert LeasesOf(next, k) == LeasesOf(w, k) && SetRuns(w, LeasesOf(w, k), Some(k));
    }
  }

  lemma StepKeepsRunning(w: World, step: Step)
    requires LeasesAreRunning(w)
    ensures LeasesAreRunning(Apply(w, step))
  {
    hide LeasesAreRunning, Rate, TakeLease, Drop, Stored;
    var next := Apply(w, step);
    match step
    case Tick(ms) => TickKeepsRunning(w, ms);
    case CountKey(q, k) =>
      if q !in w.requests {
        PlainStepKeepsRunning(w, next, q);
      }
    case CountConference(q) =>
      if q in w.requests && w.requests[q].KeyCounted? {
        PlainStepKeepsRunning(w, next, q);
      }
    case Acquire(q, delay) =>
      if q in w.requests && w.requests[q].Counted? {
        if w.requests[q].n <= KEY_LIMIT && w.requests[q].c <= CONFERENCE_LIMIT {
          AcquireKeepsRunning(w, q, delay);
        } else {
          PlainStepKeepsRunning(w, next, q);
        }
      }
    case Release(q) =>
      if q in w.requests && w.requests[q].Running? {
        ReleaseKeepsRunning(w, q);
      }
  }

  lemma {:induction false} RunKeepsRunning(w: World, steps: seq<Step>)
    requires LeasesAreRunning(w)
    ensures LeasesAreRunning(Run(w, steps))
    decreases |steps|
  {
    hide LeasesAreRunning, Apply;
    if steps != [] {
      StepKeepsRunning(w, steps[0]);
      RunKeepsRunning(Apply(w, steps[0]), steps[1..]);
    }
  }

  /** Purged at the current time, the two sets hold exactly the requests running on a lease. */
  lemma SetsAreLive(w: World, k: Key)
    requires LeasesOk(w) && LeasesAreRunning(w)
    ensures Purge(Stored(LeasesOf(w, k), w.now), w.now).members.Keys == LiveLeasesOf(w, k)
    ensures Purge(Stored(w.conferenceLeases, w.now), w.now).members.Keys == LiveLeases(w)
  {
    var mine, all := Purge(Stored(LeasesOf(w, k), w.now), w.now).members, Purge(Stored(w.conferenceLeases, w.now), w.now).members;
    forall q | q in LiveLeases(w)
      ensures q in all && (w.requests[q].key == k ==> q in mine)
    {
      assert LeaseHeld(w, q);
      LiveIsStored(w, q);
    }
    assert SetRuns(w, LeasesOf(w, k), Some(k));
    forall q | q in mine
      ensures q in LiveLeasesOf(w, k)
    {
      assert HoldsLease(LeasesOf(w, k), q, mine[q]) && RunsOn(w, q, mine[q]);
    }
    forall q | q in all
      ensures q in LiveLeases(w)
    {
      assert HoldsLease(w.conferenceLeases, q, all[q]) && RunsOn(w, q, all[q]);
    }
    hide LeasesOk, LeasesAreRunning, SetRuns, Purge, Stored;
  }

  lemma LiveIsStored(w: World, q: Request)
    requires LeasesOk(w) && q in LiveLeases(w) && LeaseHeld(w, q)
    ensures Stored(w.conferenceLeases, w.now) == w.conferenceLeases
    ensures var mine := LeasesOf(w, w.requests[q].key); Stored(mine, w.now) == mine
  {
    assert w.requests[q].key in w.keyLeases;
    assert SetOk(w.keyLeases[w.requests[q].key], KEY_LEASES, w.now);
  }

  /**
   * In every run a counted request gets its lease, on a current reading of the clock, if and only if it is within the
   * key's 60 and the conference's 300, and fewer than 2 requests of the key and 10 of the conference run on a lease.
   */
  lemma {:induction false} LeaseIsGivenExactly(now: int, steps: seq<Step>, q: Request)
    requires var w := Run(Idle(now), steps);
             q in w.requests && w.requests[q].Counted?
    ensures var w := Run(Idle(now), steps);
            var p, next := w.requests[q], Apply(w, Acquire(q, 0)).requests[q];
            next == if p.n <= 60 && p.c <= 300 && |LiveLeasesOf(w, p.key)| < 2 && |LiveLeases(w)| < 10
                    then Running(p.key, p.n, p.keyAt, p.c, p.conferenceAt, w.now + 60_000)
                    else Refused(p.key, p.n, p.keyAt, p.c, p.conferenceAt)
  {
    IdleIsOk(now, 0, 0);
    RunKeeps(Idle(now), steps, 0, 0);
    RunKeepsRunning(Idle(now), steps);
    var w := Run(Idle(now), steps);
    hide Run, LeasesOk, LeasesAreRunning, RatesOk, Purge, Stored, LeasesOf;
    SetsAreLive(w, w.requests[q].key);
    TakenExactly(LeasesOf(w, w.requests[q].key), w.conferenceLeases, q, w.now);
    hide TakeLease;
  }

  lemma TakenExactly(mine: LeaseSet, all: LeaseSet, q: Request, now: int)
    ensures TakeLease(mine, all, q, now, now).2 <==>
              && |Purge(Stored(mine, now), now).members.Keys| < 2 && |Purge(Stored(all, now), now).members.Keys| < 10
  {
    var m, a := Purge(Stored(mine, now), now).members, Purge(Stored(all, now), now).members;
    assert |m| == |m.Keys| && |a| == |a.Keys|;
  }

  /** A released request holds no lease any more. */
  lemma {:induction false} ReleaseFrees(now: int, steps: seq<Step>, q: Request)
    requires var w := Run(Idle(now), steps);
             q in w.requests && w.requests[q].Running?
    ensures var w := Run(Idle(now), steps);
            var next := Apply(w, Release(q));
            && LiveLeases(next) == LiveLeases(w) - {q}
            && next.requests == w.requests[q := Ended(w.requests[q].key, w.requests[q].n, w.requests[q].keyAt,
                                                     w.requests[q].c, w.requests[q].conferenceAt)]
            && q !in Stored(LeasesOf(next, w.requests[q].key), next.now).members
            && q !in Stored(next.conferenceLeases, next.now).members
  {
  }

  // ---- the bound is exact ----------------------------------------------------------------------------------------

  /** One counter asked at the given times, in order. */
  function CountAt(window: Option<Window>, times: seq<int>): Option<Window> {
    if times == [] then window else Some(Rate(CountAt(window, times[..|times| - 1]), times[|times| - 1]))
  }

  /** How many of those calls get a number within the limit during the minute from t. */
  function PassesAt(window: Option<Window>, times: seq<int>, limit: nat, t: int): nat {
    if times == [] then 0
    else
      var n := |times| - 1;
      PassesAt(window, times[..n], limit, t)
      + if InMinute(times[n], t) && CountAt(window, times).value.count <= limit then 1 else 0
  }

  function Burst(x: int, n: nat): seq<int> {
    if n == 0 then [] else Burst(x, n - 1) + [x]
  }

  /** A burst inside an open window passes entirely while numbers last. */
  lemma {:induction false} BurstPasses(before: seq<int>, w: Window, x: int, n: nat, limit: nat, t: int)
    requires CountAt(None, before) == Some(w) && w.startedAt <= x < w.startedAt + WINDOW
    requires InMinute(x, t) && w.count + n <= limit
    ensures CountAt(None, before + Burst(x, n)) == Some(Window(w.count + n, w.startedAt))
    ensures PassesAt(None, before + Burst(x, n), limit, t) == PassesAt(None, before, limit, t) + n
  {
    if n == 0 {
      assert before + [] == before;
    } else {
      BurstPasses(before, w, x, n - 1, limit, t);
      assert (before + Burst(x, n))[..|before + Burst(x, n)| - 1] == before + Burst(x, n - 1);
    }
  }

  /** One call, a burst at the window's last moment and a burst at the next window's first let 2 * limit - 1 through. */
  lemma {:induction false} BoundIsReached(limit: nat)
    requires limit >= 1
    ensures var times := [0] + Burst(WINDOW - 1, limit - 1) + [WINDOW] + Burst(WINDOW, limit - 1);
            PassesAt(None, times, limit, WINDOW - 1) == 2 * limit - 1
  {
    var t := WINDOW - 1;
    assert CountAt(None, [0]) == Some(Window(1, 0)) by { assert [0][..0] == []; }
    assert PassesAt(None, [0], limit, t) == 0 by { assert [0][..0] == []; }
    BurstPasses([0], Window(1, 0), t, limit - 1, limit, t);
    var first := [0] + Burst(t, limit - 1);
    var both := first + [WINDOW];
    assert both[..|both| - 1] == first;
    assert CountAt(None, both) == Some(Window(1, WINDOW));
    BurstPasses(both, Window(1, WINDOW), WINDOW, limit - 1, limit, t);
  }

  // ---- a run that reaches both bounds ----------------------------------------------------------------------------

  /** 600 requests: one at 0, 299 in its window's last millisecond, and 300 in the first of the next. */
  function At(q: Request): int {
    if q == 0 then 0 else if q < CONFERENCE_LIMIT then WINDOW - 1 else WINDOW
  }

  /** Each key asks 60 times, and key 0 another 60 times in the second window. */
  function KeyFor(q: Request): Key {
    if CONFERENCE_LIMIT <= q < CONFERENCE_LIMIT + KEY_LIMIT then 0 else q / KEY_LIMIT
  }

  /** A request that waits its turn, is counted twice, gets a lease and gives it back. */
  function Visit(q: Request): seq<Step> {
    [Tick(if q == 1 then WINDOW - 1 else if q == CONFERENCE_LIMIT then 1 else 0),
     CountKey(q, KeyFor(q)), CountConference(q), Acquire(q, 0), Release(q)]
  }

  function Visits(lo: nat, hi: nat): seq<Step>
    requires lo <= hi
    decreases hi - lo
  {
    if lo == hi then [] else Visit(lo) + Visits(lo + 1, hi)
  }

  predicate NoneHeld(w: World) {
    (forall k :: k in w.keyLeases ==> w.keyLeases[k].members == map[]) && w.conferenceLeases.members == map[]
  }

  predicate Served(p: Phase, q: Request) {
    p.Ended? && p.key == KeyFor(q) && p.keyAt == At(q) && p.conferenceAt == At(q)
  }

  /** Both kinds of windows after the first j requests. */
  ghost predicate WindowsAfter(w: World, j: nat) {
    && w.conferenceWindow == (if j == 0 then None
                              else if j <= CONFERENCE_LIMIT then Some(Window(j, 0))
                              else Some(Window(j - CONFERENCE_LIMIT, WINDOW)))
    && (forall k: Key :: k >= 1 && WindowOf(w, k).Some? ==> WindowOf(w, k).value.count <= j - KEY_LIMIT * k)
    && (if j == 0 then WindowOf(w, 0).None?
        else WindowOf(w, 0).Some? && KeyZeroAfter(WindowOf(w, 0).value, j))
  }

  predicate KeyZeroAfter(window: Window, j: nat) {
    if j <= CONFERENCE_LIMIT then window.startedAt == 0 && window.count <= j
    else window.startedAt == WINDOW && window.count <= j - CONFERENCE_LIMIT
  }

  ghost predicate RequestsAfter(w: World, j: nat) {
    && (forall q: Request :: q in w.requests <==> q < j)
    && (forall q :: q in w.requests ==> Served(w.requests[q], q))
  }

  /** The state after the first j requests. */
  ghost predicate ServedAll(w: World, j: nat) {
    NoneHeld(w) && w.now == (if j == 0 then 0 else At(j - 1)) && RequestsAfter(w, j) && WindowsAfter(w, j)
  }

  lemma NextWindows(w: World, v: World, j: nat)
    requires WindowsAfter(w, j) && j < 2 * CONFERENCE_LIMIT
    requires v.keyWindows == w.keyWindows[KeyFor(j) := Rate(WindowOf(w, KeyFor(j)), At(j))]
    requires v.conferenceWindow == Some(Rate(w.conferenceWindow, At(j)))
    ensures Rate(WindowOf(w, KeyFor(j)), At(j)).count <= KEY_LIMIT
    ensures Rate(w.conferenceWindow, At(j)).count <= CONFERENCE_LIMIT
    ensures WindowsAfter(v, j + 1)
  {
    forall k: Key | k >= 1 && WindowOf(v, k).Some?
      ensures WindowOf(v, k).value.count <= j + 1 - KEY_LIMIT * k
    {
      if k == KeyFor(j) {
        assert KEY_LIMIT * k <= j;
      } else {
        assert WindowOf(v, k) == WindowOf(w, k);
      }
    }
    assert KeyFor(j) != 0 ==> WindowOf(v, 0) == WindowOf(w, 0);
  }

  lemma LeaseIsTaken(mine: LeaseSet, all: LeaseSet, q: Request, now: int)
    requires mine.members == map[] && all.members == map[]
    ensures var r := TakeLease(mine, all, q, now, now);
            r.2 && Drop(Stored(r.0, now), q).members == map[] && Drop(Stored(r.1, now), q).members == map[]
  {
    assert Purge(Stored(mine, now), now).members == map[] && Purge(Stored(all, now), now).members == map[];
    assert map[q := now + LEASE] - {q} == map[];
  }

  /** With no lease out, a request within both limits is served. */
  lemma VisitIsServed(w: World, q: Request, k: Key)
    requires NoneHeld(w) && q !in w.requests
    requires Rate(WindowOf(w, k), w.now).count <= KEY_LIMIT && Rate(w.conferenceWindow, w.now).count <= CONFERENCE_LIMIT
    ensures var n, c := Rate(WindowOf(w, k), w.now), Rate(w.conferenceWindow, w.now);
            var v := Apply(Apply(Apply(Apply(w, CountKey(q, k)), CountConference(q)), Acquire(q, 0)), Release(q));
            && NoneHeld(v) && v.now == w.now && v.keyWindows == w.keyWindows[k := n] && v.conferenceWindow == Some(c)
            && v.requests == w.requests[q := Ended(k, n.count, w.now, c.count, w.now)]
  {
    hide Rate, TakeLease, Drop, Stored;
    var n, c := Rate(WindowOf(w, k), w.now), Rate(w.conferenceWindow, w.now);
    var counted := Apply(Apply(w, CountKey(q, k)), CountConference(q));
    assert counted == w.(keyWindows := w.keyWindows[k := n], conferenceWindow := Some(c),
                         requests := w.requests[q := Counted(k, n.count, w.now, c.count, w.now)]);
    var mine := LeasesOf(w, k);
    LeaseIsTaken(mine, w.conferenceLeases, q, w.now);
    var r := TakeLease(mine, w.conferenceLeases, q, w.now, w.now);
    var running := Apply(counted, Acquire(q, 0));
    assert running == counted.(keyLeases := w.keyLeases[k := r.0], conferenceLeases := r.1,
                               requests := w.requests[q := Running(k, n.count, w.now, c.count, w.now, w.now + LEASE)]);
    assert Apply(running, Release(q)).requests == w.requests[q := Ended(k, n.count, w.now, c.count, w.now)];
  }

  lemma {:induction false} RunFirst(w: World, step: Step, rest: seq<Step>)
    ensures Run(w, [step] + rest) == Run(Apply(w, step), rest)
  {
    hide Apply;
    assert ([step] + rest)[1..] == rest;
  }

  function AfterVisit(w: World, q: Request): World {
    Apply(Apply(Apply(Apply(Apply(w, Visit(q)[0]), CountKey(q, KeyFor(q))), CountConference(q)), Acquire(q, 0)), Release(q))
  }

  lemma {:induction false} RunVisit(w: World, q: Request, rest: seq<Step>)
    ensures Run(w, Visit(q) + rest) == Run(AfterVisit(w, q), rest)
  {
    hide Apply, KeyFor, Run;
    var v := Visit(q);
    var ticked := Apply(w, v[0]);
    var counted := Apply(ticked, v[1]);
    RunFirst(w, v[0], v[1..] + rest);
    RunFirst(ticked, v[1], v[2..] + rest);
    RunFirst(counted, v[2], v[3..] + rest);
    RunFirst(Apply(counted, v[2]), v[3], v[4..] + rest);
    RunFirst(Apply(Apply(counted, v[2]), v[3]), v[4], rest);
    assert v + rest == [v[0]] + (v[1..] + rest) && v[1..] + rest == [v[1]] + (v[2..] + rest);
    assert v[2..] + rest == [v[2]] + (v[3..] + rest) && v[3..] + rest == [v[3]] + (v[4..] + rest);
    assert v[4..] + rest == [v[4]] + rest;
  }

  lemma NextServed(w: World, j: nat)
    requires ServedAll(w, j) && j < 2 * CONFERENCE_LIMIT
    ensures ServedAll(AfterVisit(w, j), j + 1)
  {
    hide WindowsAfter, NoneHeld, Rate, RequestsAfter;
    var ticked := w.(now := At(j));
    assert Apply(w, Visit(j)[0]) == ticked;
    hide Apply, At, KeyFor;
    var k := KeyFor(j);
    var n, c := Rate(WindowOf(w, k), At(j)), Rate(w.conferenceWindow, At(j));
    var expected := ticked.(keyWindows := w.keyWindows[k := n], conferenceWindow := Some(c));
    NextWindows(w, expected, j);
    OnlyLeases(w, ticked);
    VisitIsServed(ticked, j, k) by {
      JIsNew(w, j);
    }
    var v := AfterVisit(w, j);
    hide AfterVisit;
    WindowsOnly(expected, v, j + 1);
    NextRequests(w, v, j, Ended(k, n.count, At(j), c.count, At(j)));
  }

  lemma JIsNew(w: World, j: nat)
    requires RequestsAfter(w, j)
    ensures j !in w.requests
  {
  }

  lemma NextRequests(w: World, v: World, j: nat, p: Phase)
    requires RequestsAfter(w, j) && v.requests == w.requests[j := p] && Served(p, j)
    ensures RequestsAfter(v, j + 1)
  {
  }

  lemma OnlyLeases(w: World, v: World)
    requires NoneHeld(w) && v.keyLeases == w.keyLeases && v.conferenceLeases == w.conferenceLeases
    ensures NoneHeld(v)
  {
  }

  lemma WindowsOnly(w: World, v: World, j: nat)
    requires WindowsAfter(w, j) && v.keyWindows == w.keyWindows && v.conferenceWindow == w.conferenceWindow
    ensures WindowsAfter(v, j)
  {
    assert forall k :: WindowOf(v, k) == WindowOf(w, k);
  }

  lemma {:induction false} VisitsServed(w: World, j: nat, n: nat)
    requires j <= n <= 2 * CONFERENCE_LIMIT && ServedAll(w, j)
    ensures ServedAll(Run(w, Visits(j, n)), n)
    decreases n - j
  {
    hide ServedAll;
    if j < n {
      hide Run, AfterVisit;
      NextServed(w, j);
      RunVisit(w, j, Visits(j + 1, n));
      VisitsServed(AfterVisit(w, j), j + 1, n);
    }
  }

  function Range(lo: nat, hi: nat): (r: set<nat>)
    requires lo <= hi
    ensures |r| == hi - lo && forall q :: q in r <==> lo <= q < hi
    decreases hi - lo
  {
    if lo == hi then {} else Range(lo, hi - 1) + {hi - 1}
  }

  /** In this run the 60 seconds from WINDOW - 1 admit 119 requests of key 0 and 599 of the conference. */
  lemma {:induction false} MinuteBoundsAreReached()
    ensures var w := Run(Idle(0), Visits(0, 2 * CONFERENCE_LIMIT));
            && |AdmittedOfKey(w, 0, WINDOW - 1)| == 2 * KEY_LIMIT - 1
            && |AdmittedToConference(w, WINDOW - 1)| == 2 * CONFERENCE_LIMIT - 1
  {
    NobodyServed();
    VisitsServed(Idle(0), 0, 2 * CONFERENCE_LIMIT);
    var w := Run(Idle(0), Visits(0, 2 * CONFERENCE_LIMIT));
    hide Run, Visits, RequestsAfter, AdmittedOfKey, AdmittedToConference;
    WhoIsAdmitted(w);
  }

  lemma WhoIsAdmitted(w: World)
    requires RequestsAfter(w, 2 * CONFERENCE_LIMIT)
    ensures AdmittedOfKey(w, 0, WINDOW - 1)
         == Range(1, KEY_LIMIT) + Range(CONFERENCE_LIMIT, CONFERENCE_LIMIT + KEY_LIMIT)
    ensures AdmittedToConference(w, WINDOW - 1) == Range(1, 2 * CONFERENCE_LIMIT)
    ensures |AdmittedOfKey(w, 0, WINDOW - 1)| == 2 * KEY_LIMIT - 1
  {
    hide Range;
    assert forall q :: q in w.requests ==> (InMinute(At(q), WINDOW - 1) <==> q >= 1);
    assert Range(1, KEY_LIMIT) !! Range(CONFERENCE_LIMIT, CONFERENCE_LIMIT + KEY_LIMIT);
  }

  lemma NobodyServed()
    ensures ServedAll(Idle(0), 0)
  {
    assert WindowOf(Idle(0), 0).None?;
  }

  // ---- the code --------------------------------------------------------------------------------------------------

  /** The stored counters and lease sets. A request's own progress is kept by its caller. */
  class Store {
    var now: int
    var keyWindows: map<Key, Window>
    var conferenceWindow: Option<Window>
    var keyLeases: map<Key, LeaseSet>
    var conferenceLeases: LeaseSet

    function View(requests: map<Request, Phase>): World
      reads this
    {
      World(now, keyWindows, conferenceWindow, keyLeases, conferenceLeases, requests)
    }

    constructor (now: int)
      ensures View(map[]) == Idle(now)
    {
      this.now := now;
      keyWindows, conferenceWindow, keyLeases, conferenceLeases := map[], None, map[], NO_LEASES;
    }

    method CountForKey(k: Key) returns (n: nat)
      modifies this
      ensures now == old(now) && conferenceWindow == old(conferenceWindow)
      ensures keyLeases == old(keyLeases) && conferenceLeases == old(conferenceLeases)
      ensures var window := Rate(if k in old(keyWindows) then Some(old(keyWindows)[k]) else None, now);
              keyWindows == old(keyWindows)[k := window] && n == window.count
    {
      var window := Window(1, now);
      if k in keyWindows && now < keyWindows[k].startedAt + WINDOW {
        window := keyWindows[k].(count := keyWindows[k].count + 1);
      }
      keyWindows := keyWindows[k := window];
      n := window.count;
    }

    method CountForConference() returns (c: nat)
      modifies this
      ensures now == old(now) && keyWindows == old(keyWindows)
      ensures keyLeases == old(keyLeases) && conferenceLeases == old(conferenceLeases)
      ensures conferenceWindow == Some(Rate(old(conferenceWindow), now)) && c == conferenceWindow.value.count
    {
      if conferenceWindow.Some? && now < conferenceWindow.value.startedAt + WINDOW {
        conferenceWindow := Some(conferenceWindow.value.(count := conferenceWindow.value.count + 1));
      } else {
        conferenceWindow := Some(Window(1, now));
      }
      c := conferenceWindow.value.count;
    }

    /** The lease script: purge both sets, refuse at either limit, else add the token to both and renew both. */
    method LeaseScript(k: Key, q: Request, at: int) returns (taken: bool)
      modifies this
      ensures now == old(now) && keyWindows == old(keyWindows) && conferenceWindow == old(conferenceWindow)
      ensures var mine := if k in old(keyLeases) then old(keyLeases)[k] else NO_LEASES;
              var r := TakeLease(mine, old(conferenceLeases), q, at, now);
              keyLeases == old(keyLeases)[k := r.0] && conferenceLeases == r.1 && taken == r.2
    {
      var sets := [if k in keyLeases then keyLeases[k] else NO_LEASES, conferenceLeases];
      var i := 0;
      while i < 2
        invariant 0 <= i <= 2 && |sets| == 2
        invariant sets[0] == var mine := if k in keyLeases then keyLeases[k] else NO_LEASES;
                             if i > 0 then Purge(Stored(mine, now), at) else mine
        invariant sets[1] == if i > 1 then Purge(Stored(conferenceLeases, now), at) else conferenceLeases
      {
        sets := sets[i := Purge(Stored(sets[i], now), at)];
        i := i + 1;
      }
      taken := |sets[0].members| < KEY_LEASES && |sets[1].members| < CONFERENCE_LEASES;
      if taken {
        sets := [AddLease(sets[0], q, at, now), AddLease(sets[1], q, at, now)];
      }
      keyLeases, conferenceLeases := keyLeases[k := sets[0]], sets[1];
    }

    method ReleaseScript(k: Key, q: Request)
      modifies this
      ensures now == old(now) && keyWindows == old(keyWindows) && conferenceWindow == old(conferenceWindow)
      ensures var mine := if k in old(keyLeases) then old(keyLeases)[k] else NO_LEASES;
              && keyLeases == old(keyLeases)[k := Drop(Stored(mine, now), q)]
              && conferenceLeases == Drop(Stored(old(conferenceLeases), now), q)
    {
      var mine := if k in keyLeases then keyLeases[k] else NO_LEASES;
      keyLeases := keyLeases[k := Drop(Stored(mine, now), q)];
      conferenceLeases := Drop(Stored(conferenceLeases, now), q);
    }

    /** acquire with nothing in between: both counters, then a lease. */
    method AcquireFor(k: Key, q: Request, delay: nat, requests: map<Request, Phase>) returns (phase: Phase)
      requires q !in requests
      modifies this
      ensures View(requests[q := phase])
              == Apply(Apply(Apply(old(View(requests)), CountKey(q, k)), CountConference(q)), Acquire(q, delay))
    {
      hide Rate, TakeLease, Drop, Stored, Purge, AddLease;
      ghost var start := View(requests);
      var n := CountForKey(k);
      ghost var counted := View(requests[q := KeyCounted(k, n, now)]);
      assert counted == Apply(start, CountKey(q, k));
      var c := CountForConference();
      ghost var both := View(requests[q := Counted(k, n, now, c, now)]);
      assert requests[q := Counted(k, n, now, c, now)]
          == requests[q := KeyCounted(k, n, now)][q := Counted(k, n, now, c, now)];
      assert both == Apply(counted, CountConference(q));
      if n > KEY_LIMIT || c > CONFERENCE_LIMIT {
        phase := Refused(k, n, now, c, now);
      } else {
        var taken := LeaseScript(k, q, now - delay);
        phase := if taken then Running(k, n, now, c, now, now - delay + LEASE) else Refused(k, n, now, c, now);
      }
      assert requests[q := phase] == both.requests[q := phase];
      assert View(requests[q := phase]) == Apply(both, Acquire(q, delay));
    }
  }
}
