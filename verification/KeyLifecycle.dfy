/** One bot integration: its grant, its keys, and the scopes a key ends up with when it authenticates. */
module KeyLifecycle {
  import opened Common

  const DAY := 86400000

  // ---- scopes ----------------------------------------------------------------------------------------------------

  datatype Scope =
    | PapersRead
    | AuthorsRead
    | AuthorsContactsRead
    | ReviewersRead
    | ReviewersIdentityRead
    | ReviewersContactsRead
    | AssignmentsRead
    | AssignmentsWrite
    | InvitationsRead
    | InvitationsWrite
    | InvitationsResponsesRead
    | AnalyticsRead

  const SCOPE_COUNT := 12

  function Dependencies(s: Scope): seq<Scope> {
    match s
    case AuthorsRead => [PapersRead]
    case AuthorsContactsRead => [AuthorsRead]
    case ReviewersIdentityRead => [ReviewersRead]
    case ReviewersContactsRead => [ReviewersIdentityRead]
    case AssignmentsRead => [PapersRead, ReviewersRead]
    case AssignmentsWrite => [AssignmentsRead, PapersRead, ReviewersRead]
    case InvitationsRead => [ReviewersRead, ReviewersIdentityRead, ReviewersContactsRead]
    case InvitationsResponsesRead => [InvitationsRead]
    case InvitationsWrite => [InvitationsRead, ReviewersRead, ReviewersIdentityRead, ReviewersContactsRead]
    case _ => []
  }

  predicate Closed(scopes: seq<Scope>) {
    forall i, d :: 0 <= i < |scopes| && d in Dependencies(scopes[i]) ==> d in scopes
  }

  predicate NoDuplicates(scopes: seq<Scope>) {
    forall i, j :: 0 <= i < j < |scopes| ==> scopes[i] != scopes[j]
  }

  /** integrationScopesSchema. */
  predicate ValidScopes(scopes: seq<Scope>) {
    1 <= |scopes| <= SCOPE_COUNT && NoDuplicates(scopes) && Closed(scopes)
  }

  function Intersect(scopes: seq<Scope>, granted: seq<Scope>): seq<Scope> {
    if scopes == [] then []
    else
      var n := |scopes| - 1;
      Intersect(scopes[..n], granted) + if scopes[n] in granted then [scopes[n]] else []
  }

  /** The filter as the source runs it. */
  method FilterScopes(scopes: seq<Scope>, granted: seq<Scope>) returns (kept: seq<Scope>)
    ensures kept == Intersect(scopes, granted)
  {
    kept := [];
    for i := 0 to |scopes|
      invariant kept == Intersect(scopes[..i], granted)
    {
      assert scopes[..i + 1][..i] == scopes[..i];
      if scopes[i] in granted {
        kept := kept + [scopes[i]];
      }
    }
    assert scopes[..|scopes|] == scopes;
  }

  lemma {:induction false} IntersectContents(scopes: seq<Scope>, granted: seq<Scope>)
    ensures forall s :: s in Intersect(scopes, granted) <==> s in scopes && s in granted
    ensures |Intersect(scopes, granted)| <= |scopes|
  {
    if scopes != [] {
      var n := |scopes| - 1;
      IntersectContents(scopes[..n], granted);
      assert scopes == scopes[..n] + [scopes[n]];
    }
  }

  lemma {:induction false} IntersectKeepsDistinct(scopes: seq<Scope>, granted: seq<Scope>)
    requires NoDuplicates(scopes)
    ensures NoDuplicates(Intersect(scopes, granted))
  {
    if scopes != [] {
      var n := |scopes| - 1;
      IntersectKeepsDistinct(scopes[..n], granted);
      IntersectContents(scopes[..n], granted);
      assert scopes[n] !in scopes[..n];
    }
  }

  /**
   * The intersection of two dependency-closed sets is closed, so checking it again at authentication can fail for one
   * reason only: nothing is left.
   */
  lemma {:induction false} RecheckFailsOnlyWhenEmpty(scopes: seq<Scope>, granted: seq<Scope>)
    requires ValidScopes(scopes) && ValidScopes(granted)
    ensures ValidScopes(Intersect(scopes, granted)) <==> exists s :: s in scopes && s in granted
    ensures Closed(Intersect(scopes, granted))
  {
    var kept := Intersect(scopes, granted);
    IntersectContents(scopes, granted);
    IntersectKeepsDistinct(scopes, granted);
    forall i, d | 0 <= i < |kept| && d in Dependencies(kept[i])
      ensures d in kept
    {
      assert kept[i] in scopes && kept[i] in granted;
      var j :| 0 <= j < |scopes| && scopes[j] == kept[i];
      var k :| 0 <= k < |granted| && granted[k] == kept[i];
      assert d in scopes && d in granted;
    }
    assert kept != [] ==> kept[0] in kept;
    if s :| s in scopes && s in granted {
      assert s in kept;
    }
  }

  // ---- the grant and its keys ------------------------------------------------------------------------------------

  datatype Status = Active | Suspended | Revoked

  datatype Key = Key(scopes: seq<Scope>, expiresAt: int, revoked: bool, requestId: nat)

  /** A key's id is its position. */
  datatype Integration =
    Integration(status: Status, scopes: seq<Scope>, version: nat, authorizer: nat, keys: seq<Key>, now: int)

  datatype Outcome = Done | NotFound | Conflict | Forbidden

  predicate LiveKey(k: Key, now: int) {
    !k.revoked && k.expiresAt > now
  }

  function LiveKeys(keys: seq<Key>, now: int): set<nat> {
    set i | 0 <= i < |keys| && LiveKey(keys[i], now)
  }

  function RevokeAll(keys: seq<Key>): (r: seq<Key>)
    ensures |r| == |keys| && forall i :: 0 <= i < |keys| ==> r[i] == keys[i].(revoked := true)
  {
    if keys == [] then [] else RevokeAll(keys[..|keys| - 1]) + [keys[|keys| - 1].(revoked := true)]
  }

  datatype Change = Update(status: Option<Status>, scopes: Option<seq<Scope>>) | RevokeGrant | Reauthorize(user: nat)

  /** What the request schema lets through. */
  predicate ValidChange(c: Change) {
    c.Update? ==> (c.status.Some? ==> c.status.value != Revoked) && (c.scopes.Some? ==> ValidScopes(c.scopes.value))
  }

  /** allowed: the people involved may manage the scopes concerned. */
  function ChangeGrant(g: Integration, version: nat, c: Change, allowed: bool): (Integration, Outcome) {
    if g.status == Revoked then (g, if c.RevokeGrant? then Done else Conflict)
    else if g.version != version then (g, Conflict)
    else if (c.Reauthorize? || (c.Update? && c.scopes.Some?)) && !allowed then (g, Forbidden)
    else
      var next := g.(version := g.version + 1);
      match c
      case Update(status, scopes) =>
        (next.(status := if status.Some? then status.value else g.status,
               scopes := if scopes.Some? then scopes.value else g.scopes), Done)
      case RevokeGrant => (next.(status := Revoked, keys := RevokeAll(g.keys)), Done)
      case Reauthorize(user) => (next.(authorizer := user, keys := RevokeAll(g.keys)), Done)
  }

  function Issue(g: Integration, scopes: seq<Scope>, days: nat, requestId: nat, allowed: bool): (Integration, Outcome) {
    if g.status != Active then (g, Conflict)
    else if !allowed || (exists i :: 0 <= i < |scopes| && scopes[i] !in g.scopes) then (g, Forbidden)
    else if exists i :: 0 <= i < |g.keys| && g.keys[i].requestId == requestId then (g, Conflict)
    else if |LiveKeys(g.keys, g.now)| >= 2 then (g, Conflict)
    else (g.(keys := g.keys + [Key(scopes, g.now + days * DAY, false, requestId)]), Done)
  }

  function RevokeKey(g: Integration, id: nat): (Integration, Outcome) {
    if id >= |g.keys| then (g, NotFound)
    else (g.(keys := g.keys[id := g.keys[id].(revoked := true)]), Done)
  }

  /** The scopes a presented key gets, if it gets in; known: its secret matches, member: its authorizer still may. */
  function Authenticate(g: Integration, id: nat, known: bool, member: bool): Option<seq<Scope>> {
    if id >= |g.keys| || !known || !LiveKey(g.keys[id], g.now) || g.status != Active || !member then None
    else
      var scopes := Intersect(g.keys[id].scopes, g.scopes);
      if ValidScopes(scopes) then Some(scopes) else None
  }

  datatype Step =
    | Tick(ms: nat)
    | DoChange(version: nat, change: Change, allowed: bool)
    | DoIssue(scopes: seq<Scope>, days: nat, requestId: nat, allowed: bool)
    | DoRevokeKey(id: nat)

  predicate ValidStep(step: Step) {
    match step
    case DoChange(_, change, _) => ValidChange(change)
    case DoIssue(scopes, _, _, _) => ValidScopes(scopes)
    case _ => true
  }

  function Apply(g: Integration, step: Step): Integration {
    match step
    case Tick(ms) => g.(now := g.now + ms)
    case DoChange(version, change, allowed) => ChangeGrant(g, version, change, allowed).0
    case DoIssue(scopes, days, requestId, allowed) => Issue(g, scopes, days, requestId, allowed).0
    case DoRevokeKey(id) => RevokeKey(g, id).0
  }

  function Run(g: Integration, steps: seq<Step>): Integration
    decreases |steps|
  {
    if steps == [] then g else Run(Apply(g, steps[0]), steps[1..])
  }

  // ---- invariants ------------------------------------------------------------------------------------------------

  predicate GrantOk(g: Integration) {
    && ValidScopes(g.scopes)
    && |LiveKeys(g.keys, g.now)| <= 2
    && (g.status == Revoked ==> forall i :: 0 <= i < |g.keys| ==> g.keys[i].revoked)
    && (forall i :: 0 <= i < |g.keys| ==> ValidScopes(g.keys[i].scopes))
    && (forall i, j :: 0 <= i < j < |g.keys| ==> g.keys[i].requestId != g.keys[j].requestId)
  }

  /** Nothing comes back: a revoked key, and a revoked grant, which gets no further key. */
  predicate Later(a: Integration, b: Integration) {
    && |a.keys| <= |b.keys| && a.now <= b.now && a.version <= b.version
    && (forall i :: 0 <= i < |a.keys| ==>
          b.keys[i].scopes == a.keys[i].scopes && b.keys[i].expiresAt == a.keys[i].expiresAt
          && (a.keys[i].revoked ==> b.keys[i].revoked))
    && (a.status == Revoked ==> b.status == Revoked && |b.keys| == |a.keys| && b.scopes == a.scopes)
  }

  lemma {:induction false} Subset(a: set<nat>, b: set<nat>)
    requires a <= b
    ensures |a| <= |b|
    decreases a
  {
    if x :| x in a {
      Subset(a - {x}, b - {x});
    }
  }

  lemma FewerLiveKeys(a: seq<Key>, b: seq<Key>, now: int, later: int)
    requires |a| == |b| && now <= later
    requires forall i :: 0 <= i < |a| ==> b[i].expiresAt == a[i].expiresAt && (a[i].revoked ==> b[i].revoked)
    ensures |LiveKeys(b, later)| <= |LiveKeys(a, now)|
  {
    Subset(LiveKeys(b, later), LiveKeys(a, now));
  }

  lemma StepKeeps(g: Integration, step: Step)
    requires GrantOk(g) && ValidStep(step)
    ensures GrantOk(Apply(g, step)) && Later(g, Apply(g, step))
  {
    hide GrantOk, Later, ValidStep, Apply;
    if step.DoIssue? {
      IssueKeeps(g, step);
    } else {
      OthersKeep(g, step);
    }
  }

  lemma OthersKeep(g: Integration, step: Step)
    requires GrantOk(g) && ValidStep(step) && !step.DoIssue?
    ensures GrantOk(Apply(g, step)) && Later(g, Apply(g, step))
  {
    hide ValidScopes, LiveKeys, Issue, LiveKey;
    FewerLiveKeys(g.keys, Apply(g, step).keys, g.now, Apply(g, step).now);
  }

  lemma IssueKeeps(g: Integration, step: Step)
    requires GrantOk(g) && ValidStep(step) && step.DoIssue?
    ensures GrantOk(Apply(g, step)) && Later(g, Apply(g, step))
  {
    hide ValidScopes;
    var next := Apply(g, step);
    if next != g {
      assert LiveKeys(next.keys, g.now) <= LiveKeys(g.keys, g.now) + {|g.keys|};
      Subset(LiveKeys(next.keys, g.now), LiveKeys(g.keys, g.now) + {|g.keys|});
    }
  }

  lemma LaterTwice(a: Integration, b: Integration, c: Integration)
    requires Later(a, b) && Later(b, c)
    ensures Later(a, c)
  {
  }

  lemma {:induction false} RunKeeps(g: Integration, steps: seq<Step>)
    requires GrantOk(g) && forall i :: 0 <= i < |steps| ==> ValidStep(steps[i])
    ensures GrantOk(Run(g, steps)) && Later(g, Run(g, steps))
    decreases |steps|
  {
    hide GrantOk, Later, Apply, ValidStep;
    if steps == [] {
      LaterAtFirst(g);
    } else {
      StepKeeps(g, steps[0]);
      RunKeeps(Apply(g, steps[0]), steps[1..]);
      LaterTwice(g, Apply(g, steps[0]), Run(g, steps));
    }
  }

  lemma LaterAtFirst(g: Integration)
    ensures Later(g, g)
  {
  }

  function Created(scopes: seq<Scope>, user: nat, now: int): Integration {
    Integration(Active, scopes, 0, user, [], now)
  }

  lemma CreatedIsOk(scopes: seq<Scope>, user: nat, now: int)
    requires ValidScopes(scopes)
    ensures GrantOk(Created(scopes, user, now))
  {
    assert LiveKeys([], now) == {};
  }

  // ---- main results ----------------------------------------------------------------------------------------------

  /** The keys shown with an integration: at most two of the live ones are fetched. */
  predicate Presented(g: Integration, shown: set<nat>) {
    shown <= LiveKeys(g.keys, g.now) && |shown| == Min(2, |LiveKeys(g.keys, g.now)|)
  }

  /** In every run at most two keys are live, so fetching two of them always shows them all. */
  lemma {:induction false} AtMostTwoLiveKeys(scopes: seq<Scope>, user: nat, now: int, steps: seq<Step>, shown: set<nat>)
    requires ValidScopes(scopes) && forall i :: 0 <= i < |steps| ==> ValidStep(steps[i])
    ensures var g := Run(Created(scopes, user, now), steps);
            |LiveKeys(g.keys, g.now)| <= 2 && (Presented(g, shown) ==> shown == LiveKeys(g.keys, g.now))
  {
    CreatedIsOk(scopes, user, now);
    RunKeeps(Created(scopes, user, now), steps);
    var live := LiveKeys(Run(Created(scopes, user, now), steps).keys, Run(Created(scopes, user, now), steps).now);
    if shown < live {
      var x :| x in live && x !in shown;
      Subset(shown + {x}, live);
    }
  }

  /** A revoked integration stays revoked, never gets a key that works, and lets nobody in. */
  lemma {:induction false} RevokedIsFinal(scopes: seq<Scope>, user: nat, now: int, before: seq<Step>,
                                          after: seq<Step>, id: nat)
    requires ValidScopes(scopes) && forall i :: 0 <= i < |before + after| ==> ValidStep((before + after)[i])
    requires Run(Created(scopes, user, now), before).status == Revoked
    ensures var g := Run(Run(Created(scopes, user, now), before), after);
            && g.status == Revoked && LiveKeys(g.keys, g.now) == {}
            && (forall i :: 0 <= i < |g.keys| ==> g.keys[i].revoked)
            && Authenticate(g, id, true, true).None?
  {
    CreatedIsOk(scopes, user, now);
    assert forall i :: 0 <= i < |before| ==> (before + after)[i] == before[i];
    assert forall i :: 0 <= i < |after| ==> (before + after)[|before| + i] == after[i];
    RunKeeps(Created(scopes, user, now), before);
    RunKeeps(Run(Created(scopes, user, now), before), after);
  }

  /**
   * In every run a live key of an active grant gets in exactly when it shares a scope with the grant, and what it
   * gets is dependency-closed and within both.
   */
  lemma {:induction false} KeyGetsInExactly(scopes: seq<Scope>, user: nat, now: int, steps: seq<Step>, id: nat)
    requires ValidScopes(scopes) && forall i :: 0 <= i < |steps| ==> ValidStep(steps[i])
    ensures var g := Run(Created(scopes, user, now), steps);
            var r := Authenticate(g, id, true, true);
            && (r.Some? <==> id < |g.keys| && LiveKey(g.keys[id], g.now) && g.status == Active
                             && exists s :: s in g.keys[id].scopes && s in g.scopes)
            && (r.Some? ==> ValidScopes(r.value)
                            && forall s :: s in r.value <==> s in g.keys[id].scopes && s in g.scopes)
  {
    CreatedIsOk(scopes, user, now);
    RunKeeps(Created(scopes, user, now), steps);
    var g := Run(Created(scopes, user, now), steps);
    hide Run, Dependencies, Closed, NoDuplicates;
    if id < |g.keys| {
      RecheckFailsOnlyWhenEmpty(g.keys[id].scopes, g.scopes);
      IntersectContents(g.keys[id].scopes, g.scopes);
    }
  }

  /**
   * A change needs the current version and, if it touches people or scopes, permission; a revoked grant takes none.
   * Reauthorising and revoking revoke every key; scopes and status are what was asked for, and nothing else moves.
   */
  lemma ChangeAnswers(g: Integration, version: nat, c: Change, allowed: bool)
    ensures var r := ChangeGrant(g, version, c, allowed);
            var n := r.0;
            && (r.1 == Done <==>
                  if g.status == Revoked then c == RevokeGrant
                  else g.version == version && (allowed || c == RevokeGrant || (c.Update? && c.scopes.None?)))
            && (r.1 != Done || g.status == Revoked ==> n == g)
            && (r.1 == Done && g.status != Revoked ==>
                  && n.version == g.version + 1 && n.now == g.now && |n.keys| == |g.keys|
                  && n.status == (if c == RevokeGrant then Revoked
                                  else if c.Update? && c.status.Some? then c.status.value else g.status)
                  && n.scopes == (if c.Update? && c.scopes.Some? then c.scopes.value else g.scopes)
                  && n.authorizer == (if c.Reauthorize? then c.user else g.authorizer)
                  && forall i :: 0 <= i < |g.keys| ==>
                       n.keys[i] == if c.Update? then g.keys[i] else g.keys[i].(revoked := true))
  {
  }

  /** A key is issued exactly for an active grant, within its scopes, under a new request, beside at most one live key. */
  lemma IssueAnswers(g: Integration, scopes: seq<Scope>, days: nat, requestId: nat, allowed: bool)
    ensures var r := Issue(g, scopes, days, requestId, allowed);
            && (r.1 == Done <==>
                  && g.status == Active && allowed && (forall s :: s in scopes ==> s in g.scopes)
                  && (forall i :: 0 <= i < |g.keys| ==> g.keys[i].requestId != requestId)
                  && |LiveKeys(g.keys, g.now)| < 2)
            && r.0 == (if r.1 == Done then g.(keys := g.keys + [Key(scopes, g.now + days * DAY, false, requestId)]) else g)
  {
    hide LiveKeys;
    if forall i :: 0 <= i < |scopes| ==> scopes[i] in g.scopes {
      forall s | s in scopes
        ensures s in g.scopes
      {
        var i :| 0 <= i < |scopes| && scopes[i] == s;
      }
    }
  }

  /** Once the grant has been reauthorised, no key issued before ever gets in again. */
  lemma {:induction false} OldKeysStayOut(scopes: seq<Scope>, user: nat, now: int, before: seq<Step>, version: nat,
                                          successor: nat, allowed: bool, after: seq<Step>, id: nat)
    requires ValidScopes(scopes) && forall i :: 0 <= i < |before| ==> ValidStep(before[i])
    requires forall i :: 0 <= i < |after| ==> ValidStep(after[i])
    requires var g := Run(Created(scopes, user, now), before);
             ChangeGrant(g, version, Reauthorize(successor), allowed).1 == Done && id < |g.keys|
    ensures var g := Run(Created(scopes, user, now), before);
            var h := Run(Apply(g, DoChange(version, Reauthorize(successor), allowed)), after);
            id < |h.keys| && h.keys[id].revoked && Authenticate(h, id, true, true).None?
  {
    hide Run, LiveKeys, ValidScopes, ChangeGrant;
    CreatedIsOk(scopes, user, now);
    RunKeeps(Created(scopes, user, now), before);
    var g := Run(Created(scopes, user, now), before);
    var step := DoChange(version, Reauthorize(successor), allowed);
    ChangeAnswers(g, version, Reauthorize(successor), allowed);
    StepKeeps(g, step);
    RunKeeps(Apply(g, step), after);
  }

  /** Only a known key of an authorizer who is still a member gets in, whatever else holds. */
  lemma StrangersStayOut(g: Integration, id: nat, known: bool, member: bool)
    ensures Authenticate(g, id, known, member)
            == if known && member then Authenticate(g, id, true, true) else None
  {
  }

  // ---- the code --------------------------------------------------------------------------------------------------

  class Store {
    var status: Status
    var scopes: seq<Scope>
    var version: nat
    var authorizer: nat
    var keys: seq<Key>

    function View(now: int): Integration
      reads this
    {
      Integration(status, scopes, version, authorizer, keys, now)
    }

    constructor (scopes: seq<Scope>, user: nat)
      ensures forall now :: View(now) == Created(scopes, user, now)
    {
      status, this.scopes, version, authorizer, keys := Active, scopes, 0, user, [];
    }

    method RevokeEveryKey()
      modifies this`keys
      ensures keys == RevokeAll(old(keys))
    {
      var i := 0;
      while i < |keys|
        invariant |keys| == |old(keys)| && 0 <= i <= |keys|
        invariant forall j :: 0 <= j < i ==> keys[j] == old(keys)[j].(revoked := true)
        invariant forall j :: i <= j < |keys| ==> keys[j] == old(keys)[j]
      {
        keys := keys[i := keys[i].(revoked := true)];
        i := i + 1;
      }
      assert keys == RevokeAll(old(keys));
    }

    method ChangeIntegration(expected: nat, c: Change, allowed: bool, ghost now: int) returns (outcome: Outcome)
      modifies this
      ensures (View(now), outcome) == ChangeGrant(old(View(now)), expected, c, allowed)
    {
      if status == Revoked {
        return if c.RevokeGrant? then Done else Conflict;
      }
      if version != expected {
        return Conflict;
      }
      if (c.Reauthorize? || (c.Update? && c.scopes.Some?)) && !allowed {
        return Forbidden;
      }
      version := version + 1;
      match c {
        case Update(newStatus, newScopes) =>
          if newStatus.Some? {
            status := newStatus.value;
          }
          if newScopes.Some? {
            scopes := newScopes.value;
          }
        case RevokeGrant =>
          status := Revoked;
          RevokeEveryKey();
        case Reauthorize(user) =>
          authorizer := user;
          RevokeEveryKey();
      }
      return Done;
    }

    method IssueKey(wanted: seq<Scope>, days: nat, requestId: nat, allowed: bool, now: int) returns (outcome: Outcome)
      modifies this
      ensures (View(now), outcome) == Issue(old(View(now)), wanted, days, requestId, allowed)
    {
      if status != Active {
        return Conflict;
      }
      if !allowed || exists i :: 0 <= i < |wanted| && wanted[i] !in scopes {
        return Forbidden;
      }
      if exists i :: 0 <= i < |keys| && keys[i].requestId == requestId {
        return Conflict;
      }
      if |LiveKeys(keys, now)| >= 2 {
        return Conflict;
      }
      keys := keys + [Key(wanted, now + days * DAY, false, requestId)];
      return Done;
    }

    method RevokeOneKey(id: nat, ghost now: int) returns (outcome: Outcome)
      modifies this
      ensures (View(now), outcome) == RevokeKey(old(View(now)), id)
    {
      if id >= |keys| {
        return NotFound;
      }
      if !keys[id].revoked {
        keys := keys[id := keys[id].(revoked := true)];
      } else {
        assert keys[id := keys[id].(revoked := true)] == keys;
      }
      return Done;
    }
  }
}
