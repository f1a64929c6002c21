// crossing/identity.py: agents form a forest; revoking one revokes everything below it.
module Identity {
  import opened Model
  import opened Forest
  import Policy
  import Session

  function AgentLinks(agents: seq<Agent>): Links
  {
    seq(|agents|, i requires 0 <= i < |agents| => agents[i].parent)
  }

  /** `agent_id` is `ancestor_id` or lies below it. */
  predicate SelfOrDescendant(agents: seq<Agent>, a: AgentId, ancestor: AgentId)
  {
    Under(AgentLinks(agents), a, ancestor)
  }

  /** A principal under an account of its own, or under the one named; a missing one violates the foreign key. */
  function InsertPrincipal(db: Db, account: Option<AccountId>, key: Option<string>): (Db, Option<PrincipalId>)
  {
    if account.None? then
      (db.(accounts := db.accounts + [Account(0)], principals := db.principals + [Principal(|db.accounts|, key)]),
       Some(|db.principals|))
    else if account.value >= |db.accounts| then (db, None)
    else (db.(principals := db.principals + [Principal(account.value, key)]), Some(|db.principals|))
  }

  datatype CreateOutcome = Created(agent: AgentId) | CreateDenied(reason: Reason) | CreateAborted

  /** An agent of a missing principal violates the foreign key. */
  function CreateAgent(db: Db, principal: PrincipalId, parent: Option<AgentId>): (Db, CreateOutcome)
  {
    var denied := if parent.None? then None else Policy.CheckAgent(db.agents, parent.value);
    if denied.Some? then (db, CreateDenied(denied.value))
    else if parent.Some? && db.agents[parent.value].principal != principal then (db, CreateDenied(PrincipalMissing))
    else if principal >= |db.principals| then (db, CreateAborted)
    else (db.(agents := db.agents + [Agent(principal, parent, false)]), Created(|db.agents|))
  }

  /** Revocation of a whole subtree. */
  function RevokeAgent(agents: seq<Agent>, a: AgentId): seq<Agent>
  {
    seq(|agents|, i requires 0 <= i < |agents| =>
      if SelfOrDescendant(agents, i, a) then agents[i].(revoked := true) else agents[i])
  }

  /** `require_live_agent`: the agent and its parent, no further up. */
  function RequireLiveAgent(agents: seq<Agent>, a: AgentId): Policy.Verdict
  {
    if Policy.CheckAgent(agents, a).Some? then Some(AgentRevoked)
    else if agents[a].parent.Some? then Policy.CheckAgent(agents, agents[a].parent.value)
    else None
  }

  /** Agents form a forest, each tree within one principal, closed under revocation. */
  predicate Wellformed(agents: seq<Agent>)
  {
    && (forall i :: 0 <= i < |agents| && agents[i].parent.Some? ==> agents[i].parent.value < i)
    && (forall i :: 0 <= i < |agents| && agents[i].parent.Some? ==>
          && agents[agents[i].parent.value].principal == agents[i].principal
          && (agents[agents[i].parent.value].revoked ==> agents[i].revoked))
  }

  lemma CreateKeepsWellformed(db: Db, principal: PrincipalId, parent: Option<AgentId>)
    requires Wellformed(db.agents)
    ensures Wellformed(CreateAgent(db, principal, parent).0.agents)
  {
  }

  lemma RevokeKeepsWellformed(agents: seq<Agent>, a: AgentId)
    requires Wellformed(agents)
    ensures Wellformed(RevokeAgent(agents, a))
    ensures AgentLinks(RevokeAgent(agents, a)) == AgentLinks(agents)
  {
  }

  /** A revoked agent has only revoked descendants, however deep. */
  lemma {:induction false} RevokedBelow(agents: seq<Agent>, d: AgentId, a: AgentId)
    requires Wellformed(agents) && d < |agents| && a < |agents|
    requires SelfOrDescendant(agents, d, a) && agents[a].revoked
    ensures agents[d].revoked
    decreases d
  {
    if d != a {
      RevokedBelow(agents, agents[d].parent.value, a);
    }
  }

  /** Looking one level up answers as looking at the whole chain would. */
  lemma LiveAgentSeesWholeChain(agents: seq<Agent>, d: AgentId)
    requires Wellformed(agents)
    ensures RequireLiveAgent(agents, d).None?
            <==> d < |agents| && forall a: AgentId :: a < |agents| && SelfOrDescendant(agents, d, a) ==> !agents[a].revoked
  {
    if d < |agents| {
      if !agents[d].revoked {
        forall a: AgentId | a < |agents| && SelfOrDescendant(agents, d, a)
          ensures !agents[a].revoked
        {
          if agents[a].revoked {
            RevokedBelow(agents, d, a);
          }
        }
        assert agents[d].parent.Some? ==> SelfOrDescendant(agents, d, agents[d].parent.value);
      }
      assert SelfOrDescendant(agents, d, d);
    }
  }

  /** Every ancestor belongs to the same principal. */
  lemma {:induction false} AncestorsShareThePrincipal(agents: seq<Agent>, d: AgentId, a: AgentId)
    requires Wellformed(agents) && d < |agents| && SelfOrDescendant(agents, d, a)
    ensures a <= d && agents[a].principal == agents[d].principal
    decreases d
  {
    if d != a {
      AncestorsShareThePrincipal(agents, agents[d].parent.value, a);
    }
  }

  // ----- the loops -----

  method CreatePrincipal(s: Session.Session, account: Option<AccountId>, key: Option<string>)
    returns (p: Option<PrincipalId>)
    modifies s
    ensures (s.Tables(), p) == InsertPrincipal(old(s.Tables()), account, key)
  {
    var owner: AccountId;
    if account.None? {
      owner := |s.accounts|;
      s.accounts := s.accounts + [Account(0)];
    } else {
      owner := account.value;
    }
    if owner >= |s.accounts| {
      return None;
    }
    p := Some(|s.principals|);
    s.principals := s.principals + [Principal(owner, key)];
  }

  method Create(s: Session.Session, principal: PrincipalId, parent: Option<AgentId>) returns (out: CreateOutcome)
    modifies s
    ensures (s.Tables(), out) == CreateAgent(old(s.Tables()), principal, parent)
    ensures !out.Created? ==> s.Tables() == old(s.Tables())
    ensures out.Created? ==> s.agents == old(s.agents) + [Agent(principal, parent, false)]
    ensures out.Created? <==>
              && principal < |old(s.principals)|
              && (parent.Some? ==>
                    && parent.value < |old(s.agents)| && !old(s.agents)[parent.value].revoked
                    && old(s.agents)[parent.value].principal == principal)
    ensures out.Created? && parent.Some? ==> SelfOrDescendant(s.agents, |old(s.agents)|, parent.value)
  {
    if parent.Some? {
      var denied := Policy.CheckAgent(s.agents, parent.value);
      if denied.Some? {
        return CreateDenied(denied.value);
      }
      if s.agents[parent.value].principal != principal {
        return CreateDenied(PrincipalMissing);
      }
    }
    if principal >= |s.principals| {
      return CreateAborted;
    }
    out := Created(|s.agents|);
    s.agents := s.agents + [Agent(principal, parent, false)];
  }

  /** What the stack loop has done so far: `done` is revoked, the stack waits, nothing is met twice. */
  ghost predicate Sweep(agents: seq<Agent>, a: AgentId, done: set<AgentId>, stack: seq<AgentId>)
  {
    && a in done
    && (forall d :: d in done ==> d < |agents|)
    && (forall x :: x in stack ==> a < x < |agents| && x !in done)
    && (forall i, j :: 0 <= i < j < |stack| ==> stack[i] != stack[j])
    && (forall d :: d in done && d != a ==> agents[d].parent.Some? && agents[d].parent.value in done)
    && (forall x :: x in stack ==> agents[x].parent.Some? && agents[x].parent.value in done)
    && (forall c: AgentId :: c < |agents| && agents[c].parent.Some? && agents[c].parent.value in done
          ==> c in done || c in stack)
  }

  ghost predicate AreChildren(agents: seq<Agent>, p: AgentId, kids: seq<AgentId>)
  {
    && (forall i :: 0 <= i < |kids| ==> kids[i] < |agents| && agents[kids[i]].parent == Some(p))
    && (forall i, j :: 0 <= i < j < |kids| ==> kids[i] != kids[j])
    && (forall c: AgentId :: c < |agents| && agents[c].parent == Some(p) ==> c in kids)
  }

  /** A popped row's children were never met: each row has one parent. */
  lemma ChildrenAreNew(agents: seq<Agent>, a: AgentId, done: set<AgentId>, stack: seq<AgentId>, child: AgentId, kid: AgentId)
    requires Wellformed(agents) && Sweep(agents, a, done, stack)
    requires child in stack && kid < |agents| && agents[kid].parent == Some(child)
    ensures a < kid && kid !in done && kid !in stack
  {
  }

  lemma StackStaysNew(agents: seq<Agent>, a: AgentId, done: set<AgentId>, rest: seq<AgentId>, child: AgentId, kids: seq<AgentId>)
    requires Wellformed(agents)
    requires Sweep(agents, a, done, rest + [child])
    requires AreChildren(agents, child, kids)
    ensures child !in rest
    ensures forall i, j :: 0 <= i < j < |rest + kids| ==> (rest + kids)[i] != (rest + kids)[j]
  {
    var stack, next := rest + [child], rest + kids;
    assert stack[|rest|] == child && forall i :: 0 <= i < |rest| ==> stack[i] == rest[i];
    forall i | 0 <= i < |kids|
      ensures kids[i] !in rest
    {
      ChildrenAreNew(agents, a, done, stack, child, kids[i]);
    }
    assert forall i :: 0 <= i < |next| ==> next[i] == if i < |rest| then rest[i] else kids[i - |rest|];
  }

  /** Popping a row and pushing its children never meets a row twice. */
  lemma SweepStep(agents: seq<Agent>, a: AgentId, done: set<AgentId>, rest: seq<AgentId>, child: AgentId, kids: seq<AgentId>)
    requires Wellformed(agents)
    requires Sweep(agents, a, done, rest + [child])
    requires AreChildren(agents, child, kids)
    ensures child < |agents| && child !in done
    ensures Sweep(agents, a, done + {child}, rest + kids)
  {
    var stack, next := rest + [child], rest + kids;
    assert child in stack && forall x :: x in stack <==> x in rest || x == child;
    StackStaysNew(agents, a, done, rest, child, kids);
    forall x | x in next
      ensures a < x < |agents| && x !in done + {child}
      ensures agents[x].parent.Some? && agents[x].parent.value in done + {child}
    {
      if x in kids {
        ChildrenAreNew(agents, a, done, stack, child, x);
      }
    }
    forall c: AgentId | c < |agents| && agents[c].parent.Some? && agents[c].parent.value in done + {child}
      ensures c in done + {child} || c in next
    {
      if agents[c].parent == Some(child) {
        assert c in kids;
      } else {
        assert c in done || c in stack;
      }
    }
  }

  /** The children of the revoked row are where the sweep starts. */
  lemma SweepStart(agents: seq<Agent>, a: AgentId, kids: seq<AgentId>)
    requires Wellformed(agents) && a < |agents| && AreChildren(agents, a, kids)
    ensures Sweep(agents, a, {a}, kids)
  {
  }

  /** The rows a SELECT on parent_id returns, in some order. */
  method Children(agents: seq<Agent>, p: AgentId) returns (kids: seq<AgentId>)
    ensures AreChildren(agents, p, kids)
  {
    kids := [];
    for c := 0 to |agents|
      invariant forall i :: 0 <= i < |kids| ==> kids[i] < c && agents[kids[i]].parent == Some(p)
      invariant forall i, j :: 0 <= i < j < |kids| ==> kids[i] != kids[j]
      invariant forall k: AgentId :: k < c && agents[k].parent == Some(p) ==> k in kids
    {
      if agents[c].parent == Some(p) {
        kids := kids + [c];
      }
    }
  }

  lemma {:induction false} SweptIsUnder(agents: seq<Agent>, a: AgentId, done: set<AgentId>, d: AgentId)
    requires Wellformed(agents) && Sweep(agents, a, done, [])
    requires d < |agents|
    ensures d in done <==> SelfOrDescendant(agents, d, a)
    decreases d
  {
    if d != a {
      if agents[d].parent.Some? {
        SweptIsUnder(agents, a, done, agents[d].parent.value);
      }
    }
  }

  function Untouched(agents: seq<Agent>, done: set<AgentId>): set<AgentId>
  {
    set d: AgentId | d < |agents| && d !in done
  }

  function Marked(agents: seq<Agent>, done: set<AgentId>): seq<Agent>
  {
    seq(|agents|, i requires 0 <= i < |agents| => if i in done then agents[i].(revoked := true) else agents[i])
  }

  lemma MarkedAfterPop(agents: seq<Agent>, done: set<AgentId>, child: AgentId)
    requires child < |agents|
    ensures Marked(agents, done)[child := Marked(agents, done)[child].(revoked := true)] == Marked(agents, done + {child})
    ensures child !in done ==> Untouched(agents, done + {child}) < Untouched(agents, done)
  {
    if child !in done {
      assert child in Untouched(agents, done);
    }
  }

  lemma SameChildren(agents: seq<Agent>, done: set<AgentId>, p: AgentId, kids: seq<AgentId>)
    requires AreChildren(Marked(agents, done), p, kids)
    ensures AreChildren(agents, p, kids)
  {
  }

  lemma SweptIsRevoked(agents: seq<Agent>, a: AgentId, done: set<AgentId>)
    requires Wellformed(agents) && Sweep(agents, a, done, [])
    ensures Marked(agents, done) == RevokeAgent(agents, a)
  {
    forall d: AgentId | d < |agents|
      ensures d in done <==> SelfOrDescendant(agents, d, a)
    {
      SweptIsUnder(agents, a, done, d);
    }
  }

  lemma NothingBelowAMissingRow(agents: seq<Agent>, a: AgentId)
    requires a >= |agents|
    ensures RevokeAgent(agents, a) == agents
  {
    forall i: nat | i < |agents| && SelfOrDescendant(agents, i, a)
      ensures false
    {
      UnderIsLater(AgentLinks(agents), i, a);
    }
  }

  /** The stack loop ends on every forest and revokes exactly the subtree. */
  method Revoke(s: Session.Session, a: AgentId) returns (denied: Policy.Verdict)
    requires Wellformed(s.agents)
    modifies s
    ensures denied.None? <==> a < |old(s.agents)|
    ensures s.Tables() == old(s.Tables()).(agents := RevokeAgent(old(s.agents), a))
  {
    if a >= |s.agents| {
      NothingBelowAMissingRow(s.agents, a);
      return Some(AgentRevoked);
    }
    s.agents := s.agents[a := s.agents[a].(revoked := true)];
    SweepDescendants(s, a, old(s.agents));
    return None;
  }

  /** Revoke the row popped and push its children. */
  method PopAndPush(s: Session.Session, a: AgentId, rest: seq<AgentId>, child: AgentId,
                    ghost was: seq<Agent>, ghost done: set<AgentId>)
    returns (stack: seq<AgentId>)
    requires Wellformed(was) && s.agents == Marked(was, done) && Sweep(was, a, done, rest + [child])
    modifies s`agents
    ensures s.agents == Marked(was, done + {child}) && Sweep(was, a, done + {child}, stack)
    ensures Untouched(was, done + {child}) < Untouched(was, done)
  {
    assert child in rest + [child];
    s.agents := s.agents[child := s.agents[child].(revoked := true)];
    MarkedAfterPop(was, done, child);
    var kids := Children(s.agents, child);
    SameChildren(was, done + {child}, child, kids);
    SweepStep(was, a, done, rest, child, kids);
    stack := rest + kids;
  }

  method SweepDescendants(s: Session.Session, a: AgentId, ghost was: seq<Agent>)
    requires Wellformed(was) && a < |was| && s.agents == Marked(was, {a})
    modifies s`agents
    ensures s.agents == RevokeAgent(was, a)
  {
    ghost var done: set<AgentId> := {a};
    var stack := Children(s.agents, a);
    SameChildren(was, done, a, stack);
    SweepStart(was, a, stack);
    while stack != []
      invariant s.agents == Marked(was, done)
      invariant Sweep(was, a, done, stack)
      decreases Untouched(was, done)
    {
      var child, rest := stack[|stack| - 1], stack[..|stack| - 1];
      assert stack == rest + [child];
      stack := PopAndPush(s, a, rest, child, was, done);
      done := done + {child};
    }
    SweptIsRevoked(was, a, done);
  }

  /** What the walk knows: the rows it has seen are closed under parents, up to where it stands. */
  ghost predicate Walked(links: Links, start: AgentId, ancestor: AgentId, seen: set<AgentId>, current: AgentId)
  {
    && Reaches(links, start, current)
    && start != ancestor
    && (seen == {} ==> current == start)
    && (seen != {} ==> start in seen)
    && (forall x :: x in seen ==>
          && x < |links| && links[x].Some? && links[x].value != ancestor
          && (links[x].value in seen || links[x].value == current))
  }

  /** Nothing outside the closed set `seen` is ever reached from within it. */
  lemma {:induction false} NoWayOut(links: Links, seen: set<AgentId>, stop: AgentId, x: AgentId, ancestor: AgentId, n: nat)
    requires forall y :: y in seen ==> y < |links| && links[y].Some? && links[y].value != ancestor
    requires forall y :: y in seen ==> links[y].value in seen || links[y].value == stop
    requires stop in seen || stop >= |links| || links[stop].None?
    requires x in seen || x == stop
    requires x != ancestor
    ensures Up(links, x, n) != Some(ancestor)
    decreases n
  {
    if n > 0 && x < |links| && links[x].Some? {
      NoWayOut(links, seen, stop, links[x].value, ancestor, n - 1);
    }
  }

  /** The walk up ends, cycles or not, and decides exactly reachability along the parent column. */
  method IsSelfOrDescendant(s: Session.Session, a: AgentId, ancestor: AgentId) returns (found: bool)
    ensures found <==> Reaches(AgentLinks(s.agents), a, ancestor)
  {
    ghost var links := AgentLinks(s.agents);
    if a == ancestor {
      assert Up(links, a, 0) == Some(ancestor);
      return true;
    }
    var seen: set<AgentId> := {};
    var current: AgentId := a;
    assert Up(links, a, 0) == Some(a);
    while current < |s.agents| && s.agents[current].parent.Some?
      invariant Walked(links, a, ancestor, seen, current)
      decreases set x: AgentId | x < |links| && x !in seen
    {
      var parent: AgentId := s.agents[current].parent.value;
      ghost var n: nat :| Up(links, a, n) == Some(current);
      UpOnce(links, a, n);
      assert Up(links, current, 1) == Up(links, parent, 0) == Some(parent);
      assert Up(links, a, n + 1) == Some(parent);
      if parent == ancestor {
        return true;
      }
      if current in seen {
        forall k: nat
          ensures Up(links, a, k) != Some(ancestor)
        {
          NoWayOut(links, seen, current, a, ancestor, k);
        }
        return false;
      }
      ghost var before := set x: AgentId | x < |links| && x !in seen;
      assert current in before;
      seen := seen + {current};
      current := parent;
    }
    forall k: nat
      ensures Up(links, a, k) != Some(ancestor)
    {
      NoWayOut(links, seen, current, a, ancestor, k);
    }
    return false;
  }
}
