// crossing/policy.py: checks that read their arguments and either pass or name a reason.
module Policy {
  import opened Model
  import SignedState

  /** A check either passes (None) or denies with a reason. */
  type Verdict = Option<Reason>

  /** The moment a datetime denotes; a naive one is read as UTC. */
  function Instant(dt: DateTime): Time
  {
    SignedState.Instant(dt)
  }

  function Names(list: seq<string>): set<string>
  {
    set name | name in list
  }

  /** The child list is no wider than the parent list, as the code decides it. */
  predicate Subset(child: Option<seq<string>>, parent: Option<seq<string>>)
  {
    if parent.None? then true
    else if Names(parent.value) == {} then child.None? || Names(child.value) <= Names(parent.value)
    else if child.None? then false
    else Names(child.value) <= Names(parent.value)
  }

  /** What a list lets through: everything when absent, otherwise its members. */
  predicate Allows(list: Option<seq<string>>, name: string)
  {
    list.None? || name in list.value
  }

  function CheckAgent(agents: seq<Agent>, a: AgentId): Verdict
  {
    if a >= |agents| || agents[a].revoked then Some(AgentRevoked) else None
  }

  function CheckNonNegative(amount: Option<int>): Verdict
  {
    if amount.Some? && amount.value < 0 then Some(InvalidAmount) else None
  }

  function CheckFresh(m: Mandate, now: Time): Verdict
  {
    if m.revoked then Some(MandateRevoked)
    else if m.expires.Some? && now > Instant(m.expires.value) then Some(MandateExpired)
    else None
  }

  function CheckTool(m: Mandate, tool: string, server: string, price: int): Verdict
  {
    if !SignedState.Check(m) then Some(SignedStateDiverged)
    else if m.tools.Some? && tool !in m.tools.value then Some(ToolNotAllowed)
    else if m.servers.Some? && server !in m.servers.value then Some(ServerNotAllowed)
    else if price > m.maxCall then Some(CallOverMax)
    else if m.maxCalls.Some? && m.callsUsed >= m.maxCalls.value then Some(MaxCallsExceeded)
    else if price > m.remaining then Some(BudgetExceeded)
    else None
  }

  /** The terms a caller asks for when issuing a mandate, defaults already filled in. */
  datatype Terms = Terms(
    limit: int,
    maxCall: int,
    maxCalls: Option<int>,
    tools: Option<seq<string>>,
    servers: Option<seq<string>>,
    expires: Option<DateTime>,
    maxSub: int)

  predicate ExpiryEscalates(child: Option<DateTime>, parent: Option<DateTime>)
  {
    parent.Some? && (child.None? || Instant(child.value) > Instant(parent.value))
  }

  function SubagentCap(parent: Mandate): int
  {
    if parent.maxSub.Some? && parent.maxSub.value < parent.remaining then parent.maxSub.value
    else parent.remaining
  }

  /** `parent` is the caller's copy of the parent row: its remaining balance may be stale. */
  function CheckChildAttenuation(parent: Mandate, t: Terms): Verdict
  {
    if t.limit <= 0 then Some(InvalidAmount)
    else if t.limit > parent.remaining then Some(ChildSpendEscalation)
    else if t.limit > parent.limit then Some(ChildSpendEscalation)
    else if t.maxCall > parent.maxCall then Some(ChildMaxCallEscalation)
    else if !Subset(t.tools, parent.tools) then Some(ChildToolsEscalation)
    else if !Subset(t.servers, parent.servers) then Some(ChildServersEscalation)
    else if ExpiryEscalates(t.expires, parent.expires) then Some(ChildExpiryEscalation)
    else if t.maxSub < 0 then Some(InvalidAmount)
    else if t.maxSub > SubagentCap(parent) then Some(ChildBudgetEscalation)
    else None
  }

  /** Leaving the child's own sub-budget out, or asking for at least the limit, keeps the limit within the cap. */
  lemma SubBudgetBoundsLimitWhenAsked(parent: Mandate, t: Terms)
    requires CheckChildAttenuation(parent, t).None? && t.limit <= t.maxSub
    ensures t.limit <= SubagentCap(parent)
  {
  }

  /**
   * Otherwise the cap is on the child's sub-budget and not on its limit: for a given sub-budget there are
   * accepted terms beyond the cap exactly when it is within the cap and the parent has more than that.
   */
  lemma LimitPassesTheSubBudgetExactly(parent: Mandate, sub: int)
    ensures (exists t: Terms :: CheckChildAttenuation(parent, t).None? && t.maxSub == sub && t.limit > SubagentCap(parent))
            <==> 0 <= sub <= SubagentCap(parent) && SubagentCap(parent) < parent.remaining && SubagentCap(parent) < parent.limit
  {
    if 0 <= sub <= SubagentCap(parent) && SubagentCap(parent) < parent.remaining && SubagentCap(parent) < parent.limit {
      var t := Terms(SubagentCap(parent) + 1, parent.maxCall, None, parent.tools, parent.servers, parent.expires, sub);
      ListsAreSubsetsOfThemselves(parent.tools);
      ListsAreSubsetsOfThemselves(parent.servers);
      assert CheckChildAttenuation(parent, t).None?;
    }
  }

  lemma ListsAreSubsetsOfThemselves(list: Option<seq<string>>)
    ensures Subset(list, list)
  {
  }

  /** The one case in which an accepted child list is wider than its parent's. */
  predicate Escapes(child: Option<seq<string>>, parent: Option<seq<string>>)
  {
    child.None? && parent == Some([])
  }

  /** `subset` rejects every widening except an absent child list under an empty parent list. */
  lemma SubsetNarrowsExactlyUnlessItEscapes(child: Option<seq<string>>, parent: Option<seq<string>>)
    ensures Subset(child, parent) && !Escapes(child, parent)
            <==> forall name :: Allows(child, name) ==> Allows(parent, name)
  {
    if parent.Some? {
      if child.None? {
        var outsider := Longer(parent.value);
        assert Allows(child, outsider) && !Allows(parent, outsider);
        assert parent.value != [] ==> parent.value[0] in Names(parent.value);
      } else if forall name :: Allows(child, name) ==> Allows(parent, name) {
        assert forall name :: name in Names(child.value) ==> Allows(child, name);
      } else {
        var name :| Allows(child, name) && !Allows(parent, name);
        assert name in Names(child.value) && name !in Names(parent.value);
      }
    }
  }

  /** The escape does happen: an unrestricted child passes under a parent that allows nothing. */
  lemma UnrestrictedChildUnderEmptyParent()
    ensures Subset(None, Some([]))
    ensures Allows(None, "purchase") && !Allows(Some([]), "purchase")
  {
    assert Names([]) == {};
  }

  /** A name longer than every name on a list, hence not on it. */
  function Longer(list: seq<string>): (name: string)
    ensures forall i :: 0 <= i < |list| ==> |list[i]| < |name|
    ensures name !in list
  {
    if list == [] then "a"
    else
      var rest := Longer(list[1..]);
      if |list[0]| < |rest| then rest else list[0] + "a"
  }
}
