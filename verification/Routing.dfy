/** The choice of an agent for a task (`AgentCapabilityRegistry.route`). */
module Routing {
  import opened Wrappers
  import opened Difficulty

  datatype Provider = Reasonix | Claude | Codex | OtherProvider(name: string)

  datatype Capability = Coding | Implementation | OtherCapability(name: string)

  datatype Agent = Agent(
    id: string, provider: Provider, model: string, supported: seq<TaskDifficulty>, capabilities: seq<Capability>,
    tier: string, maxConcurrency: int, enabled: bool)

  /** What the capability constructor enforces. */
  predicate Declared(a: Agent) { a.supported != [] && 1 <= a.maxConcurrency <= 64 }

  predicate Registered(agents: seq<Agent>) {
    && (forall a :: a in agents ==> Declared(a))
    && (forall i, j :: 0 <= i < j < |agents| ==> agents[i].id != agents[j].id)
  }

  datatype Query = Query(
    difficulty: TaskDifficulty, required: seq<Capability>, forced: Option<string>, preferred: Option<string>,
    forbidden: seq<string>)

  datatype Source = Automatic | Preferred | Forced

  datatype Route = Route(
    agentId: string, provider: Provider, model: string, difficulty: TaskDifficulty, tier: string, maxConcurrency: int,
    source: Source)

  // ---- Eligibility and rank ----------------------------------------------------------------------------------------

  predicate Eligible(a: Agent, q: Query) {
    && a.enabled && a.id !in q.forbidden && q.difficulty in a.supported
    && forall c :: c in q.required ==> c in a.capabilities || (c.Implementation? && Coding in a.capabilities)
  }

  function ProviderRank(d: TaskDifficulty, p: Provider): nat {
    match d
    case Basic => (match p case Reasonix => 0 case Claude => 1 case Codex => 2 case OtherProvider(_) => 99)
    case Standard => (match p case Claude => 0 case Codex => 1 case Reasonix => 2 case OtherProvider(_) => 99)
    case _ => (match p case Codex => 0 case Claude => 1 case Reasonix => 2 case OtherProvider(_) => 99)
  }

  function Hardest(ds: seq<TaskDifficulty>): nat
    requires ds != []
  {
    if |ds| == 1 then ds[0].Index()
    else if ds[0].Index() > Hardest(ds[1..]) then ds[0].Index() else Hardest(ds[1..])
  }

  function Distance(a: Agent, q: Query): nat
    requires Declared(a)
  {
    var gap := q.difficulty.Index() - Hardest(a.supported);
    if gap < 0 then -gap else gap
  }

  /** The order of strings, character by character. */
  predicate Below(s: string, t: string) {
    if t == "" then false
    else if s == "" then true
    else s[0] < t[0] || (s[0] == t[0] && Below(s[1..], t[1..]))
  }

  /** The order of the sort keys: provider rank, then distance, then id. */
  predicate Precedes(a: Agent, b: Agent, q: Query)
    requires Declared(a) && Declared(b)
  {
    var pa, pb := ProviderRank(q.difficulty, a.provider), ProviderRank(q.difficulty, b.provider);
    pa < pb || (pa == pb && (Distance(a, q) < Distance(b, q) || (Distance(a, q) == Distance(b, q) && Below(a.id, b.id))))
  }

  lemma {:induction false} BelowTotal(s: string, t: string)
    ensures s != t ==> Below(s, t) || Below(t, s)
    ensures !(Below(s, t) && Below(t, s))
  {
    if s != "" && t != "" {
      BelowTotal(s[1..], t[1..]);
      assert s == [s[0]] + s[1..] && t == [t[0]] + t[1..];
    }
  }

  lemma {:induction false} BelowTransitive(s: string, t: string, u: string)
    requires Below(s, t) && Below(t, u)
    ensures Below(s, u)
  {
    if s != "" && s[0] == t[0] == u[0] {
      BelowTransitive(s[1..], t[1..], u[1..]);
    }
  }

  // ---- The choice --------------------------------------------------------------------------------------------------

  function Candidates(agents: seq<Agent>, q: Query): (c: seq<Agent>)
    ensures forall a :: a in c <==> a in agents && Eligible(a, q)
  {
    if agents == [] then []
    else (if Eligible(agents[0], q) then [agents[0]] else []) + Candidates(agents[1..], q)
  }

  function Find(agents: seq<Agent>, id: string): (r: Option<Agent>)
    ensures r.Some? ==> r.value in agents && r.value.id == id
    ensures r.None? ==> forall a :: a in agents ==> a.id != id
  {
    if agents == [] then None else if agents[0].id == id then Some(agents[0]) else Find(agents[1..], id)
  }

  /** The first of the candidates in the order of the sort keys. */
  function First(candidates: seq<Agent>, q: Query): (a: Agent)
    requires candidates != [] && forall a :: a in candidates ==> Declared(a)
    ensures a in candidates
  {
    if |candidates| == 1 then candidates[0]
    else
      var rest := First(candidates[1..], q);
      if Precedes(rest, candidates[0], q) then rest else candidates[0]
  }

  function Select(agents: seq<Agent>, q: Query): Option<(Agent, Source)>
    requires Registered(agents)
  {
    if q.forced.Some? then
      if q.forced.value in q.forbidden then None
      else
        var forced := Find(agents, q.forced.value);
        if forced.None? || !Eligible(forced.value, q) then None else Some((forced.value, Forced))
    else
      var candidates := Candidates(agents, q);
      if candidates == [] then None
      else
        var preferred := if q.preferred.Some? then Find(candidates, q.preferred.value) else None;
        if preferred.Some? then Some((preferred.value, Preferred)) else Some((First(candidates, q), Automatic))
  }

  function RouteTask(agents: seq<Agent>, limit: int, q: Query): Option<Route>
    requires Registered(agents)
  {
    match Select(agents, q)
    case None => None
    case Some((a, source)) =>
      Some(Route(a.id, a.provider, a.model, q.difficulty, a.tier,
                 if a.maxConcurrency < limit then a.maxConcurrency else limit, source))
  }

  // ---- What the choice depends on -----------------------------------------------------------------------------------

  function Members(agents: seq<Agent>): set<Agent> { set a | a in agents }

  /** The agent that wins among a set of agents, without reference to any order in which they are listed. */
  ghost predicate Wins(agents: set<Agent>, a: Agent, source: Source, q: Query) {
    && a in agents && Eligible(a, q)
    && match source
       case Forced => q.forced == Some(a.id)
       case Preferred => q.forced.None? && q.preferred == Some(a.id)
       case Automatic =>
         && q.forced.None?
         && (forall b :: b in agents && Eligible(b, q) ==> q.preferred != Some(b.id))
         && (forall b :: b in agents && Eligible(b, q) && b != a ==> Declared(a) && Declared(b) && Precedes(a, b, q))
  }

  lemma {:induction false} FirstPrecedes(candidates: seq<Agent>, q: Query, b: Agent)
    requires candidates != [] && Registered(candidates)
    requires b in candidates && b != First(candidates, q)
    ensures Precedes(First(candidates, q), b, q)
  {
    if |candidates| > 1 {
      var head, rest := candidates[0], First(candidates[1..], q);
      assert candidates == [head] + candidates[1..];
      assert Registered(candidates[1..]);
      var i :| 0 <= i < |candidates[1..]| && candidates[1..][i] == rest;
      assert candidates[0].id != candidates[i + 1].id;
      PrecedesTotal(head, rest, q);
      if b in candidates[1..] && b != rest {
        FirstPrecedes(candidates[1..], q, b);
        if First(candidates, q) == head {
          PrecedesTransitive(head, rest, b, q);
        }
      }
    }
  }

  lemma PrecedesTotal(a: Agent, b: Agent, q: Query)
    requires Declared(a) && Declared(b) && a.id != b.id
    ensures Precedes(a, b, q) != Precedes(b, a, q)
  {
    BelowTotal(a.id, b.id);
  }

  lemma PrecedesTransitive(a: Agent, b: Agent, c: Agent, q: Query)
    requires Declared(a) && Declared(b) && Declared(c) && Precedes(a, b, q) && Precedes(b, c, q)
    ensures Precedes(a, c, q)
  {
    if Below(a.id, b.id) && Below(b.id, c.id) {
      BelowTransitive(a.id, b.id, c.id);
    }
  }

  lemma {:induction false} CandidatesRegistered(agents: seq<Agent>, q: Query)
    requires Registered(agents)
    ensures Registered(Candidates(agents, q))
  {
    if agents != [] {
      assert Registered(agents[1..]);
      CandidatesRegistered(agents[1..], q);
      var rest := Candidates(agents[1..], q);
      forall a | a in rest ensures a.id != agents[0].id {
        var i :| 0 <= i < |agents[1..]| && agents[1..][i] == a;
        assert agents[i + 1] == a;
      }
    }
  }

  /** The selection is the winner of the set: nothing but membership matters. */
  lemma SelectIsWinner(agents: seq<Agent>, q: Query)
    requires Registered(agents)
    ensures Select(agents, q).Some? ==>
      Wins(Members(agents), Select(agents, q).value.0, Select(agents, q).value.1, q)
    ensures Select(agents, q).None? ==>
      forall a, source :: !Wins(Members(agents), a, source, q)
  {
    var candidates := Candidates(agents, q);
    CandidatesRegistered(agents, q);
    if q.forced.None? && candidates != [] {
      forall b | b in candidates && b != First(candidates, q) ensures Precedes(First(candidates, q), b, q) {
        FirstPrecedes(candidates, q, b);
      }
    }
    if q.forced.Some? && Find(agents, q.forced.value).Some? {
      forall a | a in agents && a.id == q.forced.value ensures Some(a) == Find(agents, q.forced.value) {
        OneById(agents, a, Find(agents, q.forced.value).value);
      }
    }
    hide Precedes, First, Registered;
  }

  lemma OneById(agents: seq<Agent>, a: Agent, b: Agent)
    requires Registered(agents) && a in agents && b in agents && a.id == b.id
    ensures a == b
  {
    var i :| 0 <= i < |agents| && agents[i] == a;
    var j :| 0 <= j < |agents| && agents[j] == b;
    assert i == j;
  }

  lemma OneWinner(agents: seq<Agent>, q: Query, a: Agent, s: Source, b: Agent, t: Source)
    requires Registered(agents) && Wins(Members(agents), a, s, q) && Wins(Members(agents), b, t, q)
    ensures a == b && s == t
  {
    if a.id == b.id {
      OneById(agents, a, b);
    } else {
      PrecedesTotal(a, b, q);
    }
    hide Precedes;
  }

  /** Routing does not depend on the order in which the agents are declared. */
  lemma OrderIrrelevant(agents: seq<Agent>, others: seq<Agent>, limit: int, q: Query)
    requires Registered(agents) && Registered(others) && forall a :: a in agents <==> a in others
    ensures RouteTask(agents, limit, q) == RouteTask(others, limit, q)
  {
    SelectIsWinner(agents, q);
    SelectIsWinner(others, q);
    assert Members(agents) == Members(others);
    hide Wins;
    if Select(agents, q).Some? && Select(others, q).Some? {
      OneWinner(agents, q, Select(agents, q).value.0, Select(agents, q).value.1,
                Select(others, q).value.0, Select(others, q).value.1);
    }
    hide Select, Registered;
  }

  /** Removing an agent that was not selected, wherever it stood, changes nothing. */
  lemma LosersIrrelevant(agents: seq<Agent>, fewer: seq<Agent>, gone: Agent, limit: int, q: Query)
    requires Registered(agents) && Registered(fewer) && gone !in fewer
    requires forall a :: a in agents <==> a in fewer || a == gone
    requires Select(agents, q).Some? ==> Select(agents, q).value.0 != gone
    ensures RouteTask(fewer, limit, q) == RouteTask(agents, limit, q)
  {
    SelectIsWinner(agents, q);
    SelectIsWinner(fewer, q);
    if Select(agents, q).Some? {
      var (a, s) := Select(agents, q).value;
      assert Wins(Members(fewer), a, s, q);
      if Select(fewer, q).Some? {
        OneWinner(fewer, q, a, s, Select(fewer, q).value.0, Select(fewer, q).value.1);
      }
    } else {
      NoneEligible(agents, fewer, q);
    }
    hide Select, Registered, Wins;
  }

  lemma NoneEligible(agents: seq<Agent>, fewer: seq<Agent>, q: Query)
    requires Registered(agents) && Registered(fewer) && forall a :: a in fewer ==> a in agents
    requires Select(agents, q).None?
    ensures Select(fewer, q).None?
  {
    if q.forced.None? {
      var c := Candidates(fewer, q);
      assert forall a :: a in c ==> a in Candidates(agents, q);
    } else if Find(fewer, q.forced.value).Some? && Find(agents, q.forced.value).Some? {
      OneById(agents, Find(fewer, q.forced.value).value, Find(agents, q.forced.value).value);
    }
  }
}
