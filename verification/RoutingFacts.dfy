/** What a route consists of, and which agent it names, in terms of the declared agents (`AgentCapabilityRegistry.route`). */
module RoutingFacts {
  import opened Wrappers
  import opened Difficulty
  import opened Routing

  // ---- The order of the agents -------------------------------------------------------------------------------------

  /** The providers of a difficulty, best first; any other provider comes after all of them. */
  function ProvidersOf(d: TaskDifficulty): (ps: seq<Provider>)
    ensures |ps| == 3
  {
    match d
    case Basic => [Reasonix, Claude, Codex]
    case Standard => [Claude, Codex, Reasonix]
    case Advanced => [Codex, Claude, Reasonix]
    case Expert => [Codex, Claude, Reasonix]
  }

  /** `p` comes before `q`: it is listed, and `q` is listed later or not at all. */
  predicate IsBefore(d: TaskDifficulty, p: Provider, q: Provider) {
    exists i :: 0 <= i < 3 && ProvidersOf(d)[i] == p && forall j :: 0 <= j <= i ==> ProvidersOf(d)[j] != q
  }

  /** Neither is listed, or they are the same. */
  predicate IsLevelWith(d: TaskDifficulty, p: Provider, q: Provider) {
    p == q || (p !in ProvidersOf(d) && q !in ProvidersOf(d))
  }

  lemma RankExactly(d: TaskDifficulty, p: Provider, q: Provider)
    ensures ProviderRank(d, p) < ProviderRank(d, q) <==> IsBefore(d, p, q)
    ensures ProviderRank(d, p) == ProviderRank(d, q) <==> IsLevelWith(d, p, q)
  {
    var ps := ProvidersOf(d);
    assert ps == [ps[0], ps[1], ps[2]];
    if ProviderRank(d, p) < ProviderRank(d, q) {
      var i := ProviderRank(d, p);
      assert ps[i] == p;
    }
  }

  /** The hardest difficulty an agent supports. */
  predicate IsHardest(a: Agent, d: TaskDifficulty) {
    d in a.supported && forall e :: e in a.supported ==> e.Index() <= d.Index()
  }

  lemma {:induction false} HardestExactly(ds: seq<TaskDifficulty>)
    requires ds != []
    ensures exists d :: d in ds && d.Index() == Hardest(ds)
    ensures forall d :: d in ds ==> d.Index() <= Hardest(ds)
  {
    assert ds[0] in ds;
    if |ds| > 1 {
      HardestExactly(ds[1..]);
      assert ds == [ds[0]] + ds[1..];
      if ds[0].Index() <= Hardest(ds[1..]) {
        var d :| d in ds[1..] && d.Index() == Hardest(ds[1..]);
        assert d in ds;
      }
    }
  }

  function Apart(d: TaskDifficulty, e: TaskDifficulty): nat {
    if d.Index() < e.Index() then e.Index() - d.Index() else d.Index() - e.Index()
  }

  lemma DistanceExactly(a: Agent, q: Query, d: TaskDifficulty)
    requires Declared(a) && IsHardest(a, d)
    ensures Distance(a, q) == Apart(q.difficulty, d)
  {
    HardestExactly(a.supported);
  }

  lemma HardestExists(a: Agent) returns (d: TaskDifficulty)
    requires Declared(a)
    ensures IsHardest(a, d)
  {
    HardestExactly(a.supported);
    d :| d in a.supported && d.Index() == Hardest(a.supported);
  }

  /** At the first position where they part, `s` has ended or has the smaller character. */
  predicate IsSmaller(s: string, t: string) {
    exists n :: 0 <= n <= |s| && PartsAt(s, t, n)
  }

  predicate PartsAt(s: string, t: string, n: nat)
    requires n <= |s|
  {
    n < |t| && s[..n] == t[..n] && (n < |s| ==> s[n] < t[n])
  }

  lemma {:induction false} BelowExactly(s: string, t: string)
    ensures Below(s, t) <==> IsSmaller(s, t)
  {
    if s != "" && t != "" {
      BelowExactly(s[1..], t[1..]);
      if s[0] == t[0] && Below(s[1..], t[1..]) {
        var n :| 0 <= n <= |s[1..]| && PartsAt(s[1..], t[1..], n);
        assert s[..n + 1] == [s[0]] + s[1..][..n] && t[..n + 1] == [t[0]] + t[1..][..n];
        assert PartsAt(s, t, n + 1);
      } else if Below(s, t) {
        assert PartsAt(s, t, 0);
      } else if IsSmaller(s, t) {
        var n :| 0 <= n <= |s| && PartsAt(s, t, n);
        assert n > 0 && s[..n][0] == s[0] && t[..n][0] == t[0];
        assert s[1..][..n - 1] == s[..n][1..] && t[1..][..n - 1] == t[..n][1..];
        assert PartsAt(s[1..], t[1..], n - 1);
      }
    } else if s == "" && t != "" {
      assert PartsAt(s, t, 0);
    }
  }

  /** Provider, then distance between the task and the hardest supported difficulty, then id. */
  ghost predicate ComesFirst(a: Agent, b: Agent, q: Query) {
    || IsBefore(q.difficulty, a.provider, b.provider)
    || (IsLevelWith(q.difficulty, a.provider, b.provider)
        && exists d, e :: IsHardest(a, d) && IsHardest(b, e)
             && (Apart(q.difficulty, d) < Apart(q.difficulty, e)
                 || (Apart(q.difficulty, d) == Apart(q.difficulty, e) && IsSmaller(a.id, b.id))))
  }

  lemma PrecedesExactly(a: Agent, b: Agent, q: Query)
    requires Declared(a) && Declared(b)
    ensures Precedes(a, b, q) <==> ComesFirst(a, b, q)
  {
    hide ProviderRank, Distance, Declared, Below, IsSmaller, IsHardest, Apart, IsBefore, IsLevelWith;
    RankExactly(q.difficulty, a.provider, b.provider);
    BelowExactly(a.id, b.id);
    var d := HardestExists(a);
    var e := HardestExists(b);
    DistanceExactly(a, q, d);
    DistanceExactly(b, q, e);
    if ComesFirst(a, b, q) && !IsBefore(q.difficulty, a.provider, b.provider) {
      var x, y :| IsHardest(a, x) && IsHardest(b, y)
             && (Apart(q.difficulty, x) < Apart(q.difficulty, y)
                 || (Apart(q.difficulty, x) == Apart(q.difficulty, y) && IsSmaller(a.id, b.id)));
      DistanceExactly(a, q, x);
      DistanceExactly(b, q, y);
    }
  }

  // ---- The route -----------------------------------------------------------------------------------------------------

  /** Whoever codes can also implement. */
  predicate Covers(a: Agent, c: Capability) { c in a.capabilities || (c == Implementation && Coding in a.capabilities) }

  predicate Suits(a: Agent, q: Query) {
    && a.enabled && a.id !in q.forbidden && q.difficulty in a.supported
    && forall i :: 0 <= i < |q.required| ==> Covers(a, q.required[i])
  }

  lemma SuitsExactly(a: Agent, q: Query)
    ensures Eligible(a, q) <==> Suits(a, q)
  {
    if Suits(a, q) {
      forall c | c in q.required ensures c in a.capabilities || (c.Implementation? && Coding in a.capabilities) {
        var i :| 0 <= i < |q.required| && q.required[i] == c;
        assert Covers(a, q.required[i]);
      }
    }
  }

  /** Why this agent: it was forced; or preferred and suits; or else no preferred agent suits and it comes first of all
      that do. */
  ghost predicate Chosen(agents: seq<Agent>, a: Agent, source: Source, q: Query) {
    && a in agents && Suits(a, q)
    && match source
       case Forced => q.forced == Some(a.id)
       case Preferred => q.forced == None && q.preferred == Some(a.id)
       case Automatic =>
         && q.forced == None
         && (forall b :: b in agents && Suits(b, q) ==> Some(b.id) != q.preferred)
         && (forall b :: b in agents && Suits(b, q) && b != a ==> ComesFirst(a, b, q))
  }

  /** The route to an agent. */
  function RouteTo(a: Agent, limit: int, source: Source, q: Query): (r: Route)
    ensures r.agentId == a.id && r.provider == a.provider && r.model == a.model && r.difficulty == q.difficulty
    ensures r.tier == a.tier && r.source == source && r.maxConcurrency <= limit && r.maxConcurrency <= a.maxConcurrency
    ensures r.maxConcurrency == limit || r.maxConcurrency == a.maxConcurrency
  {
    Route(a.id, a.provider, a.model, q.difficulty, a.tier, if limit <= a.maxConcurrency then limit else a.maxConcurrency, source)
  }

  lemma WinsExactly(agents: seq<Agent>, a: Agent, source: Source, q: Query)
    requires Registered(agents)
    ensures Wins(Members(agents), a, source, q) <==> Chosen(agents, a, source, q)
  {
    hide Precedes, ComesFirst, Eligible, Suits, Declared;
    forall b | b in agents ensures Eligible(b, q) <==> Suits(b, q) { SuitsExactly(b, q); }
    forall b | a in agents && b in agents ensures Declared(a) && Declared(b) && (Precedes(a, b, q) <==> ComesFirst(a, b, q)) {
      PrecedesExactly(a, b, q);
    }
  }

  /** A task gets a route exactly if some agent is chosen, and it is the route to that agent. */
  lemma RouteExactly(agents: seq<Agent>, limit: int, q: Query)
    requires Registered(agents)
    ensures RouteTask(agents, limit, q) == None <==> forall a, source :: !Chosen(agents, a, source, q)
    ensures forall a, source :: Chosen(agents, a, source, q) ==> RouteTask(agents, limit, q) == Some(RouteTo(a, limit, source, q))
  {
    hide Registered, Wins, Chosen, Select;
    SelectIsWinner(agents, q);
    forall a, source ensures Wins(Members(agents), a, source, q) <==> Chosen(agents, a, source, q) {
      WinsExactly(agents, a, source, q);
    }
    forall a, source | Chosen(agents, a, source, q)
      ensures RouteTask(agents, limit, q) == Some(RouteTo(a, limit, source, q))
    {
      OneWinner(agents, q, a, source, Select(agents, q).value.0, Select(agents, q).value.1);
    }
  }

  /** There is no agent to be chosen exactly if the forced one is missing or does not suit, or without a forced one none
      suits. */
  lemma UnavailableExactly(agents: seq<Agent>, limit: int, q: Query)
    requires Registered(agents)
    ensures RouteTask(agents, limit, q) == None <==>
      forall a :: a in agents && Suits(a, q) ==> q.forced.Some? && q.forced.value != a.id
  {
    hide Registered, Suits, ComesFirst, First, Eligible;
    forall b | b in agents ensures Eligible(b, q) <==> Suits(b, q) { SuitsExactly(b, q); }
    if q.forced.Some? && Find(agents, q.forced.value).Some? {
      forall a | a in agents && a.id == q.forced.value ensures Some(a) == Find(agents, q.forced.value) {
        OneById(agents, a, Find(agents, q.forced.value).value);
      }
      if q.forced.value in q.forbidden { ForbiddenDoesNotSuit(Find(agents, q.forced.value).value, q); }
    }
  }

  lemma ForbiddenDoesNotSuit(a: Agent, q: Query)
    requires a.id in q.forbidden
    ensures !Suits(a, q)
  {
  }
}
