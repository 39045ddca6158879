/** The injection graph that `scan` walks: which services a service's constructor asks for. */
module InjectionGraph {

  datatype Service = Service(name: string)

  /** The reflected type of one constructor parameter: a class, or something that is not a function. */
  datatype Param = Class(service: Service) | NotAFunction

  /** `platform` holds the services that carry a DEFAULT_DEPLOYMENT_ID. */
  datatype Graph = Graph(params: map<Service, seq<Param>>, platform: set<Service>)

  /** getInjectionMetadata: the parameters of an undecorated class are the empty list. */
  function Params(g: Graph, s: Service): seq<Param> {
    if s in g.params then g.params[s] else []
  }

  predicate HasInjection(g: Graph, s: Service) {
    Params(g, s) != []
  }

  /** The dependencies that are booted: every class parameter but a platform service without injection. */
  predicate Booted(g: Graph, s: Service) {
    HasInjection(g, s) || s !in g.platform
  }

  predicate Edge(g: Graph, a: Service, b: Service) {
    Class(b) in Params(g, a)
  }

  ghost predicate Walk(g: Graph, p: seq<Service>) {
    forall i | 0 <= i < |p| - 1 :: Edge(g, p[i], p[i + 1])
  }

  ghost predicate Connects(g: Graph, p: seq<Service>, a: Service, b: Service) {
    |p| >= 2 && p[0] == a && p[|p| - 1] == b && Walk(g, p)
  }

  /** b can be reached from a in one step or more. */
  ghost predicate Reaches(g: Graph, a: Service, b: Service) {
    exists p :: Connects(g, p, a, b)
  }

  ghost predicate Acyclic(g: Graph) {
    forall s :: !Reaches(g, s, s)
  }

  lemma EdgeReaches(g: Graph, a: Service, b: Service)
    requires Edge(g, a, b)
    ensures Reaches(g, a, b)
  {
    assert Connects(g, [a, b], a, b);
  }

  lemma ReachesTransitive(g: Graph, a: Service, b: Service, c: Service)
    requires Reaches(g, a, b) && Reaches(g, b, c)
    ensures Reaches(g, a, c)
  {
    var p :| Connects(g, p, a, b);
    var q :| Connects(g, q, b, c);
    var r := p + q[1..];
    forall i | 0 <= i < |r| - 1 ensures Edge(g, r[i], r[i + 1]) {
      if i >= |p| - 1 {
        assert r[i] == q[i - (|p| - 1)] && r[i + 1] == q[i - (|p| - 1) + 1];
      }
    }
    assert Connects(g, r, a, c);
  }

  ghost function Targets(g: Graph): set<Service> {
    set k, p | k in g.params && p in g.params[k] && p.Class? :: p.service
  }

  ghost function ReachSet(g: Graph, s: Service): set<Service> {
    set x | x in Targets(g) && Reaches(g, s, x)
  }

  /** How many services s reaches: the measure that makes `scan` terminate. */
  ghost function Rank(g: Graph, s: Service): nat {
    |ReachSet(g, s)|
  }

  lemma StrictSubsetSmaller<T>(a: set<T>, b: set<T>)
    requires a < b
    ensures |a| < |b|
  {
    var x :| x in b && x !in a;
    assert |b - a| > 0;
    assert a + (b - a) == b;
  }

  lemma RankDecreases(g: Graph, a: Service, b: Service)
    requires Acyclic(g) && Edge(g, a, b)
    ensures Rank(g, b) < Rank(g, a)
  {
    EdgeReaches(g, a, b);
    forall x | x in ReachSet(g, b) ensures x in ReachSet(g, a) {
      ReachesTransitive(g, a, b, x);
    }
    assert a in g.params && Class(b) in g.params[a];
    assert b in ReachSet(g, a) && b !in ReachSet(g, b);
    StrictSubsetSmaller(ReachSet(g, b), ReachSet(g, a));
  }
}
