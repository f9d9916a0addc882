/** The approval evidence manifest: the security chain between a ChangeSet's
    source task and its approval gates, and the checks over it. */
module Evidence {
  import opened Graphs
  import opened Wrappers
  import opened Records
  import opened Scheduling

  // ---------------------------------------------------------------- paths

  type Links = seq<(int, int)>

  predicate IsPath(links: Links, p: seq<int>) {
    p != [] && forall i | 0 <= i < |p| - 1 :: (p[i], p[i + 1]) in links
  }

  ghost predicate Reaches(links: Links, a: int, b: int) {
    exists p :: IsPath(links, p) && p[0] == a && p[|p| - 1] == b
  }

  ghost predicate ReachedFrom(links: Links, seeds: set<int>, b: int) {
    exists a :: a in seeds && Reaches(links, a, b)
  }

  lemma ReachesSelf(links: Links, a: int)
    ensures Reaches(links, a, a)
  {
    assert IsPath(links, [a]);
  }

  lemma ReachesFurther(links: Links, a: int, b: int, c: int)
    requires Reaches(links, a, b) && (b, c) in links
    ensures Reaches(links, a, c)
  {
    var p :| IsPath(links, p) && p[0] == a && p[|p| - 1] == b;
    assert IsPath(links, p + [c]);
  }

  lemma {:induction false} ClosedUnderPaths(links: Links, s: set<int>, p: seq<int>)
    requires IsPath(links, p) && p[0] in s
    requires forall l | l in links && l.0 in s :: l.1 in s
    ensures p[|p| - 1] in s
  {
    if |p| > 1 {
      assert (p[0], p[1]) in links;
      assert p[1..][0] == p[1];
      forall i | 0 <= i < |p[1..]| - 1 ensures (p[1..][i], p[1..][i + 1]) in links { assert (p[i + 1], p[i + 2]) in links; }
      ClosedUnderPaths(links, s, p[1..]);
    }
  }

  /** What one more round along the links would add. */
  function Beyond(links: Links, reached: set<int>): set<int> {
    set l | l in links && l.0 in reached && l.1 !in reached :: l.1
  }

  /** Grows a set along the links until nothing is added. */
  method Closure(links: Links, seeds: set<int>) returns (reached: set<int>)
    ensures forall b :: b in reached <==> ReachedFrom(links, seeds, b)
  {
    reached := seeds;
    var added := Beyond(links, reached);
    ghost var universe := seeds + set l | l in links :: l.1;
    forall a | a in seeds ensures ReachedFrom(links, seeds, a) { ReachesSelf(links, a); }
    while exists b :: b in added
      invariant seeds <= reached <= universe && added == Beyond(links, reached)
      invariant forall b | b in reached :: ReachedFrom(links, seeds, b)
      decreases universe - reached
    {
      BeyondReached(links, seeds, reached);
      ghost var next :| next in added;
      assert next in universe - reached;
      reached := reached + added;
      added := Beyond(links, reached);
    }
    NothingBeyond(links, seeds, reached, added);
  }

  lemma NothingBeyond(links: Links, seeds: set<int>, reached: set<int>, added: set<int>)
    requires seeds <= reached && added == Beyond(links, reached) && !exists b :: b in added
    ensures forall b | ReachedFrom(links, seeds, b) :: b in reached
  {
    forall b | ReachedFrom(links, seeds, b) ensures b in reached {
      var a :| a in seeds && Reaches(links, a, b);
      var p :| IsPath(links, p) && p[0] == a && p[|p| - 1] == b;
      forall l | l in links && l.0 in reached ensures l.1 in reached {
        var next: int := l.1;
        assert next !in added;
        assert next in reached || next in added;
      }
      ClosedUnderPaths(links, reached, p);
    }
  }

  lemma BeyondReached(links: Links, seeds: set<int>, reached: set<int>)
    requires forall b | b in reached :: ReachedFrom(links, seeds, b)
    ensures forall b | b in Beyond(links, reached) :: ReachedFrom(links, seeds, b)
  {
    forall c | c in Beyond(links, reached) ensures ReachedFrom(links, seeds, c) {
      var l :| l in links && l.0 in reached && l.1 == c;
      var a :| a in seeds && Reaches(links, a, l.0);
      ReachesFurther(links, a, l.0, c);
    }
  }

  // ---------------------------------------------------------------- the chain

  function GraphLinks(edges: seq<Edge>): Links {
    seq(|edges|, i requires 0 <= i < |edges| => (edges[i].source, edges[i].target))
  }

  function Flipped(links: Links): Links {
    seq(|links|, i requires 0 <= i < |links| => (links[i].1, links[i].0))
  }

  function Gates(g: Graph): set<int> {
    set n | n in g.nodes && n.kind.Approval? :: n.id
  }

  /** On some path from the source task to an approval gate. */
  ghost predicate OnChain(g: Graph, source: int, n: int) {
    exists p :: IsPath(GraphLinks(g.edges), p) && p[0] == source && p[|p| - 1] in Gates(g) && n in p
  }

  lemma {:induction false} FlippedPath(links: Links, p: seq<int>)
    requires IsPath(Flipped(links), p)
    ensures IsPath(links, Backwards(p)) && Backwards(p)[0] == p[|p| - 1] && Backwards(p)[|p| - 1] == p[0]
  {
    var q := Backwards(p);
    forall i | 0 <= i < |q| - 1 ensures (q[i], q[i + 1]) in links {
      var l := (p[|p| - 2 - i], p[|p| - 1 - i]);
      assert l in Flipped(links);
      var k :| 0 <= k < |links| && Flipped(links)[k] == l;
      assert links[k] == (q[i], q[i + 1]);
    }
  }

  function Backwards(p: seq<int>): (q: seq<int>)
    ensures |q| == |p| && forall i | 0 <= i < |p| :: q[i] == p[|p| - 1 - i]
  {
    seq(|p|, i requires 0 <= i < |p| => p[|p| - 1 - i])
  }

  lemma FlippedReaches(links: Links, a: int, b: int)
    ensures Reaches(Flipped(links), a, b) <==> Reaches(links, b, a)
  {
    if Reaches(Flipped(links), a, b) {
      var p :| IsPath(Flipped(links), p) && p[0] == a && p[|p| - 1] == b;
      FlippedPath(links, p);
    }
    if Reaches(links, b, a) {
      var p :| IsPath(links, p) && p[0] == b && p[|p| - 1] == a;
      assert Flipped(Flipped(links)) == links;
      FlippedPath(Flipped(links), p);
    }
  }

  /** Forward from the source and backward from the gates, taken together, is
      lying on a path between them. */
  lemma ChainIsPaths(g: Graph, source: int, n: int)
    ensures OnChain(g, source, n) <==>
      Reaches(GraphLinks(g.edges), source, n) && ReachedFrom(Flipped(GraphLinks(g.edges)), Gates(g), n)
  {
    var links := GraphLinks(g.edges);
    if OnChain(g, source, n) {
      var p :| IsPath(links, p) && p[0] == source && p[|p| - 1] in Gates(g) && n in p;
      var i :| 0 <= i < |p| && p[i] == n;
      assert IsPath(links, p[..i + 1]);
      assert IsPath(links, p[i..]);
      assert Reaches(links, n, p[|p| - 1]);
      FlippedReaches(links, p[|p| - 1], n);
    }
    if Reaches(links, source, n) && ReachedFrom(Flipped(links), Gates(g), n) {
      var p :| IsPath(links, p) && p[0] == source && p[|p| - 1] == n;
      var a :| a in Gates(g) && Reaches(Flipped(links), a, n);
      FlippedReaches(links, a, n);
      var q :| IsPath(links, q) && q[0] == n && q[|q| - 1] == a;
      var whole := p + q[1..];
      assert IsPath(links, whole) && whole[0] == source && whole[|whole| - 1] == a && whole[|p| - 1] == n;
    }
  }

  // ---------------------------------------------------------------- what the manifest is built from

  /** A decoded output artifact. */
  datatype Content = NotJson | OtherJson | Report(changeSet: Option<int>, risk: Option<Risk>)

  /** `artifact` is absent, fails verification, or holds verified content. */
  datatype Output = NoOutput | Unverified | Verified(content: Content)

  datatype RunRecord = RunRecord(nodeRun: NodeRun, status: NodeStatus, outcome: Option<Outcome>, output: Output)

  datatype Source = Source(changeSet: int, nodeRun: NodeRun, floor: Option<Risk>, hint: Risk)

  datatype Manifest = Manifest(entries: seq<RunRecord>, risk: Risk)

  function Level(r: Risk): nat {
    match r
    case L0 => 0 case L1 => 1 case L2 => 2 case L3 => 3 case L4 => 4
  }

  function Higher(a: Risk, b: Risk): Risk {
    if Level(a) < Level(b) then b else a
  }

  predicate Security(k: NodeKind) {
    k.PatchGuard? || k.CommandGuard? || k.Test? || k.RiskClassifier?
  }

  function KindOf(g: Graph, n: int): NodeKind {
    FindNode(g.nodes, n).kind
  }

  /** Runs that are evidence: those of the chain's nodes, gates aside, and of the
      source node only the run the ChangeSet came from. */
  predicate Selected(chain: set<int>, g: Graph, s: Source, r: RunRecord) {
    r.nodeRun.node in chain && r.nodeRun.node !in Gates(g) && (r.nodeRun == s.nodeRun || r.nodeRun.node != s.nodeRun.node)
  }

  /** What one evidence run must show. */
  predicate Acceptable(g: Graph, s: Source, r: RunRecord) {
    var kind := KindOf(g, r.nodeRun.node);
    && !r.output.Unverified?
    && (Security(kind) ==>
          && r.output.Verified? && r.output.content.Report? && r.output.content.changeSet == Some(s.changeSet)
          && r.status.Completed? && r.outcome == Some(Outcome.Success))
    && (kind.RiskClassifier? ==> r.output.content.risk.Some?)
  }

  function Reported(g: Graph, r: RunRecord): Risk
    requires KindOf(g, r.nodeRun.node).RiskClassifier? ==> r.output.Verified? && r.output.content.Report? && r.output.content.risk.Some?
  {
    if KindOf(g, r.nodeRun.node).RiskClassifier? then r.output.content.risk.value else L0
  }

  /** The levels in their order. */
  const RISKS := [L0, L1, L2, L3, L4]

  predicate AtLeast(a: Risk, b: Risk) {
    exists i, j | 0 <= i <= j < |RISKS| :: RISKS[i] == b && RISKS[j] == a
  }

  lemma RiskOrder(a: Risk, b: Risk)
    ensures Level(a) >= Level(b) <==> AtLeast(a, b)
    ensures Higher(a, b) == if AtLeast(a, b) then a else b
  {
    var i := Level(b);
    var j := Level(a);
    assert RISKS[i] == b && RISKS[j] == a;
    if i <= j { assert AtLeast(a, b); }
  }

  // ---------------------------------------------------------------- building

  ghost predicate IsChain(g: Graph, source: int, chain: set<int>) {
    forall n :: n in chain <==> OnChain(g, source, n)
  }

  method Chain(g: Graph, source: int) returns (chain: set<int>)
    ensures IsChain(g, source, chain)
  {
    var links := GraphLinks(g.edges);
    var forward := Closure(links, {source});
    var backward := Closure(Flipped(links), Gates(g));
    chain := forward * backward;
    forall n ensures n in chain <==> OnChain(g, source, n) {
      ChainIsPaths(g, source, n);
      assert ReachedFrom(links, {source}, n) <==> Reaches(links, source, n);
    }
  }

  /** Every guard, test and risk node of the chain has a selected run. */
  predicate Covered(g: Graph, s: Source, chain: set<int>, runs: seq<RunRecord>) {
    forall n | n in g.nodes && n.id in chain && n.id !in Gates(g) && Security(n.kind) ::
      exists r | r in runs :: Selected(chain, g, s, r) && r.nodeRun.node == n.id
  }

  /** The manifest, or a refusal. */
  method BuildManifest(g: Graph, s: Source, runs: seq<RunRecord>) returns (m: Option<Manifest>)
    ensures m.Some? <==> exists chain :: IsChain(g, s.nodeRun.node, chain) && Admissible(g, s, chain, runs)
    ensures m.Some? ==> forall chain | IsChain(g, s.nodeRun.node, chain) :: Documents(g, s, chain, runs, m.value)
  {
    var chain := Chain(g, s.nodeRun.node);
    forall other | IsChain(g, s.nodeRun.node, other) ensures other == chain {
      assert forall n :: n in other <==> n in chain;
    }
    var known := exists r | r in runs :: r.nodeRun == s.nodeRun;
    if !known || s.nodeRun.node !in chain || Gates(g) * chain == {} || !Covered(g, s, chain, runs) {
      assert !Admissible(g, s, chain, runs);
      return None;
    }
    var entries: seq<RunRecord> := [];
    var risk := L0;
    for i := 0 to |runs|
      invariant forall r | r in runs[..i] && Selected(chain, g, s, r) :: Known(g, r) && Acceptable(g, s, r) && Level(risk) >= Level(Reported(g, r))
      invariant forall r :: r in entries <==> r in runs[..i] && Selected(chain, g, s, r)
      invariant risk == L0 || exists r :: r in entries && KindOf(g, r.nodeRun.node).RiskClassifier? && Acceptable(g, s, r) && Reported(g, r) == risk
    {
      var r := runs[i];
      assert runs[..i + 1] == runs[..i] + [r];
      if Selected(chain, g, s, r) {
        if !Known(g, r) || !Acceptable(g, s, r) {
          assert r in runs;
          assert !Admissible(g, s, chain, runs);
          return None;
        }
        risk := Higher(risk, Reported(g, r));
        entries := entries + [r];
      }
    }
    assert runs[..|runs|] == runs;
    if FindSource(g, s).None? { return None; }
    risk := Higher(Higher(risk, if s.floor.Some? then s.floor.value else L0), s.hint);
    m := Some(Manifest(entries, risk));
  }

  predicate Known(g: Graph, r: RunRecord) {
    exists n | n in g.nodes :: n.id == r.nodeRun.node
  }

  function FindSource(g: Graph, s: Source): Option<int> {
    if exists n | n in g.nodes :: n.id == s.nodeRun.node then Some(s.nodeRun.node) else None
  }

  ghost predicate Admissible(g: Graph, s: Source, chain: set<int>, runs: seq<RunRecord>) {
    && (exists r | r in runs :: r.nodeRun == s.nodeRun)
    && s.nodeRun.node in chain && Gates(g) * chain != {} && Covered(g, s, chain, runs)
    && (forall r | r in runs && Selected(chain, g, s, r) :: Known(g, r) && Acceptable(g, s, r))
    && FindSource(g, s).Some?
  }

  /** What a built manifest stands for. */
  ghost predicate Documents(g: Graph, s: Source, chain: set<int>, runs: seq<RunRecord>, m: Manifest) {
    && (forall r :: r in m.entries <==> r in runs && Selected(chain, g, s, r))
    && (forall r | r in m.entries :: Acceptable(g, s, r) && Level(m.risk) >= Level(Reported(g, r)))
    && Level(m.risk) >= Level(s.hint) && (s.floor.Some? ==> Level(m.risk) >= Level(s.floor.value))
    && (m.risk == L0 || m.risk == s.hint || Some(m.risk) == s.floor
        || exists r :: r in m.entries && Acceptable(g, s, r) && KindOf(g, r.nodeRun.node).RiskClassifier? && Reported(g, r) == m.risk)
  }

  /** If a manifest was built, every guard, test and risk node on every path from
      the source to a gate has a run, and only runs that completed with success
      and carry evidence bound to the ChangeSet. */
  lemma ManifestVouches(g: Graph, s: Source, chain: set<int>, runs: seq<RunRecord>, p: seq<int>, n: Node, r: RunRecord)
    requires WellFormed(g) && IsChain(g, s.nodeRun.node, chain) && Admissible(g, s, chain, runs)
    requires IsPath(GraphLinks(g.edges), p) && p[0] == s.nodeRun.node && p[|p| - 1] in Gates(g)
    requires n in g.nodes && n.id in p && n.kind in {NodeKind.PatchGuard, NodeKind.CommandGuard, NodeKind.Test, NodeKind.RiskClassifier}
    ensures exists q | q in runs :: q.nodeRun.node == n.id
    ensures r in runs && r.nodeRun.node == n.id && (n.id == s.nodeRun.node ==> r.nodeRun == s.nodeRun) ==>
      r.status.Completed? && r.outcome == Some(Outcome.Success)
      && r.output.Verified? && r.output.content.Report? && r.output.content.changeSet == Some(s.changeSet)
  {
    assert OnChain(g, s.nodeRun.node, n.id);
    UniqueKind(g, n);
    assert n.id !in Gates(g);
  }

  /** The risk of a built manifest is at least the source's hint and floor and
      every risk a classifier on a path to a gate reported, and it is one of
      these, or the lowest. */
  lemma ManifestRisk(g: Graph, s: Source, chain: set<int>, runs: seq<RunRecord>, m: Manifest)
    requires WellFormed(g) && IsChain(g, s.nodeRun.node, chain) && Admissible(g, s, chain, runs) && Documents(g, s, chain, runs, m)
    ensures AtLeast(m.risk, s.hint) && (s.floor.Some? ==> AtLeast(m.risk, s.floor.value))
    ensures forall r, k | Reports(g, s, chain, runs, r, k) :: AtLeast(m.risk, k)
    ensures m.risk == L0 || m.risk == s.hint || Some(m.risk) == s.floor || exists r :: Reports(g, s, chain, runs, r, m.risk)
  {
    RiskOrder(m.risk, s.hint);
    if s.floor.Some? { RiskOrder(m.risk, s.floor.value); }
    forall r, k | Reports(g, s, chain, runs, r, k) ensures AtLeast(m.risk, k) {
      ReporterKind(g, s, chain, runs, r, k);
      RiskOrder(m.risk, k);
    }
    if !(m.risk == L0 || m.risk == s.hint || Some(m.risk) == s.floor) {
      var r :| r in m.entries && Acceptable(g, s, r) && KindOf(g, r.nodeRun.node).RiskClassifier? && Reported(g, r) == m.risk;
      KnownNode(g, r);
      assert Reports(g, s, chain, runs, r, m.risk);
    }
  }

  /** A run of a risk classifier on the chain, of the source node only the run the
      ChangeSet came from, that reported this risk. */
  ghost predicate Reports(g: Graph, s: Source, chain: set<int>, runs: seq<RunRecord>, r: RunRecord, k: Risk) {
    && r in runs && r.nodeRun.node in chain && (r.nodeRun.node == s.nodeRun.node ==> r.nodeRun == s.nodeRun)
    && (exists n :: n in g.nodes && n.id == r.nodeRun.node && n.kind == NodeKind.RiskClassifier)
    && r.output.Verified? && r.output.content.Report? && r.output.content.risk == Some(k)
  }

  lemma ReporterKind(g: Graph, s: Source, chain: set<int>, runs: seq<RunRecord>, r: RunRecord, k: Risk)
    requires WellFormed(g) && Reports(g, s, chain, runs, r, k)
    ensures KindOf(g, r.nodeRun.node).RiskClassifier? && Selected(chain, g, s, r) && Reported(g, r) == k
  {
    var n :| n in g.nodes && n.id == r.nodeRun.node && n.kind == NodeKind.RiskClassifier;
    UniqueKind(g, n);
  }

  lemma KnownNode(g: Graph, r: RunRecord)
    requires WellFormed(g) && KindOf(g, r.nodeRun.node).RiskClassifier?
    ensures exists n :: n in g.nodes && n.id == r.nodeRun.node && n.kind == NodeKind.RiskClassifier
  {
    FoundListed(g.nodes, r.nodeRun.node);
  }

  /** A lookup that does not answer with its default answers with a listed node. */
  lemma {:induction false} FoundListed(nodes: seq<Node>, n: int)
    ensures FindNode(nodes, n) == Node(n, NodeKind.If, false) || (FindNode(nodes, n) in nodes && FindNode(nodes, n).id == n)
  {
    if nodes != [] && nodes[0].id != n { FoundListed(nodes[1..], n); }
  }

  /** The entries are the runs of the chain's nodes, gates aside, and of the source
      node only the run the ChangeSet came from; none has an unverified output. */
  lemma ManifestLists(g: Graph, s: Source, chain: set<int>, runs: seq<RunRecord>, m: Manifest)
    requires Documents(g, s, chain, runs, m)
    ensures forall r :: r in m.entries <==>
      (r in runs && r.nodeRun.node in chain && (r.nodeRun.node == s.nodeRun.node ==> r.nodeRun == s.nodeRun)
       && !exists n :: n in g.nodes && n.id == r.nodeRun.node && n.kind == NodeKind.Approval)
    ensures forall r | r in m.entries :: r.output != Unverified
  {
  }

  /** The node ids of these kinds. */
  predicate OfKind(g: Graph, n: int, kinds: set<NodeKind>) {
    exists m :: m in g.nodes && m.id == n && m.kind in kinds
  }

  predicate Compiled(g: Graph, n: int) {
    exists m :: m in g.nodes && m.id == n
  }

  predicate Bears(s: Source, r: RunRecord) {
    && r.status == NodeStatus.Completed && r.outcome == Some(Outcome.Success)
    && r.output.Verified? && r.output.content.Report? && r.output.content.changeSet == Some(s.changeSet)
  }

  const SECURITY := {NodeKind.PatchGuard, NodeKind.CommandGuard, NodeKind.Test, NodeKind.RiskClassifier}

  predicate EvidenceOf(g: Graph, s: Source, chain: set<int>, r: RunRecord) {
    && r.nodeRun.node in chain && (r.nodeRun.node == s.nodeRun.node ==> r.nodeRun == s.nodeRun)
    && !OfKind(g, r.nodeRun.node, {NodeKind.Approval})
  }

  /** When a manifest can be built, in terms of nodes and runs: the source's run is
      there and its node lies on the chain, the chain has a gate, every guard,
      test and risk node of it has a run that counts, and every run that counts
      is of a known node, has no unverified output, and if its node is one of
      those bears its evidence, a classifier's with a risk. */
  lemma ManifestAdmits(g: Graph, s: Source, chain: set<int>, runs: seq<RunRecord>)
    requires WellFormed(g)
    ensures Admissible(g, s, chain, runs) <==>
      && (exists r :: r in runs && r.nodeRun == s.nodeRun)
      && s.nodeRun.node in chain && Compiled(g, s.nodeRun.node) && (exists n :: n in chain && OfKind(g, n, {NodeKind.Approval}))
      && (forall n | n in chain && OfKind(g, n, SECURITY) :: exists r :: r in runs && r.nodeRun.node == n && EvidenceOf(g, s, chain, r))
      && (forall r | r in runs && EvidenceOf(g, s, chain, r) ::
            && Compiled(g, r.nodeRun.node) && r.output != Unverified
            && (OfKind(g, r.nodeRun.node, SECURITY) ==> Bears(s, r))
            && (OfKind(g, r.nodeRun.node, {NodeKind.RiskClassifier}) ==> r.output.Verified? && r.output.content.Report? && r.output.content.risk.Some?))
  {
    hide WellFormed;
    KindsAre(g);
    assert (exists n :: n in chain && OfKind(g, n, {NodeKind.Approval})) <==> Gates(g) * chain != {} by { GatesMeet(g, chain); }
    CoveredMeans(g, s, chain, runs);
    forall r ensures Selected(chain, g, s, r) <==> EvidenceOf(g, s, chain, r) { GatesAre(g, r.nodeRun.node); }
  }

  lemma GatesAre(g: Graph, n: int)
    ensures n in Gates(g) <==> OfKind(g, n, {NodeKind.Approval})
  {
  }

  lemma GatesMeet(g: Graph, chain: set<int>)
    ensures (exists n :: n in chain && OfKind(g, n, {NodeKind.Approval})) <==> Gates(g) * chain != {}
  {
    if n :| n in chain && OfKind(g, n, {NodeKind.Approval}) {
      GatesAre(g, n);
      assert n in Gates(g) * chain;
    }
    if Gates(g) * chain != {} {
      var n :| n in Gates(g) * chain;
      GatesAre(g, n);
    }
  }

  /** The kind looked up is the kind of the node listed under the id. */
  lemma KindsAre(g: Graph)
    requires WellFormed(g)
    ensures forall n | Compiled(g, n) :: OfKind(g, n, {KindOf(g, n)})
    ensures forall n :: OfKind(g, n, SECURITY) <==> Security(KindOf(g, n))
    ensures forall n :: OfKind(g, n, {NodeKind.RiskClassifier}) <==> KindOf(g, n).RiskClassifier?
  {
    forall n
      ensures Compiled(g, n) ==> OfKind(g, n, {KindOf(g, n)})
      ensures OfKind(g, n, SECURITY) <==> Security(KindOf(g, n))
      ensures OfKind(g, n, {NodeKind.RiskClassifier}) <==> KindOf(g, n).RiskClassifier?
    {
      FoundListed(g.nodes, n);
      if m :| m in g.nodes && m.id == n { UniqueKind(g, m); }
    }
  }

  lemma CoveredMeans(g: Graph, s: Source, chain: set<int>, runs: seq<RunRecord>)
    requires WellFormed(g)
    ensures Covered(g, s, chain, runs) <==>
      forall n | n in chain && OfKind(g, n, SECURITY) :: exists r :: r in runs && r.nodeRun.node == n && EvidenceOf(g, s, chain, r)
  {
    forall r ensures Selected(chain, g, s, r) <==> EvidenceOf(g, s, chain, r) { GatesAre(g, r.nodeRun.node); }
    if Covered(g, s, chain, runs) {
      forall n | n in chain && OfKind(g, n, SECURITY) ensures exists r :: r in runs && r.nodeRun.node == n && EvidenceOf(g, s, chain, r) {
        var m :| m in g.nodes && m.id == n && m.kind in SECURITY;
        NotAGate(g, m);
        var r :| r in runs && Selected(chain, g, s, r) && r.nodeRun.node == m.id;
        assert EvidenceOf(g, s, chain, r);
      }
    }
    if forall n | n in chain && OfKind(g, n, SECURITY) :: exists r :: r in runs && r.nodeRun.node == n && EvidenceOf(g, s, chain, r) {
      forall m | m in g.nodes && m.id in chain && m.id !in Gates(g) && Security(m.kind)
        ensures exists r | r in runs :: Selected(chain, g, s, r) && r.nodeRun.node == m.id
      {
        assert OfKind(g, m.id, SECURITY);
        var r :| r in runs && r.nodeRun.node == m.id && EvidenceOf(g, s, chain, r);
        assert Selected(chain, g, s, r);
      }
    }
  }

  lemma NotAGate(g: Graph, m: Node)
    requires WellFormed(g) && m in g.nodes && m.kind in SECURITY
    ensures m.id !in Gates(g)
  {
    UniqueKind(g, m);
  }

  lemma UniqueKind(g: Graph, n: Node)
    requires WellFormed(g) && n in g.nodes
    ensures KindOf(g, n.id) == n.kind
    ensures forall m | m in g.nodes && m.id == n.id :: m == n
  {
    var i :| 0 <= i < |g.nodes| && g.nodes[i] == n;
    FoundAt(g.nodes, i);
  }
}
