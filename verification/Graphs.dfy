/** Compiled graphs and the topological order the run scheduler walks.
    Node ids are integers; their order stands for the text order of the ids. */
module Graphs {

  datatype NodeKind =
    | Input | AgentTask | ContextBuilder | PatchGuard | CommandGuard | Test
    | RiskClassifier | Approval | MergePatch | Output | If

  datatype Condition = OnSuccess | OnFailure | OnMatched | OnNotMatched | OnApproved | OnRejected

  datatype Node = Node(id: int, kind: NodeKind, requiresWrite: bool)

  datatype Edge = Edge(source: int, target: int, cond: Condition)

  datatype Graph = Graph(nodes: seq<Node>, edges: seq<Edge>)

  ghost function Ids(g: Graph): set<int> {
    set n | n in g.nodes :: n.id
  }

  ghost function Links(g: Graph): set<(int, int)> {
    set e | e in g.edges :: (e.source, e.target)
  }

  /** Unique node ids and known edge endpoints, as the compiler delivers them. */
  ghost predicate WellFormed(g: Graph) {
    && (forall i, j | 0 <= i < j < |g.nodes| :: g.nodes[i].id != g.nodes[j].id)
    && (forall e | e in g.edges :: e.source in Ids(g) && e.target in Ids(g))
  }

  // ---------------------------------------------------------------- what an order is

  /** `order` lists every id once and every link points forward in it. */
  ghost predicate IsOrder(ids: set<int>, links: set<(int, int)>, order: seq<int>) {
    && Distinct(order)
    && (set x | x in order) == ids
    && Forward(links, order)
  }

  ghost predicate Distinct(s: seq<int>) {
    forall i, j | 0 <= i < j < |s| :: s[i] != s[j]
  }

  ghost predicate Forward(links: set<(int, int)>, order: seq<int>) {
    forall p, j | 0 <= j < |order| && (p, order[j]) in links :: p in order[..j]
  }

  ghost predicate Acyclic(ids: set<int>, links: set<(int, int)>) {
    exists order :: IsOrder(ids, links, order)
  }

  // ---------------------------------------------------------------- the order as a function of two sets

  ghost predicate StrictlySorted(s: seq<int>) {
    forall i, j | 0 <= i < j < |s| :: s[i] < s[j]
  }

  lemma {:induction false} LeastExists(s: set<int>)
    requires exists x :: x in s
    ensures exists m :: m in s && forall x | x in s :: m <= x
  {
    var m :| m in s;
    var rest := s - {m};
    if exists x :: x in rest {
      LeastExists(rest);
      var k :| k in rest && forall x | x in rest :: k <= x;
      var low := if k < m then k else m;
      forall x | x in s ensures low <= x { assert x == m || x in rest; }
      assert low in s;
    } else {
      forall x | x in s ensures m <= x { assert x == m || x in rest; }
    }
  }

  ghost function Listed(s: set<int>): (r: seq<int>)
    ensures StrictlySorted(r)
    ensures forall x :: x in r <==> x in s
  {
    if !exists x :: x in s then [] else
      LeastExists(s);
      var m :| m in s && forall x | x in s :: m <= x;
      [m] + Listed(s - {m})
  }

  /** A sorted list of a nonempty set starts with its least element, and its
      tail lists the rest. */
  lemma SortedSplit(s: set<int>, r: seq<int>)
    requires StrictlySorted(r) && r != [] && forall x :: x in r <==> x in s
    ensures r[0] in s && forall x | x in s :: r[0] <= x
    ensures forall x :: x in r[1..] <==> x in s - {r[0]}
  {
    assert r[0] in r;
    forall x ensures x in r[1..] <==> x in s - {r[0]} {
      if x in s - {r[0]} { assert x in r; }
    }
  }

  lemma SomeListed(l: seq<int>)
    requires l != []
    ensures exists x :: x in l
  {
    var x := l[0];
    assert x in l;
  }

  lemma {:induction false} ListedUnique(s: set<int>, r: seq<int>)
    requires StrictlySorted(r)
    requires forall x :: x in r <==> x in s
    ensures r == Listed(s)
    decreases |r|
  {
    hide Listed;
    var l := Listed(s);
    if r == [] {
      if l != [] { SomeListed(l); }
    } else {
      SortedSplit(s, r);
      ListedTail(s);
      SortedSplit(s, l);
      ListedUnique(s - {r[0]}, r[1..]);
      assert r == [r[0]] + r[1..];
    }
  }

  lemma ListedTail(s: set<int>)
    requires exists x :: x in s
    ensures var l := Listed(s); l != [] && l == [l[0]] + Listed(s - {l[0]})
  {
    LeastExists(s);
  }

  /** Targets of `c` whose predecessors have all been listed once `c` is. */
  ghost function Released(ids: set<int>, links: set<(int, int)>, c: int, done: seq<int>): set<int> {
    set t | t in ids && (c, t) in links && PredsIn(links, t, done + [c])
  }

  ghost predicate PredsIn(links: set<(int, int)>, t: int, done: seq<int>) {
    forall p | (p, t) in links :: p in done
  }

  /** The state of the queue walk: what is queued or listed is distinct, and
      those are exactly the ids whose predecessors have all been listed. */
  ghost predicate Walk(ids: set<int>, links: set<(int, int)>, queue: seq<int>, done: seq<int>) {
    && Distinct(done + queue)
    && Forward(links, done)
    && (forall x :: x in done + queue <==> x in ids && PredsIn(links, x, done))
  }

  lemma WalkStep(ids: set<int>, links: set<(int, int)>, queue: seq<int>, done: seq<int>)
    requires Walk(ids, links, queue, done) && queue != []
    ensures Walk(ids, links, queue[1..] + Listed(Released(ids, links, queue[0], done)), done + [queue[0]])
    ensures |done| < |ids|
  {
    var c := queue[0];
    var added := Listed(Released(ids, links, c, done));
    var d := done + [c];
    var q := queue[1..] + added;
    assert c in done + queue;
    assert done + queue == d + queue[1..];
    assert d + q == (done + queue) + added;
    forall i | 0 <= i < |done| ensures done[i] != c {
      assert (done + queue)[i] == done[i] && (done + queue)[|done|] == c;
    }
    forall x | x in added ensures x !in done + queue {
      assert (c, x) in links && !PredsIn(links, x, done);
    }
    assert Distinct(d + q) by {
      forall i, j | 0 <= i < j < |d + q| ensures (d + q)[i] != (d + q)[j] {
        if j >= |done + queue| { assert (d + q)[j] in added; if i < |done + queue| { assert (d + q)[i] in done + queue; } }
      }
    }
    assert Forward(links, d) by {
      forall p, j | 0 <= j < |d| && (p, d[j]) in links ensures p in d[..j] {
        if j < |done| { assert d[..j] == done[..j]; assert d[j] == done[j]; }
        else { assert d[..j] == done; assert PredsIn(links, c, done); }
      }
    }
    forall x ensures x in d + q <==> x in ids && PredsIn(links, x, d) {
      if x in d + q {
        if x in done + queue { assert PredsIn(links, x, done); } else { assert x in added; }
      }
      if x in ids && PredsIn(links, x, d) && x !in done + queue {
        assert !PredsIn(links, x, done);
        var p :| (p, x) in links && p !in done;
        assert p in d; assert p == c;
        assert x in Released(ids, links, c, done);
      }
    }
    assert Distinct(d) by {
      forall i, j | 0 <= i < j < |d| ensures d[i] != d[j] { assert (d + q)[i] == d[i] && (d + q)[j] == d[j]; }
    }
    DistinctWithin(d, ids);
  }

  lemma DistinctWithin(s: seq<int>, ids: set<int>)
    requires Distinct(s) && forall x | x in s :: x in ids
    ensures |s| <= |ids|
  {
    if s != [] {
      var x := s[|s| - 1];
      var init := s[..|s| - 1];
      assert x !in init;
      forall y | y in init ensures y in ids - {x} { assert y in s; }
      assert x in s;
      DistinctWithin(init, ids - {x});
    }
  }

  lemma WalkFront(ids: set<int>, links: set<(int, int)>, queue: seq<int>, done: seq<int>)
    requires Walk(ids, links, queue, done) && queue != []
    ensures queue[0] in ids && queue[0] !in done
  {
    assert (done + queue)[|done|] == queue[0];
    assert queue[0] in done + queue;
    forall i | 0 <= i < |done| ensures done[i] != queue[0] { assert (done + queue)[i] == done[i]; }
  }

  ghost function Walked(ids: set<int>, links: set<(int, int)>, queue: seq<int>, done: seq<int>): (r: seq<int>)
    requires Walk(ids, links, queue, done)
    ensures Walk(ids, links, [], r)
    decreases |ids| - |done|
  {
    if queue == [] then done else
      WalkStep(ids, links, queue, done);
      Walked(ids, links, queue[1..] + Listed(Released(ids, links, queue[0], done)), done + [queue[0]])
  }

  ghost function Roots(ids: set<int>, links: set<(int, int)>): set<int> {
    set x | x in ids && PredsIn(links, x, [])
  }

  lemma WalkStart(ids: set<int>, links: set<(int, int)>)
    ensures Walk(ids, links, Listed(Roots(ids, links)), [])
  {
    var q := Listed(Roots(ids, links));
    assert [] + q == q;
  }

  /** The order `_topological_order` computes, from the id set and link set alone. */
  ghost function Order(ids: set<int>, links: set<(int, int)>): seq<int> {
    WalkStart(ids, links);
    Walked(ids, links, Listed(Roots(ids, links)), [])
  }

  ghost function GraphOrder(g: Graph): seq<int> {
    Order(Ids(g), Links(g))
  }

  // ---------------------------------------------------------------- which order it is

  /** One past the place of the last predecessor of `x` in the list; zero for a
      root. A node is released at that moment. */
  ghost function ReleasedAt(links: set<(int, int)>, s: seq<int>, x: int): nat {
    if s == [] then 0
    else if (s[|s| - 1], x) in links then |s|
    else ReleasedAt(links, s[..|s| - 1], x)
  }

  predicate Sooner(i: nat, x: int, j: nat, y: int) {
    i < j || (i == j && x < y)
  }

  /** Nodes stand in the order of their release, those released together by id. */
  ghost predicate ByRelease(links: set<(int, int)>, done: seq<int>, s: seq<int>) {
    forall i, j | 0 <= i < j < |s| :: Sooner(ReleasedAt(links, done, s[i]), s[i], ReleasedAt(links, done, s[j]), s[j])
  }

  lemma {:induction false} ReleaseBounded(links: set<(int, int)>, s: seq<int>, x: int)
    ensures ReleasedAt(links, s, x) <= |s|
    ensures (forall i | 0 <= i < |s| :: (s[i], x) !in links) ==> ReleasedAt(links, s, x) == 0
  {
    if s != [] { ReleaseBounded(links, s[..|s| - 1], x); }
  }

  /** Listing the front of the queue changes no release; what it releases is
      released now. */
  lemma ReleaseMoves(ids: set<int>, links: set<(int, int)>, queue: seq<int>, done: seq<int>)
    requires Walk(ids, links, queue, done) && queue != []
    ensures var d := done + [queue[0]];
      && (forall x | x in done + queue :: ReleasedAt(links, d, x) == ReleasedAt(links, done, x) <= |done|)
      && (forall x | x in Listed(Released(ids, links, queue[0], done)) :: ReleasedAt(links, d, x) == |d|)
  {
    var c := queue[0];
    var d := done + [c];
    assert d[..|d| - 1] == done;
    WalkFront(ids, links, queue, done);
    forall x | x in done + queue ensures ReleasedAt(links, d, x) == ReleasedAt(links, done, x) <= |done| {
      assert PredsIn(links, x, done);
      ReleaseBounded(links, done, x);
    }
    forall x | x in Listed(Released(ids, links, c, done)) ensures ReleasedAt(links, d, x) == |d| {
      assert x in Released(ids, links, c, done);
    }
  }

  lemma SoonerAppend(links: set<(int, int)>, done: seq<int>, d: seq<int>, was: seq<int>, added: seq<int>)
    requires ByRelease(links, done, was) && StrictlySorted(added)
    requires forall x | x in was :: ReleasedAt(links, d, x) == ReleasedAt(links, done, x) < |d|
    requires forall x | x in added :: ReleasedAt(links, d, x) == |d|
    ensures ByRelease(links, d, was + added)
  {
    hide ReleasedAt;
    var s := was + added;
    forall i, j | 0 <= i < j < |s| ensures Sooner(ReleasedAt(links, d, s[i]), s[i], ReleasedAt(links, d, s[j]), s[j]) {
      if j < |was| { assert s[i] == was[i] && s[j] == was[j]; }
      else if i < |was| { assert s[i] == was[i] && s[j] == added[j - |was|]; }
      else { assert s[i] == added[i - |was|] && s[j] == added[j - |was|]; }
    }
  }

  lemma ReleaseStep(ids: set<int>, links: set<(int, int)>, queue: seq<int>, done: seq<int>)
    requires Walk(ids, links, queue, done) && queue != [] && ByRelease(links, done, done + queue)
    ensures var c := queue[0]; var added := Listed(Released(ids, links, c, done));
      ByRelease(links, done + [c], (done + [c]) + (queue[1..] + added))
  {
    hide Walk, ByRelease, ReleasedAt, Released, Listed;
    var added, d := Listed(Released(ids, links, queue[0], done)), done + [queue[0]];
    assert d + (queue[1..] + added) == (done + queue) + added;
    ReleaseMoves(ids, links, queue, done);
    SoonerAppend(links, done, d, done + queue, added);
  }

  lemma {:induction false} WalkedByRelease(ids: set<int>, links: set<(int, int)>, queue: seq<int>, done: seq<int>)
    requires Walk(ids, links, queue, done) && ByRelease(links, done, done + queue)
    ensures ByRelease(links, Walked(ids, links, queue, done), Walked(ids, links, queue, done))
    decreases |ids| - |done|
  {
    if queue == [] {
      assert done + queue == done;
    } else {
      WalkStep(ids, links, queue, done);
      ReleaseStep(ids, links, queue, done);
      WalkedByRelease(ids, links, queue[1..] + Listed(Released(ids, links, queue[0], done)), done + [queue[0]]);
    }
  }

  lemma {:induction false} PrefixRelease(links: set<(int, int)>, s: seq<int>, k: nat, x: int)
    requires k <= |s| && forall i | k <= i < |s| :: (s[i], x) !in links
    ensures ReleasedAt(links, s, x) == ReleasedAt(links, s[..k], x)
  {
    if k < |s| {
      PrefixRelease(links, s[..|s| - 1], k, x);
      assert s[..|s| - 1][..k] == s[..k];
    } else {
      assert s[..k] == s;
    }
  }

  lemma ReleaseAgrees(links: set<(int, int)>, s: seq<int>, u: seq<int>, m: nat, x: int)
    requires Distinct(s) && Distinct(u) && m <= |s| && m <= |u| && s[..m] == u[..m]
    requires PredsIn(links, x, s[..m])
    ensures ReleasedAt(links, s, x) == ReleasedAt(links, u, x)
  {
    forall i | m <= i < |s| ensures (s[i], x) !in links { assert s[i] !in s[..m]; }
    forall i | m <= i < |u| ensures (u[i], x) !in links { assert u[i] !in u[..m]; }
    PrefixRelease(links, s, m, x);
    PrefixRelease(links, u, m, x);
  }

  lemma OrderLists(ids: set<int>, links: set<(int, int)>, s: seq<int>)
    requires IsOrder(ids, links, s)
    ensures forall x :: x in s <==> x in ids
  {
    forall x ensures x in s <==> x in ids { assert x in (set y | y in s) <==> x in s; }
  }

  lemma NotBefore(s: seq<int>, u: seq<int>, m: nat, i: nat)
    requires Distinct(s) && m < |s| && m <= |u| && s[..m] == u[..m] && i < |u| && u[i] == s[m]
    ensures i >= m
  {
    assert forall k | 0 <= k < m :: s[..m][k] == s[k] && u[..m][k] == u[k];
  }

  /** Two lists that are orders and by release agree from the front on. */
  lemma {:induction false} ReleaseUnique(ids: set<int>, links: set<(int, int)>, s: seq<int>, u: seq<int>, k: nat)
    requires IsOrder(ids, links, s) && IsOrder(ids, links, u) && ByRelease(links, s, s) && ByRelease(links, u, u)
    requires k <= |s| && k <= |u|
    ensures s[..k] == u[..k]
    decreases k
  {
    if k > 0 {
      ReleaseUnique(ids, links, s, u, k - 1);
      var a, b := s[k - 1], u[k - 1];
      if a != b {
        OrderLists(ids, links, s);
        OrderLists(ids, links, u);
        assert a in s && b in u;
        var i :| 0 <= i < |u| && u[i] == a;
        var j :| 0 <= j < |s| && s[j] == b;
        NotBefore(s, u, k - 1, i);
        NotBefore(u, s, k - 1, j);
        ReleaseAgrees(links, s, u, k - 1, a);
        ReleaseAgrees(links, u, s, k - 1, b);
      }
      assert s[..k] == s[..k - 1] + [a] && u[..k] == u[..k - 1] + [b];
    }
  }

  /** The order of an acyclic graph is the one, and the only one, in which nodes
      stand by their release and then by id. */
  lemma OrderIsByRelease(ids: set<int>, links: set<(int, int)>, s: seq<int>)
    requires Acyclic(ids, links)
    ensures s == Order(ids, links) <==> IsOrder(ids, links, s) && ByRelease(links, s, s)
  {
    OrderCoversIffAcyclic(ids, links);
    WalkStart(ids, links);
    var roots := Listed(Roots(ids, links));
    var none: seq<int> := [];
    assert none + roots == roots;
    WalkedByRelease(ids, links, roots, []);
    var order := Order(ids, links);
    if IsOrder(ids, links, s) && ByRelease(links, s, s) {
      SameSize(ids, s, order);
      ReleaseUnique(ids, links, s, order, |s|);
      assert s[..|s|] == s && order[..|s|] == order;
    }
  }

  lemma SameSize(ids: set<int>, s: seq<int>, u: seq<int>)
    requires Distinct(s) && Distinct(u) && (set x | x in s) == ids && (set x | x in u) == ids
    ensures |s| == |u|
  {
    DistinctWithin(s, ids);
    DistinctSize(s);
    DistinctSize(u);
  }

  /** Covering every id is the same as the graph being acyclic. */
  lemma OrderCoversIffAcyclic(ids: set<int>, links: set<(int, int)>)
    ensures |Order(ids, links)| == |ids| <==> Acyclic(ids, links)
    ensures Acyclic(ids, links) ==> IsOrder(ids, links, Order(ids, links))
  {
    WalkStart(ids, links);
    var r := Order(ids, links);
    assert r + [] == r;
    DistinctWithin(r, ids);
    if |r| == |ids| {
      DistinctCovers(r, ids);
      assert (set x | x in r) == ids;
      assert IsOrder(ids, links, r);
    }
    if Acyclic(ids, links) {
      var o :| IsOrder(ids, links, o);
      forall k | 0 <= k < |o| ensures o[k] in r { ReachedInOrder(ids, links, o, r, k); }
      assert (set x | x in r) == ids by {
        forall x | x in ids ensures x in r { assert x in o; }
      }
      assert IsOrder(ids, links, r);
      DistinctSize(r);
    }
  }

  lemma {:induction false} ReachedInOrder(ids: set<int>, links: set<(int, int)>, o: seq<int>, r: seq<int>, k: nat)
    requires IsOrder(ids, links, o) && Walk(ids, links, [], r) && k < |o|
    ensures o[k] in r
    decreases k
  {
    assert r + [] == r;
    forall p | (p, o[k]) in links ensures p in r {
      assert p in o[..k];
      var i :| 0 <= i < k && o[i] == p;
      ReachedInOrder(ids, links, o, r, i);
    }
    assert o[k] in (set x | x in o);
    assert PredsIn(links, o[k], r);
  }

  lemma DistinctSize(s: seq<int>)
    requires Distinct(s)
    ensures |s| == |set x | x in s|
  {
    if s != [] {
      var init := s[..|s| - 1];
      var x := s[|s| - 1];
      DistinctSize(init);
      assert (set y | y in s) == (set y | y in init) + {x};
      assert x !in init;
    }
  }

  lemma DistinctCovers(s: seq<int>, ids: set<int>)
    requires Distinct(s) && |s| == |ids| && forall x | x in s :: x in ids
    ensures (set x | x in s) == ids
  {
    DistinctSize(s);
    var t := set x | x in s;
    assert t <= ids;
    assert |ids - t| == 0;
  }

  // ---------------------------------------------------------------- sorted lists and counting

  ghost function Count(s: seq<int>, x: int): nat {
    if s == [] then 0 else Count(s[..|s| - 1], x) + if s[|s| - 1] == x then 1 else 0
  }

  lemma {:induction false} CountIn(s: seq<int>, x: int)
    ensures Count(s, x) > 0 <==> x in s
  {
    if s != [] {
      CountIn(s[..|s| - 1], x);
      assert s == s[..|s| - 1] + [s[|s| - 1]];
    }
  }

  lemma {:induction false} CountSnoc(s: seq<int>, y: int, x: int)
    ensures Count(s + [y], x) == Count(s, x) + if y == x then 1 else 0
  {
    assert (s + [y])[..|s|] == s;
  }

  lemma {:induction false} CountPrefix(s: seq<int>, i: nat, x: int)
    requires i <= |s|
    ensures Count(s[..i], x) <= Count(s, x)
    decreases |s|
  {
    if i == |s| {
      assert s[..i] == s;
    } else {
      CountPrefix(s[..|s| - 1], i, x);
      assert s[..|s| - 1][..i] == s[..i];
    }
  }

  lemma {:induction false} CountDistinct(s: seq<int>, x: int)
    requires Distinct(s)
    ensures Count(s, x) <= 1
  {
    if s != [] {
      var init := s[..|s| - 1];
      CountDistinct(init, x);
      CountIn(init, x);
    }
  }

  predicate Ascending(s: seq<int>) {
    forall i, j | 0 <= i < j < |s| :: s[i] <= s[j]
  }

  function Insert(x: int, s: seq<int>): seq<int> {
    if s == [] then [x]
    else if s[|s| - 1] <= x then s + [x]
    else Insert(x, s[..|s| - 1]) + [s[|s| - 1]]
  }

  lemma {:induction false} InsertCounts(x: int, s: seq<int>, y: int)
    ensures Count(Insert(x, s), y) == Count(s, y) + if x == y then 1 else 0
  {
    if s == [] {
    } else if s[|s| - 1] <= x {
      CountSnoc(s, x, y);
    } else {
      InsertCounts(x, s[..|s| - 1], y);
      CountSnoc(Insert(x, s[..|s| - 1]), s[|s| - 1], y);
    }
  }

  lemma {:induction false} InsertAscends(x: int, s: seq<int>)
    requires Ascending(s)
    ensures Ascending(Insert(x, s))
  {
    if s != [] && s[|s| - 1] > x {
      var init := s[..|s| - 1];
      var r := Insert(x, init);
      InsertAscends(x, init);
      forall j | 0 <= j < |r| ensures r[j] <= s[|s| - 1] {
        InsertCounts(x, init, r[j]);
        CountIn(r, r[j]);
        CountIn(init, r[j]);
      }
    }
  }

  /** Python's `sorted`: ascending, repeats kept. */
  function Sorted(s: seq<int>): (r: seq<int>)
    ensures Ascending(r)
  {
    if s == [] then [] else
      var r := Sorted(s[..|s| - 1]);
      InsertAscends(s[|s| - 1], r);
      Insert(s[|s| - 1], r)
  }

  lemma {:induction false} SortedCounts(s: seq<int>, x: int)
    ensures Count(Sorted(s), x) == Count(s, x)
  {
    if s != [] {
      SortedCounts(s[..|s| - 1], x);
      InsertCounts(s[|s| - 1], Sorted(s[..|s| - 1]), x);
    }
  }

  /** Sorting a list without repeats lists its set. */
  lemma SortedIsListed(s: seq<int>)
    requires Distinct(s)
    ensures Sorted(s) == Listed(set x | x in s)
  {
    var r := Sorted(s);
    forall i, j | 0 <= i < j < |r| ensures r[i] < r[j] {
      SortedCounts(s, r[i]);
      CountDistinct(s, r[i]);
      CountPrefix(r, j + 1, r[i]);
      CountIn(r[..j], r[i]);
      assert r[..j][i] == r[i];
      assert r[..j + 1][..j] == r[..j];
    }
    forall x ensures x in r <==> x in s {
      SortedCounts(s, x); CountIn(s, x); CountIn(r, x);
    }
    ListedUnique((set x | x in s), r);
  }

  // ---------------------------------------------------------------- the queue algorithm over counters

  /** Links into `t` from ids outside `done`, repeated edges counted each time. */
  ghost function InDegree(edges: seq<Edge>, done: set<int>, t: int): nat {
    if edges == [] then 0 else
      var e := edges[|edges| - 1];
      InDegree(edges[..|edges| - 1], done, t) + if e.target == t && e.source !in done then 1 else 0
  }

  /** Targets of the edges leaving `c`, in edge order. */
  ghost function Targets(edges: seq<Edge>, c: int): seq<int> {
    if edges == [] then [] else
      var e := edges[|edges| - 1];
      Targets(edges[..|edges| - 1], c) + if e.source == c then [e.target] else []
  }

  lemma {:induction false} InDegreeSplit(edges: seq<Edge>, done: set<int>, c: int, t: int)
    requires c !in done
    ensures InDegree(edges, done, t) == InDegree(edges, done + {c}, t) + Count(Targets(edges, c), t)
  {
    if edges != [] {
      var init := edges[..|edges| - 1];
      InDegreeSplit(init, done, c, t);
      CountSnoc(Targets(init, c), edges[|edges| - 1].target, t);
      assert Targets(init, c) + [] == Targets(init, c);
    }
  }

  lemma {:induction false} InDegreeZero(edges: seq<Edge>, done: set<int>, t: int)
    ensures InDegree(edges, done, t) == 0 <==> forall e | e in edges && e.target == t :: e.source in done
  {
    if edges != [] {
      var init := edges[..|edges| - 1];
      InDegreeZero(init, done, t);
      assert edges == init + [edges[|edges| - 1]];
    }
  }

  lemma {:induction false} TargetsAre(edges: seq<Edge>, c: int, t: int)
    ensures t in Targets(edges, c) <==> exists e :: e in edges && e.source == c && e.target == t
  {
    if edges != [] {
      var init := edges[..|edges| - 1];
      TargetsAre(init, c, t);
      assert edges == init + [edges[|edges| - 1]];
    }
  }

  lemma InDegreeIsPreds(g: Graph, order: seq<int>, t: int)
    ensures InDegree(g.edges, Members(order), t) == 0 <==> PredsIn(Links(g), t, order)
  {
    InDegreeZero(g.edges, Members(order), t);
    assert forall e | e in g.edges :: (e.source, e.target) in Links(g);
  }

  /** What the inner loop has appended after the first `i` targets. */
  ghost predicate Appended(list: seq<int>, i: nat, edges: seq<Edge>, done: set<int>, added: seq<int>)
    requires i <= |list|
  {
    && StrictlySorted(added)
    && (forall x :: x in added <==> Exhausted(list, i, edges, done, x))
  }

  ghost predicate Exhausted(list: seq<int>, i: nat, edges: seq<Edge>, done: set<int>, x: int)
    requires i <= |list|
  {
    x in list[..i] && Count(list[..i], x) == Count(list, x) && InDegree(edges, done, x) == 0
  }

  lemma {:induction false} ExhaustedStep(list: seq<int>, i: nat, edges: seq<Edge>, done: set<int>, x: int)
    requires i < |list|
    ensures x != list[i] ==> (Exhausted(list, i + 1, edges, done, x) <==> Exhausted(list, i, edges, done, x))
    ensures x == list[i] ==> !Exhausted(list, i, edges, done, x)
  {
    var longer := list[..i + 1];
    assert longer == list[..i] + [list[i]];
    CountSnoc(list[..i], list[i], x);
    CountPrefix(list, i + 1, x);
  }

  lemma {:induction false} AppendedStep(list: seq<int>, i: nat, edges: seq<Edge>, done: set<int>, added: seq<int>)
    requires i < |list| && Ascending(list) && Appended(list, i, edges, done, added)
    ensures Appended(list, i + 1, edges, done,
              if Exhausted(list, i + 1, edges, done, list[i]) then added + [list[i]] else added)
  {
    var t := list[i];
    var longer := if Exhausted(list, i + 1, edges, done, t) then added + [t] else added;
    forall x | x in added ensures x < t {
      assert Exhausted(list, i, edges, done, x);
      var j :| 0 <= j < i && list[..i][j] == x;
      ExhaustedStep(list, i, edges, done, t);
    }
    assert StrictlySorted(longer) by {
      forall j | 0 <= j < |added| ensures added[j] < t { assert added[j] in added; }
    }
    forall x ensures x in longer <==> Exhausted(list, i + 1, edges, done, x) {
      ExhaustedStep(list, i, edges, done, x);
      assert x in added <==> Exhausted(list, i, edges, done, x);
    }
  }

  lemma AppendedIsReleased(g: Graph, c: int, order: seq<int>, list: seq<int>, added: seq<int>)
    requires WellFormed(g)
    requires list == Sorted(Targets(g.edges, c))
    requires Appended(list, |list|, g.edges, Members(order) + {c}, added)
    ensures added == Listed(Released(Ids(g), Links(g), c, order))
  {
    var done := Members(order) + {c};
    var released := Released(Ids(g), Links(g), c, order);
    assert list[..|list|] == list;
    forall t ensures t in added <==> t in released {
      assert t in added <==> Exhausted(list, |list|, g.edges, done, t);
      SortedCounts(Targets(g.edges, c), t); CountIn(list, t); CountIn(Targets(g.edges, c), t);
      TargetsAre(g.edges, c, t);
      InDegreeIsPreds(g, order + [c], t);
      assert done == Members(order + [c]);
    }
    ListedUnique(released, added);
  }

  datatype OrderResult = Ordered(order: seq<int>) | Cycle

  /** The walk so far leads to the graph's order, and the counters are the
      in-degrees from nodes not yet listed. */
  ghost predicate Underway(g: Graph, queue: seq<int>, result: seq<int>, degree: map<int, nat>) {
    && Walk(Ids(g), Links(g), queue, result)
    && Walked(Ids(g), Links(g), queue, result) == GraphOrder(g)
    && degree.Keys == Ids(g)
    && Degrees(g, degree, Members(result))
  }

  ghost function Members(s: seq<int>): set<int> {
    set x | x in s
  }

  /** Repeatedly lists the front of a queue and decrements the counter of every
      target, queueing a target when its counter reaches zero. */
  method TopologicalOrder(g: Graph) returns (r: OrderResult)
    requires WellFormed(g)
    ensures r.Ordered? <==> Acyclic(Ids(g), Links(g))
    ensures r.Ordered? ==> IsOrder(Ids(g), Links(g), r.order) && r.order == GraphOrder(g)
  {
    var degree, outgoing := Counters(g);
    var queue := RootsOf(g, degree);
    var result: seq<int> := [];
    WalkStart(Ids(g), Links(g));
    assert Members(result) == {};
    while queue != []
      invariant Underway(g, queue, result, degree)
      decreases |Ids(g)| - |result|
    {
      WalkStep(Ids(g), Links(g), queue, result);
      queue, result, degree := Visit(g, outgoing, queue, result, degree);
    }
    Finished(g, result, degree);
    r := if |result| != |g.nodes| then Cycle else Ordered(result);
  }

  lemma Finished(g: Graph, result: seq<int>, degree: map<int, nat>)
    requires WellFormed(g) && Underway(g, [], result, degree)
    ensures |result| == |g.nodes| <==> Acyclic(Ids(g), Links(g))
    ensures Acyclic(Ids(g), Links(g)) ==> IsOrder(Ids(g), Links(g), result)
    ensures result == GraphOrder(g)
  {
    OrderCoversIffAcyclic(Ids(g), Links(g));
    NodeCount(g);
  }

  method Visit(g: Graph, outgoing: map<int, seq<int>>, queue: seq<int>, result: seq<int>, degree: map<int, nat>)
    returns (queue': seq<int>, result': seq<int>, degree': map<int, nat>)
    requires WellFormed(g) && queue != [] && Underway(g, queue, result, degree)
    requires outgoing.Keys == Ids(g) && forall x | x in outgoing :: outgoing[x] == Targets(g.edges, x)
    ensures Underway(g, queue', result', degree')
    ensures |result'| == |result| + 1
  {
    var current := queue[0];
    WalkFront(Ids(g), Links(g), queue, result);
    var list := Sorted(outgoing[current]);
    var added;
    degree', added := Decrement(g, degree, list, current, Members(result));
    VisitStep(g, queue, result, degree, list, added, degree');
    queue' := queue[1..] + added;
    result' := result + [current];
  }

  lemma VisitStep(g: Graph, queue: seq<int>, result: seq<int>, degree: map<int, nat>, list: seq<int>, added: seq<int>,
        degree': map<int, nat>)
    requires WellFormed(g) && queue != [] && Underway(g, queue, result, degree)
    requires list == Sorted(Targets(g.edges, queue[0]))
    requires Appended(list, |list|, g.edges, Members(result) + {queue[0]}, added)
    requires degree'.Keys == degree.Keys && Degrees(g, degree', Members(result) + {queue[0]})
    ensures Underway(g, queue[1..] + added, result + [queue[0]], degree')
  {
    AppendedIsReleased(g, queue[0], result, list, added);
    WalkedStep(Ids(g), Links(g), queue, result, added);
    MembersStep(result, queue[0]);
  }

  lemma MembersStep(s: seq<int>, x: int)
    ensures Members(s + [x]) == Members(s) + {x}
  {
  }

  lemma WalkedStep(ids: set<int>, links: set<(int, int)>, queue: seq<int>, done: seq<int>, added: seq<int>)
    requires Walk(ids, links, queue, done) && queue != []
    requires added == Listed(Released(ids, links, queue[0], done))
    ensures Walk(ids, links, queue[1..] + added, done + [queue[0]])
    ensures Walked(ids, links, queue[1..] + added, done + [queue[0]]) == Walked(ids, links, queue, done)
  {
    WalkStep(ids, links, queue, done);
  }

  ghost predicate Degrees(g: Graph, degree: map<int, nat>, done: set<int>) {
    forall x | x in degree :: degree[x] == InDegree(g.edges, done, x)
  }

  method Counters(g: Graph) returns (degree: map<int, nat>, outgoing: map<int, seq<int>>)
    requires WellFormed(g)
    ensures degree.Keys == outgoing.Keys == Ids(g)
    ensures Degrees(g, degree, {})
    ensures forall x | x in outgoing :: outgoing[x] == Targets(g.edges, x)
  {
    degree, outgoing := NoCounters(g);
    assert g.edges[..0] == [];
    for k := 0 to |g.edges|
      invariant degree.Keys == outgoing.Keys == Ids(g)
      invariant Counted(g.edges[..k], degree, outgoing)
    {
      CountersStep(g, k, degree, outgoing);
      var e := g.edges[k];
      degree := degree[e.target := degree[e.target] + 1];
      outgoing := outgoing[e.source := outgoing[e.source] + [e.target]];
    }
    assert g.edges[..|g.edges|] == g.edges;
  }

  method NoCounters(g: Graph) returns (degree: map<int, nat>, outgoing: map<int, seq<int>>)
    ensures degree.Keys == outgoing.Keys == Ids(g)
    ensures Counted([], degree, outgoing)
  {
    degree := map n | n in g.nodes :: n.id := 0;
    outgoing := map n | n in g.nodes :: n.id := [];
  }

  ghost predicate Counted(edges: seq<Edge>, degree: map<int, nat>, outgoing: map<int, seq<int>>) {
    && (forall x | x in degree :: degree[x] == InDegree(edges, {}, x))
    && (forall x | x in outgoing :: outgoing[x] == Targets(edges, x))
  }

  lemma CountersStep(g: Graph, k: nat, degree: map<int, nat>, outgoing: map<int, seq<int>>)
    requires WellFormed(g) && k < |g.edges|
    requires degree.Keys == outgoing.Keys == Ids(g)
    requires Counted(g.edges[..k], degree, outgoing)
    ensures g.edges[k].source in Ids(g) && g.edges[k].target in Ids(g)
    ensures var e := g.edges[k];
            Counted(g.edges[..k + 1], degree[e.target := degree[e.target] + 1],
              outgoing[e.source := outgoing[e.source] + [e.target]])
  {
    var e := g.edges[k];
    assert e in g.edges;
    var longer := g.edges[..k + 1];
    assert longer[..k] == g.edges[..k] && longer[k] == e;
  }

  lemma NodeCount(g: Graph)
    requires WellFormed(g)
    ensures |g.nodes| == |Ids(g)|
  {
    var ids := seq(|g.nodes|, i requires 0 <= i < |g.nodes| => g.nodes[i].id);
    DistinctSize(ids);
    assert (set x | x in ids) == Ids(g) by {
      forall x | x in Ids(g) ensures x in ids {
        var n :| n in g.nodes && n.id == x;
        var i :| 0 <= i < |g.nodes| && g.nodes[i] == n;
        assert ids[i] == x;
      }
    }
  }

  method RootsOf(g: Graph, degree: map<int, nat>) returns (queue: seq<int>)
    requires WellFormed(g) && degree.Keys == Ids(g) && Degrees(g, degree, {})
    ensures queue == Listed(Roots(Ids(g), Links(g)))
  {
    var zero: seq<int> := [];
    for k := 0 to |g.nodes|
      invariant forall x :: x in zero <==> x in degree && degree[x] == 0 && exists i :: 0 <= i < k && g.nodes[i].id == x
      invariant Distinct(zero)
    {
      var id := g.nodes[k].id;
      assert g.nodes[k] in g.nodes && id in degree;
      if degree[id] == 0 { zero := zero + [id]; }
    }
    queue := Sorted(zero);
    ghost var none: seq<int> := [];
    assert Members(none) == {};
    forall x ensures x in zero <==> x in Roots(Ids(g), Links(g)) {
      InDegreeIsPreds(g, none, x);
      if x in Ids(g) { var n :| n in g.nodes && n.id == x; }
    }
    assert (set x | x in zero) == Roots(Ids(g), Links(g));
    SortedIsListed(zero);
  }

  /** Counters part of the way through the targets of a listed node. */
  ghost predicate Lowered(g: Graph, degree: map<int, nat>, list: seq<int>, i: nat, done: set<int>)
    requires i <= |list|
  {
    && degree.Keys == Ids(g)
    && forall x | x in degree :: degree[x] + Count(list[..i], x) == InDegree(g.edges, done, x) + Count(list, x)
  }

  lemma LoweredStart(g: Graph, degree: map<int, nat>, list: seq<int>, c: int, done: set<int>)
    requires degree.Keys == Ids(g) && Degrees(g, degree, done) && c !in done && list == Sorted(Targets(g.edges, c))
    ensures Lowered(g, degree, list, 0, done + {c})
    ensures Appended(list, 0, g.edges, done + {c}, [])
  {
    assert list[..0] == [];
    forall x | x in degree ensures degree[x] == InDegree(g.edges, done + {c}, x) + Count(list, x) {
      InDegreeSplit(g.edges, done, c, x);
      SortedCounts(Targets(g.edges, c), x);
    }
  }

  lemma {:induction false} LoweredStep(g: Graph, degree: map<int, nat>, list: seq<int>, i: nat, done: set<int>)
    requires i < |list| && list[i] in Ids(g) && Lowered(g, degree, list, i, done)
    ensures degree[list[i]] > 0
    ensures Lowered(g, degree[list[i] := degree[list[i]] - 1], list, i + 1, done)
    ensures degree[list[i]] - 1 == 0 <==> Exhausted(list, i + 1, g.edges, done, list[i])
  {
    var t, longer := list[i], list[..i + 1];
    assert longer == list[..i] + [t];
    assert t in longer;
    CountPrefix(list, i + 1, t);
    CountSnoc(list[..i], t, t);
    forall x | x in degree ensures Count(longer, x) == Count(list[..i], x) + if x == t then 1 else 0 {
      CountSnoc(list[..i], t, x);
    }
  }

  lemma LoweredAll(g: Graph, degree: map<int, nat>, list: seq<int>, done: set<int>)
    requires Lowered(g, degree, list, |list|, done)
    ensures degree.Keys == Ids(g) && Degrees(g, degree, done)
  {
    assert list[..|list|] == list;
  }

  method Decrement(g: Graph, degree: map<int, nat>, list: seq<int>, c: int, ghost done: set<int>)
    returns (degree': map<int, nat>, added: seq<int>)
    requires WellFormed(g) && degree.Keys == Ids(g) && c !in done
    requires list == Sorted(Targets(g.edges, c))
    requires Degrees(g, degree, done)
    ensures degree'.Keys == degree.Keys
    ensures Degrees(g, degree', done + {c})
    ensures Appended(list, |list|, g.edges, done + {c}, added)
  {
    hide InDegree, Exhausted, Degrees, WellFormed, Count, Sorted, Targets, Ascending;
    degree', added := degree, [];
    LoweredStart(g, degree, list, c, done);
    for i := 0 to |list|
      invariant Lowered(g, degree', list, i, done + {c})
      invariant Appended(list, i, g.edges, done + {c}, added)
    {
      TargetKnown(g, c, list, i);
      LoweredStep(g, degree', list, i, done + {c});
      AppendedStep(list, i, g.edges, done + {c}, added);
      degree' := degree'[list[i] := degree'[list[i]] - 1];
      if degree'[list[i]] == 0 { added := added + [list[i]]; }
    }
    LoweredAll(g, degree', list, done + {c});
  }

  lemma TargetKnown(g: Graph, c: int, list: seq<int>, i: nat)
    requires WellFormed(g) && list == Sorted(Targets(g.edges, c)) && i < |list|
    ensures list[i] in Ids(g)
  {
    SortedCounts(Targets(g.edges, c), list[i]);
    CountIn(list, list[i]); CountIn(Targets(g.edges, c), list[i]);
    TargetsAre(g.edges, c, list[i]);
  }
}
