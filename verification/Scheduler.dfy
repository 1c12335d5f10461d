/** Placement of sessions (scheduler/round_robin.go) over the configured nodes (runtime/discovery.go):
    first fit among running containers, else a requested node, else the next node of a rotating cursor. */
module Scheduler {
  import opened Control

  datatype ContainerState =
    | Requested | Provisioning | Starting | Ready | Busy | Idle | Hibernating | Stopped | Deleting | Deleted

  datatype Container = Container(id: string, nodeId: string, state: ContainerState, currentRuns: int, capacity: int)

  datatype Placement = Placement(containerId: string, nodeId: string, schedulerChosen: bool, createIfNotFound: bool)

  /** What a plan asks for: a placement already made, and the node of its container profile. */
  datatype Request = Request(placement: Placement, profileNodeId: string)

  predicate Eligible(c: Container, req: Request) {
    && (c.state == Ready || c.state == Idle)
    && !(c.currentRuns >= c.capacity && c.capacity > 0)
    && !(req.profileNodeId != "" && c.nodeId != req.profileNodeId)
  }

  /** The container is up, has a free place or no limit, and is on the node asked for, if one is. */
  predicate Runs(c: Container, nodeId: string) {
    && c.state in {Ready, Idle}
    && (c.capacity <= 0 || c.currentRuns < c.capacity)
    && nodeId in {"", c.nodeId}
  }

  lemma EligibleExact(c: Container, req: Request)
    ensures Eligible(c, req) <==> Runs(c, req.profileNodeId)
  {
  }

  predicate FirstFit(containers: seq<Container>, req: Request, i: nat) {
    && i < |containers| && Eligible(containers[i], req)
    && forall j :: 0 <= j < i ==> !Eligible(containers[j], req)
  }

  /** The cursor decides: no placement is given, no container fits and no node is requested. */
  predicate FallsBack(containers: seq<Container>, req: Request) {
    && req.placement.containerId == ""
    && (forall i :: 0 <= i < |containers| ==> !Eligible(containers[i], req))
    && req.placement.nodeId == ""
  }

  class RoundRobin {
    const nodes: seq<string>
    var next: nat

    constructor (nodes: seq<string>)
      ensures this.nodes == nodes && next == 0
    {
      this.nodes, next := nodes, 0;
    }

    method SelectPlacement(req: Request, containers: seq<Container>) returns (r: Result<Placement>)
      modifies this
      ensures req.placement.containerId != "" ==> r == Ok(req.placement)
      ensures req.placement.containerId == "" ==> forall i: nat :: FirstFit(containers, req, i) ==>
        r == Ok(Placement(containers[i].id, containers[i].nodeId, true, false))
      ensures r.Ok? && req.placement.containerId == "" && !r.value.createIfNotFound ==>
        exists i :: 0 <= i < |containers| && Runs(containers[i], req.profileNodeId)
          && r.value == Placement(containers[i].id, containers[i].nodeId, true, false)
          && forall j :: 0 <= j < i ==> !Runs(containers[j], req.profileNodeId)
      ensures req.placement.containerId == "" && (r.Err? || r.value.createIfNotFound) ==>
        forall i :: 0 <= i < |containers| ==> !Runs(containers[i], req.profileNodeId)
      ensures FallsBack(containers, req.(placement := req.placement.(nodeId := ""))) && req.placement.nodeId != "" ==>
        r == Ok(Placement("", req.placement.nodeId, true, true))
      ensures FallsBack(containers, req) ==>
        r == if nodes == [] then Err("no schedulable capacity")
          else Ok(Placement("", nodes[old(next) % |nodes|], true, true))
      ensures next == if FallsBack(containers, req) && nodes != [] then old(next) + 1 else old(next)
    {
      if req.placement.containerId != "" {
        return Ok(req.placement);
      }
      for i := 0 to |containers|
        invariant forall j :: 0 <= j < i ==> !Eligible(containers[j], req)
      {
        var c := containers[i];
        if c.state != Ready && c.state != Idle {
          continue;
        }
        if c.currentRuns >= c.capacity && c.capacity > 0 {
          continue;
        }
        if req.profileNodeId != "" && c.nodeId != req.profileNodeId {
          continue;
        }
        assert FirstFit(containers, req, i);
        return Ok(Placement(c.id, c.nodeId, true, false));
      }
      if req.placement.nodeId != "" {
        return Ok(Placement("", req.placement.nodeId, true, true));
      }
      if |nodes| == 0 {
        return Err("no schedulable capacity");
      }
      var node := nodes[next % |nodes|];
      next := next + 1;
      return Ok(Placement("", node, true, true));
    }
  }

  // ----- Fairness over any sequence of placements -----

  datatype Placing = Placing(req: Request, containers: seq<Container>)

  /** The nodes the cursor picks over a sequence of placements, and where it ends up. */
  function CursorPicks(nodes: seq<string>, start: nat, calls: seq<Placing>): seq<string>
    requires nodes != []
    decreases |calls|
  {
    if calls == [] then []
    else if FallsBack(calls[0].containers, calls[0].req)
    then [nodes[start % |nodes|]] + CursorPicks(nodes, start + 1, calls[1..])
    else CursorPicks(nodes, start, calls[1..])
  }

  /** Placements through the object, one after the other, pick exactly those nodes. */
  method PlaceAll(s: RoundRobin, calls: seq<Placing>) returns (picks: seq<string>)
    requires s.nodes != []
    modifies s
    ensures picks == CursorPicks(s.nodes, old(s.next), calls)
    ensures s.next == old(s.next) + |picks|
  {
    picks := [];
    var rest := calls;
    while rest != []
      invariant picks + CursorPicks(s.nodes, s.next, rest) == CursorPicks(s.nodes, old(s.next), calls)
      invariant s.next == old(s.next) + |picks|
      decreases |rest|
    {
      var r := s.SelectPlacement(rest[0].req, rest[0].containers);
      if FallsBack(rest[0].containers, rest[0].req) {
        picks := picks + [r.value.nodeId];
      }
      rest := rest[1..];
    }
  }

  /** How many of the first `n` elements are `x`. */
  function Count(s: seq<string>, n: nat, x: string): nat
    requires n <= |s|
  {
    if n == 0 then 0 else Count(s, n - 1, x) + if s[n - 1] == x then 1 else 0
  }

  lemma {:induction false} PicksRotate(nodes: seq<string>, start: nat, calls: seq<Placing>, i: nat)
    requires nodes != [] && i < |CursorPicks(nodes, start, calls)|
    ensures CursorPicks(nodes, start, calls)[i] == nodes[(start + i) % |nodes|]
    decreases |calls|
  {
    if FallsBack(calls[0].containers, calls[0].req) {
      if i > 0 { PicksRotate(nodes, start + 1, calls[1..], i - 1); }
    } else {
      PicksRotate(nodes, start, calls[1..], i);
    }
  }

  /** Where a rotation over `m` nodes stands after `n` picks, and how many rounds it has completed. */
  function Stand(n: nat, m: nat): (r: nat)
    requires m > 0
    ensures r < m
  {
    if n == 0 then 0 else if Stand(n - 1, m) == m - 1 then 0 else Stand(n - 1, m) + 1
  }

  function Rounds(n: nat, m: nat): nat
    requires m > 0
  {
    if n == 0 then 0 else Rounds(n - 1, m) + if Stand(n - 1, m) == m - 1 then 1 else 0
  }

  lemma {:induction false} StandDecomposes(n: nat, m: nat)
    requires m > 0
    ensures n == Rounds(n, m) * m + Stand(n, m)
  {
    if n > 0 {
      StandDecomposes(n - 1, m);
      var q := Rounds(n - 1, m);
      assert (q + 1) * m == q * m + m;
    }
  }

  lemma UniqueQuotient(n: nat, m: nat, q: nat, r: nat)
    requires m > 0 && r < m && n == q * m + r
    ensures n / m == q && n % m == r
  {
    var d := n / m - q;
    assert n == (n / m) * m + n % m;
    assert d * m == r - n % m;
    assert d >= 1 ==> d * m >= m;
    assert d <= -1 ==> d * m <= 0 - m;
  }

  /** The cursor modulo the number of nodes. */
  lemma StandIsRemainder(n: nat, m: nat)
    requires m > 0
    ensures Stand(n, m) == n % m && Rounds(n, m) == n / m
  {
    StandDecomposes(n, m);
    UniqueQuotient(n, m, Rounds(n, m), Stand(n, m));
  }

  lemma OneRoundLater(n: nat, m: nat)
    requires m > 0
    ensures Stand(n + m, m) == Stand(n, m) && Rounds(n + m, m) == Rounds(n, m) + 1
  {
    StandDecomposes(n, m);
    assert (Rounds(n, m) + 1) * m == Rounds(n, m) * m + m;
    UniqueQuotient(n + m, m, Rounds(n, m) + 1, Stand(n, m));
    StandIsRemainder(n + m, m);
  }

  predicate Distinct(s: seq<string>) {
    forall i, j :: 0 <= i < j < |s| ==> s[i] != s[j]
  }

  predicate Rotation(nodes: seq<string>, picks: seq<string>) {
    nodes != [] && forall i :: 0 <= i < |picks| ==> picks[i] == nodes[Stand(i, |nodes|)]
  }

  /** How often node `j` is among the first `n` picks: once per completed round, and once more if the
      current round has passed it. */
  lemma {:induction false} RotationCount(nodes: seq<string>, picks: seq<string>, n: nat, j: nat)
    requires Rotation(nodes, picks) && Distinct(nodes) && j < |nodes| && n <= |picks|
    ensures Count(picks, n, nodes[j]) == Rounds(n, |nodes|) + if j < Stand(n, |nodes|) then 1 else 0
  {
    if n > 0 {
      RotationCount(nodes, picks, n - 1, j);
      assert nodes[Stand(n - 1, |nodes|)] == nodes[j] <==> Stand(n - 1, |nodes|) == j;
    }
  }

  lemma CursorRotates(nodes: seq<string>, calls: seq<Placing>)
    requires nodes != []
    ensures Rotation(nodes, CursorPicks(nodes, 0, calls))
  {
    var picks := CursorPicks(nodes, 0, calls);
    forall i | 0 <= i < |picks| ensures picks[i] == nodes[Stand(i, |nodes|)] {
      PicksRotate(nodes, 0, calls, i);
      StandIsRemainder(i, |nodes|);
    }
  }

  /** After any sequence of placements the numbers of sessions the cursor gave to any two nodes differ
      by at most one. */
  lemma CursorIsFair(nodes: seq<string>, calls: seq<Placing>, a: nat, b: nat)
    requires nodes != [] && Distinct(nodes) && a < |nodes| && b < |nodes|
    ensures var picks := CursorPicks(nodes, 0, calls);
      Count(picks, |picks|, nodes[a]) <= Count(picks, |picks|, nodes[b]) + 1
  {
    var picks := CursorPicks(nodes, 0, calls);
    CursorRotates(nodes, calls);
    RotationCount(nodes, picks, |picks|, a);
    RotationCount(nodes, picks, |picks|, b);
  }

  /** Any |nodes| consecutive cursor picks take each node exactly once. */
  lemma EachNodeOncePerRound(nodes: seq<string>, calls: seq<Placing>, first: nat, j: nat)
    requires nodes != [] && Distinct(nodes) && j < |nodes|
    requires first + |nodes| <= |CursorPicks(nodes, 0, calls)|
    ensures var picks := CursorPicks(nodes, 0, calls);
      Count(picks, first + |nodes|, nodes[j]) == Count(picks, first, nodes[j]) + 1
  {
    var picks := CursorPicks(nodes, 0, calls);
    CursorRotates(nodes, calls);
    RotationCount(nodes, picks, first, j);
    RotationCount(nodes, picks, first + |nodes|, j);
    OneRoundLater(first, |nodes|);
  }

  // ----- runtime/discovery.go -----

  /** The order of Go strings. */
  predicate Less(a: string, b: string) {
    b != [] && (a == [] || a[0] < b[0] || (a[0] == b[0] && Less(a[1..], b[1..])))
  }

  /** The strings agree up to `n`, where `a` ends or has the smaller character. */
  predicate LessAt(a: string, b: string, n: nat) {
    n <= |a| && n < |b| && a[..n] == b[..n] && (n == |a| || a[n] < b[n])
  }

  lemma LessAtHead(a: string, b: string, n: nat)
    requires LessAt(a, b, n)
    ensures n > 0 ==> a != [] && b != [] && a[0] == b[0]
  {
    if n > 0 { assert a[..n][0] == b[..n][0]; }
  }

  /** It is the lexicographic order. */
  lemma {:induction false} LessExact(a: string, b: string)
    ensures Less(a, b) <==> exists n: nat :: LessAt(a, b, n)
  {
    if a == [] || b == [] || a[0] != b[0] {
      if b != [] && (a == [] || a[0] < b[0]) { assert LessAt(a, b, 0); }
      forall n: nat | LessAt(a, b, n) ensures n == 0 && b != [] && (a == [] || a[0] < b[0]) {
        LessAtHead(a, b, n);
      }
    } else {
      LessExact(a[1..], b[1..]);
      if n: nat :| LessAt(a[1..], b[1..], n) {
        assert a[..n + 1] == [a[0]] + a[1..][..n] && b[..n + 1] == [b[0]] + b[1..][..n];
        assert LessAt(a, b, n + 1);
      }
      forall n: nat | LessAt(a, b, n) ensures n > 0 && LessAt(a[1..], b[1..], n - 1) {
        assert a[1..][..n - 1] == a[..n][1..] && b[1..][..n - 1] == b[..n][1..];
      }
    }
  }

  lemma {:induction false} LessTotal(a: string, b: string)
    ensures a == b || Less(a, b) || Less(b, a)
    ensures !(Less(a, b) && Less(b, a)) && !Less(a, a)
  {
    if a != [] { LessIrreflexive(a); }
    if a != [] && b != [] && a[0] == b[0] {
      LessTotal(a[1..], b[1..]);
      assert a == [a[0]] + a[1..] && b == [b[0]] + b[1..];
    }
  }

  lemma {:induction false} LessIrreflexive(a: string)
    ensures !Less(a, a)
  {
    if a != [] { LessIrreflexive(a[1..]); }
  }

  lemma {:induction false} LessTransitive(a: string, b: string, c: string)
    requires Less(a, b) && Less(b, c)
    ensures Less(a, c)
  {
    if a != [] && a[0] == b[0] && b[0] == c[0] { LessTransitive(a[1..], b[1..], c[1..]); }
  }

  predicate Sorted(s: seq<string>) {
    forall i, j :: 0 <= i < j < |s| ==> Less(s[i], s[j])
  }

  function Elements(s: seq<string>): set<string> {
    set x | x in s
  }

  /** Inserts a new id at its place. */
  method Insert(s: seq<string>, x: string) returns (r: seq<string>)
    requires Sorted(s) && x !in s
    ensures Sorted(r) && Elements(r) == Elements(s) + {x}
  {
    var i := 0;
    while i < |s| && Less(s[i], x)
      invariant 0 <= i <= |s|
      invariant forall j :: 0 <= j < i ==> Less(s[j], x)
    {
      i := i + 1;
    }
    r := s[..i] + [x] + s[i..];
    forall j | i <= j < |s| ensures Less(x, s[j]) {
      LessTotal(s[i], x);
      if j > i { LessTransitive(x, s[i], s[j]); }
    }
    assert forall y :: y in r <==> y in s[..i] || y == x || y in s[i..];
    assert s == s[..i] + s[i..];
  }

  /** `NodeIDs`: the keys of the endpoint map, sorted and without repetition. */
  method NodeIds(endpoints: map<string, string>) returns (ids: seq<string>)
    ensures Sorted(ids) && Elements(ids) == endpoints.Keys
    ensures Distinct(ids)
  {
    ids := [];
    var left := endpoints.Keys;
    while left != {}
      invariant left <= endpoints.Keys
      invariant Sorted(ids) && Elements(ids) == endpoints.Keys - left
      decreases left
    {
      var id :| id in left;
      assert id !in Elements(ids);
      ids := Insert(ids, id);
      left := left - {id};
    }
    forall i, j | 0 <= i < j < |ids| ensures ids[i] != ids[j] {
      LessTotal(ids[i], ids[j]);
    }
  }

  /** The list does not depend on the order in which the map is visited. */
  lemma {:induction false} SortedUnique(a: seq<string>, b: seq<string>)
    requires Sorted(a) && Sorted(b) && Elements(a) == Elements(b)
    ensures a == b
  {
    ElementsCount(a);
    ElementsCount(b);
    if a != [] {
      assert a[0] in Elements(a);
      var i :| 0 <= i < |b| && b[i] == a[0];
      assert b[0] in Elements(b);
      var j :| 0 <= j < |a| && a[j] == b[0];
      LessTotal(a[0], b[0]);
      TailElements(a);
      TailElements(b);
      assert a[0] == b[0];
      SortedUnique(a[1..], b[1..]);
      assert a == [a[0]] + a[1..] && b == [b[0]] + b[1..];
    }
  }

  lemma {:induction false} ElementsCount(a: seq<string>)
    requires Sorted(a)
    ensures |Elements(a)| == |a|
  {
    if a == [] {
      assert Elements(a) == {};
    } else {
      TailElements(a);
      ElementsCount(a[1..]);
      assert a[0] in Elements(a);
    }
  }

  lemma TailElements(a: seq<string>)
    requires Sorted(a) && a != []
    ensures Elements(a[1..]) == Elements(a) - {a[0]}
  {
    forall x ensures x in a[1..] <==> x in a && x != a[0] {
      if x in a[1..] {
        var i :| 1 <= i < |a| && a[i] == x;
        LessTotal(a[0], a[i]);
      }
    }
  }
}
