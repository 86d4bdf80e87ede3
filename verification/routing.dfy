/** Role-aware routing across model providers. */
module Routing {
  datatype Route = Route(name: string, roles: set<string>)

  /** The routes that name the role, or every route when none does. */
  function Pool(routes: seq<Route>, role: string): (pool: seq<Route>)
    ensures routes != [] ==> pool != []
  {
    var explicit := Naming(routes, role);
    if explicit == [] then routes else explicit
  }

  function Naming(routes: seq<Route>, role: string): seq<Route> {
    if routes == [] then []
    else (if role in routes[0].roles then [routes[0]] else []) + Naming(routes[1..], role)
  }

  lemma {:induction false} NamingExact(routes: seq<Route>, role: string)
    ensures forall r :: r in Naming(routes, role) <==> r in routes && role in r.roles
    ensures |Naming(routes, role)| <= |routes|
  {
    if routes != [] {
      NamingExact(routes[1..], role);
      assert routes == [routes[0]] + routes[1..];
    }
  }

  lemma {:induction false} NamingInOrder(first: seq<Route>, second: seq<Route>, role: string)
    ensures Naming(first + second, role) == Naming(first, role) + Naming(second, role)
  {
    if first == [] {
      assert first + second == second;
    } else {
      NamingInOrder(first[1..], second, role);
      assert (first + second)[1..] == first[1..] + second;
    }
  }

  /** The pool of a role: the routes that name it, or all of them when none does. */
  lemma PoolExact(routes: seq<Route>, role: string)
    ensures (exists r :: r in routes && role in r.roles) ==>
      forall r :: r in Pool(routes, role) <==> r in routes && role in r.roles
    ensures (forall r :: r in routes ==> role !in r.roles) ==> Pool(routes, role) == routes
  {
    hide Naming;
    NamingExact(routes, role);
    if r :| r in routes && role in r.roles {
      assert r in Naming(routes, role);
    }
    var named := Naming(routes, role);
    if named != [] {
      assert named[0] in named;
    }
  }

  /** The route a request gets when the shared counter stands at `counter`. */
  function Picked(routes: seq<Route>, role: string, counter: nat): Route
    requires routes != []
  {
    var pool := Pool(routes, role);
    pool[counter % |pool|]
  }

  class RoutingProvider {
    const routes: seq<Route>
    var counter: nat
    var lastRoute: string

    constructor (routes: seq<Route>)
      requires routes != []
      ensures this.routes == routes && counter == 0 && lastRoute == ""
    {
      this.routes := routes;
      counter := 0;
      lastRoute := "";
    }

    /** `_select`: the shared counter picks from the pool and advances, whichever pool it was. */
    method Select(role: string) returns (route: Route)
      requires routes != []
      modifies this`counter, this`lastRoute
      ensures route == Picked(routes, role, old(counter))
      ensures counter == old(counter) + 1 && lastRoute == route.name
    {
      var pool := Pool(routes, role);
      route := pool[counter % |pool|];
      counter := counter + 1;
      lastRoute := route.name;
    }

    /** Any requests in a row: each takes the shared counter modulo the size of its own pool. */
    method SelectMany(roles: seq<string>) returns (chosen: seq<Route>)
      requires routes != []
      modifies this`counter, this`lastRoute
      ensures |chosen| == |roles| && counter == old(counter) + |roles|
      ensures forall i :: 0 <= i < |roles| ==> chosen[i] == Picked(routes, roles[i], old(counter) + i)
    {
      hide Pool, Picked;
      chosen := [];
      for i := 0 to |roles|
        invariant counter == old(counter) + i && |chosen| == i
        invariant forall k :: 0 <= k < i ==> chosen[k] == Picked(routes, roles[k], old(counter) + k)
      {
        var route := Select(roles[i]);
        chosen := chosen + [route];
      }
    }

    /** Two roles that take turns, each with a pool of two: both always get the same route, however long
        they go on, and never the other one. */
    method AlternationStarves(roleA: string, roleB: string, n: nat) returns (forA: seq<Route>, forB: seq<Route>)
      requires routes != [] && |Pool(routes, roleA)| == |Pool(routes, roleB)| == 2
      modifies this`counter, this`lastRoute
      ensures |forA| == |forB| == n
      ensures forall i :: 0 <= i < n ==> forA[i] == Pool(routes, roleA)[old(counter) % 2]
      ensures forall i :: 0 <= i < n ==> forB[i] == Pool(routes, roleB)[(old(counter) + 1) % 2]
    {
      hide Pool, Picked;
      forA, forB := [], [];
      for i := 0 to n
        invariant counter == old(counter) + 2 * i && |forA| == |forB| == i
        invariant forall k :: 0 <= k < i ==> forA[k] == Pool(routes, roleA)[old(counter) % 2]
        invariant forall k :: 0 <= k < i ==> forB[k] == Pool(routes, roleB)[(old(counter) + 1) % 2]
      {
        var a := Select(roleA);
        var b := Select(roleB);
        PickedOfTwo(routes, roleA, old(counter), i);
        PickedOfTwo(routes, roleB, old(counter) + 1, i);
        forA, forB := forA + [a], forB + [b];
      }
    }
  }

  lemma PickedOfTwo(routes: seq<Route>, role: string, counter: nat, i: nat)
    requires routes != [] && |Pool(routes, role)| == 2
    ensures Picked(routes, role, counter + 2 * i) == Pool(routes, role)[counter % 2]
  {
    hide Pool;
  }

  /** Pool indices taken by `n` requests to a pool of `k`, one in every `m` requests, from counter `start`. */
  function Visits(start: nat, m: nat, n: nat, k: nat): seq<nat>
    requires k > 0
  {
    if n == 0 then [] else Visits(start, m, n - 1, k) + [VisitedAt(start, m, n - 1, k)]
  }

  function VisitedAt(start: nat, m: nat, i: nat, k: nat): nat
    requires k > 0
  {
    (start + m * i) % k
  }

  lemma {:induction false} VisitsListed(start: nat, m: nat, n: nat, k: nat)
    requires k > 0
    ensures |Visits(start, m, n, k)| == n
    ensures forall i :: 0 <= i < n ==> Visits(start, m, n, k)[i] == VisitedAt(start, m, i, k)
  {
    if n > 0 {
      VisitsListed(start, m, n - 1, k);
    }
  }

  /** Position of the i-th request of a role that comes back every `m` requests. */
  function Turn(first: nat, m: nat, i: nat): nat {
    first + m * i
  }

  /** The routes such a role gets are the visits to its pool. */
  lemma TurnsAreVisits(routes: seq<Route>, roles: seq<string>, counter: nat, chosen: seq<Route>,
                       pool: seq<Route>, first: nat, m: nat, n: nat)
    requires routes != [] && pool != [] && |chosen| == |roles|
    requires forall i :: 0 <= i < |roles| ==> chosen[i] == Picked(routes, roles[i], counter + i)
    requires forall i :: 0 <= i < n ==> Turn(first, m, i) < |roles| && Pool(routes, roles[Turn(first, m, i)]) == pool
    ensures forall i :: 0 <= i < n ==>
      chosen[Turn(first, m, i)] == pool[VisitedAt(counter + first, m, i, |pool|)]
  {
    hide Pool;
    forall i | 0 <= i < n
      ensures chosen[Turn(first, m, i)] == pool[VisitedAt(counter + first, m, i, |pool|)]
    {
      assert counter + Turn(first, m, i) == counter + first + m * i;
    }
  }

  function Count(chosen: seq<nat>, route: nat): nat {
    if chosen == [] then 0
    else Count(chosen[..|chosen| - 1], route) + if chosen[|chosen| - 1] == route then 1 else 0
  }

  /** How far route `route` is ahead of the counter, around the ring. */
  function Offset(start: nat, route: nat, k: nat): nat
    requires k > 0 && route < k
  {
    (route + k - start % k) % k
  }

  lemma ReachesRoute(start: nat, i: nat, route: nat, k: nat)
    requires k > 0 && route < k
    ensures (start + i) % k == route <==> i % k == Offset(start, route, k)
  {
    var s, r := start % k, i % k;
    ModSum(start, i, k);
    SmallMod(s + r, k);
    SmallMod(route + k - s, k);
  }

  lemma SmallMod(a: nat, k: nat)
    requires k > 0 && a < 2 * k
    ensures a % k == if a < k then a else a - k
  {
    if a < k {
      Euclid(a, 0, k);
    } else {
      Euclid(a, 1, k);
    }
  }

  lemma Euclid(a: int, q: int, k: nat)
    requires k > 0 && 0 <= a - q * k < k
    ensures a / k == q && a % k == a - q * k
  {
    var e := a / k - q;
    assert a == (a / k) * k + a % k;
    assert e * k == (a / k) * k - q * k;
    Multiple(e, k);
  }

  lemma Multiple(e: int, k: int)
    requires k > 0
    ensures e >= 1 ==> e * k >= k
    ensures e <= -1 ==> e * k <= 0 - k
  {
  }

  lemma ModSum(a: nat, b: nat, k: nat)
    requires k > 0
    ensures (a + b) % k == (a % k + b % k) % k
  {
    var q := a / k + b / k;
    assert a + b == q * k + (a % k + b % k);
    var r := a % k + b % k;
    if r < k {
      Euclid(a + b, q, k);
      Euclid(r, 0, k);
    } else {
      assert (q + 1) * k == q * k + k;
      Euclid(a + b, q + 1, k);
      Euclid(r, 1, k);
    }
  }

  /** Quotient and remainder of the successor. */
  lemma Successor(n: nat, k: nat)
    requires k > 0
    ensures if n % k + 1 < k then (n + 1) / k == n / k && (n + 1) % k == n % k + 1
            else (n + 1) / k == n / k + 1 && (n + 1) % k == 0
  {
    var q, r := n / k, n % k;
    assert n == q * k + r;
    if r + 1 < k {
      Euclid(n + 1, q, k);
    } else {
      assert (q + 1) * k == q * k + k;
      Euclid(n + 1, q + 1, k);
    }
  }

  lemma Ceiling(n: nat, k: nat)
    requires k > 0
    ensures (n + k - 1) / k == n / k + if n % k > 0 then 1 else 0
  {
    var q, r := n / k, n % k;
    assert n == q * k + r;
    assert (q + 1) * k == q * k + k;
    Euclid(n + k - 1, if r > 0 then q + 1 else q, k);
  }

  lemma {:induction false} VisitsSnoc(start: nat, m: nat, n: nat, route: nat, k: nat)
    requires k > 0 && n > 0
    ensures Count(Visits(start, m, n, k), route)
         == Count(Visits(start, m, n - 1, k), route) + if VisitedAt(start, m, n - 1, k) == route then 1 else 0
  {
    var before := Visits(start, m, n - 1, k);
    assert Visits(start, m, n, k)[..|before|] == before;
  }

  /** The share of a route at distance `offset` after `n` requests. */
  function Share(n: nat, k: nat, offset: nat): nat
    requires k > 0
  {
    n / k + if offset < n % k then 1 else 0
  }

  lemma ShareStep(n: nat, k: nat, offset: nat)
    requires offset < k
    ensures Share(n + 1, k, offset) == Share(n, k, offset) + if n % k == offset then 1 else 0
  {
    Successor(n, k);
  }

  lemma ShareOfNone(k: nat, offset: nat)
    requires offset < k
    ensures Share(0, k, offset) == 0
  {
    Euclid(0, 0, k);
  }

  /** If a route is hit once in every `p` visits, its count is its share of them. */
  lemma {:induction false} PeriodicCount(start: nat, m: nat, n: nat, route: nat, k: nat, p: nat, offset: nat)
    requires k > 0 && offset < p
    requires forall i: nat :: VisitedAt(start, m, i, k) == route <==> i % p == offset
    ensures Count(Visits(start, m, n, k), route) == Share(n, p, offset)
  {
    hide VisitedAt, Share;
    if n == 0 {
      ShareOfNone(p, offset);
    } else {
      PeriodicCount(start, m, n - 1, route, k, p, offset);
      VisitsSnoc(start, m, n, route, k);
      assert VisitedAt(start, m, n - 1, k) == route <==> (n - 1) % p == offset;
      ShareStep(n - 1, p, offset);
    }
  }

  /** Exact count for requests in a row: `n / k`, plus one for the first `n % k` routes after the counter. */
  lemma CountExact(start: nat, n: nat, route: nat, k: nat)
    requires k > 0 && route < k
    ensures Count(Visits(start, 1, n, k), route) == Share(n, k, Offset(start, route, k))
  {
    hide Offset, Share, Visits, Count;
    OffsetBelow(start, route, k);
    forall i: nat ensures VisitedAt(start, 1, i, k) == route <==> i % k == Offset(start, route, k) {
      ReachesRoute(start, i, route, k);
      assert 1 * i == i;
    }
    PeriodicCount(start, 1, n, route, k, k, Offset(start, route, k));
  }

  lemma OffsetBelow(start: nat, route: nat, k: nat)
    requires k > 0 && route < k
    ensures Offset(start, route, k) < k
  {
  }

  predicate FairCount(count: nat, n: nat, k: nat)
    requires k > 0
  {
    count == n / k || count == (n + k - 1) / k
  }

  /** Fairness: over any window of `n` requests in a row to one pool, every route is chosen floor(n/k)
      or ceil(n/k) times, wherever the counter starts. */
  lemma WindowFair(start: nat, n: nat, route: nat, k: nat)
    requires k > 0 && route < k
    ensures FairCount(Count(Visits(start, 1, n, k), route), n, k)
  {
    hide Offset, Visits, Count;
    CountExact(start, n, route, k);
    Ceiling(n, k);
    OffsetBelow(start, route, k);
  }

  // ----- pools visited at a fixed rhythm -----

  function Gcd(a: nat, b: nat): (g: nat)
    requires b > 0
    ensures 0 < g <= b
    decreases b
  {
    if a % b == 0 then b else Gcd(b, a % b)
  }

  lemma {:induction false} GcdDivides(a: nat, b: nat) returns (p: nat, q: nat)
    requires b > 0
    ensures a == Gcd(a, b) * p && b == Gcd(a, b) * q && q > 0
    decreases b
  {
    if a % b == 0 {
      p, q := a / b, 1;
    } else {
      var p1, q1 := GcdDivides(b, a % b);
      var g := Gcd(a, b);
      p, q := p1 * (a / b) + q1, p1;
      Combine(g, b, p1, a % b, q1, a / b);
    }
  }

  lemma Combine(g: int, b: int, p: int, r: int, q: int, c: int)
    requires b == g * p && r == g * q
    ensures b * c + r == g * (p * c + q)
  {
    assert (g * p) * c == g * (p * c);
  }

  lemma {:induction false} Bezout(a: nat, b: nat) returns (x: int, y: int)
    requires b > 0
    ensures a * x + b * y == Gcd(a, b)
    decreases b
  {
    if a % b == 0 {
      x, y := 0, 1;
    } else {
      var x1, y1 := Bezout(b, a % b);
      var q := a / b;
      x, y := y1, x1 - q * y1;
      calc {
        a * x + b * y;
        a * y1 + b * (x1 - q * y1);
        a * y1 + b * x1 - b * (q * y1);
        { assert a == b * q + a % b; assert (b * q + a % b) * y1 == b * (q * y1) + (a % b) * y1; }
        b * x1 + (a % b) * y1;
        Gcd(a, b);
      }
    }
  }

  /** Equal remainders mean a multiple apart. */
  lemma SameRemainder(a: int, b: int, k: nat) returns (t: int)
    requires k > 0
    ensures a % k == b % k ==> a - b == k * t
  {
    t := a / k - b / k;
    assert k * t == k * (a / k) - k * (b / k);
  }

  lemma AddMultiple(a: int, t: int, k: nat)
    requires k > 0
    ensures (a + k * t) % k == a % k
  {
    var q := a / k + t;
    assert q * k == (a / k) * k + k * t;
    Euclid(a + k * t, q, k);
  }

  /** A route that is hit at all lies a multiple of the common divisor away from the counter. */
  lemma HitIsCongruent(start: nat, m: nat, i: nat, route: nat, k: nat)
    requires k > 0 && VisitedAt(start, m, i, k) == route
    ensures (route - start) % Gcd(m, k) == 0
  {
    hide Gcd;
    var g := Gcd(m, k);
    var p, q := GcdDivides(m, k);
    var t := (start + m * i) / k;
    assert start + m * i == k * t + route;
    assert m * i == g * (p * i) by {
      assert (g * p) * i == g * (p * i);
    }
    assert k * t == g * (q * t) by {
      assert (g * q) * t == g * (q * t);
    }
    var u := p * i - q * t;
    assert route - start == 0 + g * u by {
      assert g * u == g * (p * i) - g * (q * t);
    }
    AddMultiple(0, u, g);
  }

  /** Conversely, such a route is hit at the visit `root`, if visits are counted backwards as well. */
  lemma Root(start: nat, m: nat, route: nat, k: nat) returns (root: int, t: int)
    requires k > 0 && (route - start) % Gcd(m, k) == 0
    ensures start + m * root == route + k * t
  {
    var g := Gcd(m, k);
    var x, y := Bezout(m, k);
    var c := (route - start) / g;
    root, t := x * c, -(y * c);
    calc {
      m * root;
      (m * x) * c;
      (g - k * y) * c;
      g * c - (k * y) * c;
      route - start + k * t;
    }
  }

  /** Visits a period apart take the same route, and no others do. */
  lemma PeriodExactly(m: nat, k: nat, d: int)
    requires k > 0
    ensures k == Gcd(m, k) * (k / Gcd(m, k)) && k / Gcd(m, k) > 0
    ensures (m * d) % k == 0 <==> d % (k / Gcd(m, k)) == 0
  {
    hide Gcd;
    var g := Gcd(m, k);
    var m1, p := GcdDivides(m, k);
    assert k / g == p by {
      assert p * g == k;
      Euclid(k, p, g);
    }
    if d % p == 0 {
      WholePeriods(g, m1, p, d);
    }
    if (m * d) % k == 0 {
      OnlyWholePeriods(m, k, p, d);
    }
  }

  lemma WholePeriods(g: nat, m1: nat, p: nat, d: int)
    requires g > 0 && p > 0 && d % p == 0
    ensures g * p > 0 && ((g * m1) * d) % (g * p) == 0
  {
    var e := d / p;
    assert d == p * e;
    Multiple(p, g);
    calc {
      (g * m1) * d;
      g * (m1 * (p * e));
      { assert m1 * (p * e) == p * (m1 * e); }
      g * (p * (m1 * e));
      0 + (g * p) * (m1 * e);
    }
    AddMultiple(0, m1 * e, g * p);
  }

  lemma OnlyWholePeriods(m: nat, k: nat, p: nat, d: int)
    requires k > 0 && p > 0 && k == Gcd(m, k) * p && (m * d) % k == 0
    ensures d % p == 0
  {
    hide Gcd;
    var g := Gcd(m, k);
    var t := (m * d) / k;
    assert m * d == k * t;
    var x, y := Bezout(m, k);
    var u := x * t + y * d;
    calc {
      g * d;
      { assert m * x + k * y == g; }
      (m * x + k * y) * d;
      { assert (m * x) * d == x * (m * d); assert (k * y) * d == k * (y * d); }
      x * (k * t) + k * (y * d);
      { assert x * (k * t) == k * (x * t); }
      k * (x * t) + k * (y * d);
      k * u;
      { assert (g * p) * u == g * (p * u); }
      g * (p * u);
    }
    Cancel(g, d, p * u);
    AddMultiple(0, u, p);
  }

  lemma Cancel(g: nat, a: int, b: int)
    requires g > 0 && g * a == g * b
    ensures a == b
  {
    assert g * (a - b) == 0;
    Multiple(a - b, g);
  }

  /** A route that can be hit is hit once in every `k / gcd(m, k)` visits. */
  lemma HitsPeriodically(start: nat, m: nat, route: nat, k: nat) returns (offset: nat)
    requires k > 0 && route < k && (route - start) % Gcd(m, k) == 0
    ensures offset < k / Gcd(m, k)
    ensures forall i: nat :: VisitedAt(start, m, i, k) == route <==> i % (k / Gcd(m, k)) == offset
  {
    hide Gcd;
    var root, t := Root(start, m, route, k);
    PeriodExactly(m, k, 0);
    var p := k / Gcd(m, k);
    offset := root % p;
    forall i: nat ensures VisitedAt(start, m, i, k) == route <==> i % p == offset {
      PeriodExactly(m, k, i - root);
      assert m * (i - root) == m * i - m * root;
      assert start + m * i == route + k * t + m * (i - root);
      SameAsZero(route + k * t + m * (i - root), route, t, m * (i - root), k);
      DifferenceMod(i, root, p);
    }
  }

  lemma SameAsZero(a: int, route: nat, t: int, d: int, k: nat)
    requires k > 0 && route < k && a == route + k * t + d
    ensures a % k == route <==> d % k == 0
  {
    Euclid(route, 0, k);
    AddMultiple(route, t, k);
    AddMultiple(route + d, t, k);
    assert a % k == (route + d) % k;
    DifferenceMod(route + d, route, k);
  }

  lemma DifferenceMod(a: int, b: int, k: nat)
    requires k > 0
    ensures a % k == b % k <==> (a - b) % k == 0
  {
    var t := SameRemainder(a, b, k);
    if a % k == b % k {
      AddMultiple(0, t, k);
    }
    if (a - b) % k == 0 {
      AddMultiple(b, (a - b) / k, k);
    }
  }

  /** Exact count for a pool of `k` visited every `m` requests. */
  lemma VisitCount(start: nat, m: nat, n: nat, route: nat, k: nat) returns (offset: nat)
    requires k > 0 && route < k
    ensures (route - start) % Gcd(m, k) == 0 ==>
      offset < k / Gcd(m, k) && Count(Visits(start, m, n, k), route) == Share(n, k / Gcd(m, k), offset)
    ensures (route - start) % Gcd(m, k) != 0 ==> Count(Visits(start, m, n, k), route) == 0
  {
    hide Gcd, VisitedAt, Share, Visits, Count;
    if (route - start) % Gcd(m, k) == 0 {
      offset := HitsPeriodically(start, m, route, k);
      PeriodicCount(start, m, n, route, k, k / Gcd(m, k), offset);
    } else {
      offset := 0;
      NeverHit(start, m, n, route, k);
    }
  }

  lemma {:induction false} NeverHit(start: nat, m: nat, n: nat, route: nat, k: nat)
    requires k > 0 && (route - start) % Gcd(m, k) != 0
    ensures Count(Visits(start, m, n, k), route) == 0
  {
    hide Gcd, VisitedAt;
    if n > 0 {
      NeverHit(start, m, n - 1, route, k);
      VisitsSnoc(start, m, n, route, k);
      if VisitedAt(start, m, n - 1, k) == route {
        HitIsCongruent(start, m, n - 1, route, k);
      }
    }
  }

  /** A route of the pool is ever taken exactly when the common divisor divides its distance to the counter. */
  lemma ReachedExactly(start: nat, m: nat, route: nat, k: nat)
    requires k > 0 && route < k
    ensures (exists i: nat :: VisitedAt(start, m, i, k) == route) <==> (route - start) % Gcd(m, k) == 0
  {
    hide Gcd, VisitedAt;
    if i: nat :| VisitedAt(start, m, i, k) == route {
      HitIsCongruent(start, m, i, route, k);
    }
    if (route - start) % Gcd(m, k) == 0 {
      var offset := HitsPeriodically(start, m, route, k);
      Euclid(offset, 0, k / Gcd(m, k));
      assert VisitedAt(start, m, offset, k) == route;
    }
  }

  ghost predicate FairVisits(start: nat, m: nat, k: nat)
    requires k > 0
  {
    forall n: nat, route: nat :: route < k ==> FairCount(Count(Visits(start, m, n, k), route), n, k)
  }

  /** The rotation is fair to a pool visited every `m` requests exactly when `m` and the size of the pool
      have no common divisor. */
  lemma FairExactly(start: nat, m: nat, k: nat)
    requires k > 0
    ensures FairVisits(start, m, k) <==> Gcd(m, k) == 1
  {
    hide Gcd, Visits, Count, FairCount;
    var g := Gcd(m, k);
    if g == 1 {
      forall n: nat, route: nat | route < k ensures FairCount(Count(Visits(start, m, n, k), route), n, k) {
        FairWhenCoprime(start, m, n, route, k);
      }
    } else {
      UnfairWhenShared(start, m, k);
    }
  }

  lemma FairWhenCoprime(start: nat, m: nat, n: nat, route: nat, k: nat)
    requires k > 0 && route < k && Gcd(m, k) == 1
    ensures FairCount(Count(Visits(start, m, n, k), route), n, k)
  {
    hide Gcd, Visits, Count;
    var offset := VisitCount(start, m, n, route, k);
    assert (route - start) % 1 == 0;
    assert k / 1 == k;
    Ceiling(n, k);
  }

  lemma UnfairWhenShared(start: nat, m: nat, k: nat)
    requires k > 0 && Gcd(m, k) > 1
    ensures !FairVisits(start, m, k)
  {
    hide Gcd, Visits, Count;
    var g := Gcd(m, k);
    var route := (start + 1) % k;
    var p, q := GcdDivides(m, k);
    var t := (start + 1) / k;
    assert route - start == 1 + g * (-(q * t)) by {
      assert k * t == g * (q * t);
    }
    AddMultiple(1, -(q * t), g);
    Euclid(1, 0, g);
    NeverHit(start, m, k, route, k);
    Euclid(k, 1, k);
    Euclid(k + k - 1, 1, k);
    assert !FairCount(Count(Visits(start, m, k, k), route), k, k);
  }
}
