/** The tuner's enumeration of dispatch configurations: a solver is asked for one configuration after the other, and each
    one found is excluded from then on. */
module DispatchTuner {
  import opened Radices
  import opened Wrappers

  /** What is tuned: the sizes, the element widths, and the shapes of the compatible intrinsics. */
  datatype Problem = Problem(M: int, N: int, K: int, lhsBits: nat, rhsBits: nat, intrinsics: seq<(int, int, int)>,
                             numSubgroups: int, conv: Option<(int, int, int)>)
  {
    predicate Valid() {
      && intrinsics != []
      && forall i | 0 <= i < |intrinsics| :: intrinsics[i].0 > 0 && intrinsics[i].1 > 0 && intrinsics[i].2 > 0
    }
  }

  /** The twelve variables of the enumeration. */
  datatype Config = Config(m: int, n: int, k: int, subgroupSize: int, intrinsicMN: int, intrinsicK: int,
                           wgX: int, wgY: int, wgZ: int, subgroupM: int, subgroupN: int, wavesPerEU: int)

  /** The variables that only the constraints mention. */
  datatype Auxiliary = Auxiliary(wgThreads: int, tilesM: int, tilesN: int, tilesK: int)

  /** Division by zero leaves the solver free. */
  predicate Divides(d: int, x: int) {
    d != 0 ==> x % d == 0
  }

  predicate Intrinsic(p: Problem, c: Config) {
    exists i | 0 <= i < |p.intrinsics| :: p.intrinsics[i] == (c.intrinsicMN, c.intrinsicMN, c.intrinsicK)
  }

  function SharedMemory(p: Problem, m: int, n: int, k: int): int {
    m * k * (p.lhsBits / 8) + k * n * (p.rhsBits / 8)
  }

  predicate TileConstraints(p: Problem, c: Config) {
    && c.intrinsicMN <= c.m <= 512 && c.m <= p.M
    && c.intrinsicMN <= c.n <= 512 && c.n <= p.N && Divides(c.n, p.N)
    && c.intrinsicK <= c.k <= 512 && c.k <= p.K && Divides(c.k, p.K)
    && Divides(c.intrinsicMN, c.k)
    && SharedMemory(p, c.m, c.n, c.k) <= 65536
    && (p.conv.Some? ==> c.m <= p.conv.value.0 && c.n <= p.conv.value.1 && c.k <= p.conv.value.2)
  }

  predicate GroupConstraints(p: Problem, c: Config, a: Auxiliary) {
    && a.wgThreads == c.wgX * c.wgY * c.wgZ && c.subgroupSize == 64 && a.wgThreads <= 1024
    && 1 <= c.subgroupM <= 32 && 1 <= c.subgroupN <= 32
    && c.wgX == c.subgroupSize * c.subgroupN && c.wgY == c.subgroupM && c.wgZ == 1
    && (c.wgX <= c.n || c.wgX <= c.m)
    && Divides(a.wgThreads, c.k * c.n) && Divides(a.wgThreads, c.k * c.m)
    && (if p.numSubgroups > 0 then c.subgroupM * c.subgroupN == p.numSubgroups else 1 <= c.subgroupM * c.subgroupN <= 10)
    && c.wavesPerEU == 2
  }

  predicate CountConstraints(c: Config, a: Auxiliary) {
    && 1 <= a.tilesM <= 32 && 1 <= a.tilesN <= 32 && 1 <= a.tilesK <= 32
    && c.m == c.subgroupM * a.tilesM * c.intrinsicMN
    && c.n == c.subgroupN * a.tilesN * c.intrinsicMN
    && c.k == 1 * a.tilesK * c.intrinsicK
  }

  /** All constraints the solver is given at the start. */
  predicate Constraints(p: Problem, c: Config, a: Auxiliary) {
    Intrinsic(p, c) && TileConstraints(p, c) && GroupConstraints(p, c, a) && CountConstraints(c, a)
  }

  ghost predicate Solution(p: Problem, c: Config) {
    exists a :: Constraints(p, c, a)
  }

  // ---- The auxiliary variables ----

  lemma LessFactors(x: int, y: int, t: int, u: int)
    requires x > 0 && y > 0 && t < u
    ensures x * t * y < x * u * y
  {
    assert x * t < x * u;
  }

  lemma CancelFactors(x: int, y: int, t: int, u: int)
    requires x > 0 && y > 0 && x * t * y == x * u * y
    ensures t == u
  {
    if t < u {
      LessFactors(x, y, t, u);
    } else if u < t {
      LessFactors(x, y, u, t);
    }
  }

  /** A configuration determines the auxiliary variables, so excluding it excludes no other configuration. */
  lemma AuxiliaryUnique(p: Problem, c: Config, a: Auxiliary, b: Auxiliary)
    requires p.Valid() && Constraints(p, c, a) && Constraints(p, c, b)
    ensures a == b
  {
    CancelFactors(c.subgroupM, c.intrinsicMN, a.tilesM, b.tilesM);
    CancelFactors(c.subgroupN, c.intrinsicMN, a.tilesN, b.tilesN);
    CancelFactors(1, c.intrinsicK, a.tilesK, b.tilesK);
  }

  // ---- What a solution is good for ----

  /** The promises of a configuration to the compiler. */
  ghost predicate Sound(p: Problem, c: Config) {
    var threads := c.wgX * c.wgY * c.wgZ;
    && Intrinsic(p, c) && c.intrinsicMN > 0 && c.intrinsicK > 0
    && 0 < threads <= 1024 && threads == 64 * (c.subgroupM * c.subgroupN)
    && (if p.numSubgroups > 0 then c.subgroupM * c.subgroupN == p.numSubgroups else c.subgroupM * c.subgroupN <= 10)
    && 0 < c.m <= p.M && 0 < c.n <= p.N && 0 < c.k <= p.K
    && p.N % c.n == 0 && p.K % c.k == 0
    && c.m % c.intrinsicMN == 0 && c.n % c.intrinsicMN == 0 && c.k % c.intrinsicK == 0 && c.k % c.intrinsicMN == 0
    && (c.k * c.n) % threads == 0 && (c.k * c.m) % threads == 0
    && SharedMemory(p, c.m, c.n, c.k) <= 65536
    && (p.conv.Some? ==> c.m <= p.conv.value.0 && c.n <= p.conv.value.1 && c.k <= p.conv.value.2)
  }

  lemma MultipleDivides(x: nat, y: nat)
    requires y > 0
    ensures (x * y) % y == 0
  {
    RadixDigits(x, 0, y);
  }

  lemma TilesDivide(p: Problem, c: Config, a: Auxiliary)
    requires c.intrinsicMN > 0 && c.intrinsicK > 0 && c.subgroupM > 0 && c.subgroupN > 0 && CountConstraints(c, a)
    ensures c.m % c.intrinsicMN == 0 && c.n % c.intrinsicMN == 0 && c.k % c.intrinsicK == 0
  {
    MultipleDivides(c.subgroupM * a.tilesM, c.intrinsicMN);
    MultipleDivides(c.subgroupN * a.tilesN, c.intrinsicMN);
    MultipleDivides(1 * a.tilesK, c.intrinsicK);
  }

  lemma Threads(p: Problem, c: Config, a: Auxiliary)
    requires GroupConstraints(p, c, a)
    ensures 0 < a.wgThreads == 64 * (c.subgroupM * c.subgroupN)
  {
    assert c.wgX * c.wgY * c.wgZ == c.wgX * c.wgY;
    assert 64 * c.subgroupN * c.subgroupM == 64 * (c.subgroupM * c.subgroupN);
  }

  lemma SolutionSound(p: Problem, c: Config)
    requires p.Valid() && Solution(p, c)
    ensures Sound(p, c)
  {
    var a :| Constraints(p, c, a);
    TilesDivide(p, c, a);
    Threads(p, c, a);
  }

  // ---- The constraints without auxiliary variables ----

  /** At most 32 tiles of the given size make up the whole. */
  predicate Tiled(whole: int, tile: int) {
    tile > 0 && whole % tile == 0 && 1 <= whole / tile <= 32
  }

  /** What a solution is, in the twelve variables of the enumeration alone. */
  predicate Meets(p: Problem, c: Config) {
    var groups := c.subgroupM * c.subgroupN;
    && (c.intrinsicMN, c.intrinsicMN, c.intrinsicK) in p.intrinsics
    && c.m <= 512 && c.n <= 512 && c.k <= 512 && c.m <= p.M && c.n <= p.N && c.k <= p.K
    && Tiled(c.m, c.subgroupM * c.intrinsicMN) && Tiled(c.n, c.subgroupN * c.intrinsicMN) && Tiled(c.k, c.intrinsicK)
    && p.N % c.n == 0 && p.K % c.k == 0 && c.k % c.intrinsicMN == 0
    && c.m * c.k * (p.lhsBits / 8) + c.k * c.n * (p.rhsBits / 8) <= 65536
    && 1 <= c.subgroupM <= 32 && 1 <= c.subgroupN <= 32 && groups <= 16
    && (if p.numSubgroups > 0 then groups == p.numSubgroups else groups <= 10)
    && c.subgroupSize == 64 && c.wgX == 64 * c.subgroupN && c.wgY == c.subgroupM && c.wgZ == 1 && c.wavesPerEU == 2
    && (64 * c.subgroupN <= c.n || 64 * c.subgroupN <= c.m)
    && (c.k * c.n) % (64 * groups) == 0 && (c.k * c.m) % (64 * groups) == 0
    && (p.conv.Some? ==> c.m <= p.conv.value.0 && c.n <= p.conv.value.1 && c.k <= p.conv.value.2)
  }

  lemma TilesOf(whole: int, groups: int, tiles: int, tile: int)
    requires groups > 0 && tile > 0 && 1 <= tiles <= 32 && whole == groups * tiles * tile
    ensures Tiled(whole, groups * tile) && whole / (groups * tile) == tiles && whole >= tile
  {
    assert groups * tile >= tile;
    assert whole == tiles * (groups * tile);
    RadixDigits(tiles, 0, groups * tile);
    assert tiles * (groups * tile) >= groups * tile;
  }

  lemma TiledBy(whole: int, groups: int, tile: int)
    requires groups > 0 && tile > 0 && Tiled(whole, groups * tile)
    ensures whole == groups * (whole / (groups * tile)) * tile && whole >= tile
  {
    var tiles := whole / (groups * tile);
    assert whole == tiles * (groups * tile) == groups * tiles * tile;
    TilesOf(whole, groups, tiles, tile);
  }

  lemma IntrinsicIn(p: Problem, c: Config)
    requires p.Valid()
    ensures Intrinsic(p, c) <==> (c.intrinsicMN, c.intrinsicMN, c.intrinsicK) in p.intrinsics
    ensures Intrinsic(p, c) ==> c.intrinsicMN > 0 && c.intrinsicK > 0
  {
  }

  lemma ThreadCount(c: Config)
    requires c.wgX == 64 * c.subgroupN && c.wgY == c.subgroupM && c.wgZ == 1
    ensures c.wgX * c.wgY * c.wgZ == 64 * (c.subgroupM * c.subgroupN)
  {
    assert 64 * c.subgroupN * c.subgroupM == 64 * (c.subgroupM * c.subgroupN);
  }

  lemma SolutionMeets(p: Problem, c: Config, a: Auxiliary)
    requires p.Valid() && Constraints(p, c, a)
    ensures Meets(p, c)
  {
    IntrinsicIn(p, c);
    ThreadCount(c);
    TilesOf(c.m, c.subgroupM, a.tilesM, c.intrinsicMN);
    TilesOf(c.n, c.subgroupN, a.tilesN, c.intrinsicMN);
    TilesOf(c.k, 1, a.tilesK, c.intrinsicK);
  }

  lemma MeetsSolution(p: Problem, c: Config)
    requires p.Valid() && Meets(p, c)
    ensures Solution(p, c)
  {
    IntrinsicIn(p, c);
    ThreadCount(c);
    TiledBy(c.m, c.subgroupM, c.intrinsicMN);
    TiledBy(c.n, c.subgroupN, c.intrinsicMN);
    TiledBy(c.k, 1, c.intrinsicK);
    GroupsPositive(c.subgroupM, c.subgroupN);
    var a := Auxiliary(c.wgX * c.wgY * c.wgZ, c.m / (c.subgroupM * c.intrinsicMN), c.n / (c.subgroupN * c.intrinsicMN), c.k / c.intrinsicK);
    assert Constraints(p, c, a);
  }

  lemma GroupsPositive(x: int, y: int)
    requires x >= 1 && y >= 1
    ensures x * y >= 1
  {
  }

  /** The configurations for which the constraints can be met. */
  lemma SolutionExact(p: Problem, c: Config)
    requires p.Valid()
    ensures Solution(p, c) <==> Meets(p, c)
  {
    if Solution(p, c) {
      var a :| Constraints(p, c, a);
      SolutionMeets(p, c, a);
    }
    if Meets(p, c) {
      MeetsSolution(p, c);
    }
  }

  // ---- The search space ----

  function Make(m: int, n: int, k: int, mn: int, ik: int, sm: int, sn: int): Config {
    Config(m, n, k, 64, mn, ik, 64 * sn, sm, 1, sm, sn, 2)
  }

  /** A finite set that holds all solutions. */
  ghost function Candidates(): set<Config> {
    set m, n, k, mn, ik, sm, sn | 0 <= m <= 512 && 0 <= n <= 512 && 0 <= k <= 512 && 0 <= mn <= 512 && 0 <= ik <= 512
      && 1 <= sm <= 32 && 1 <= sn <= 32 :: Make(m, n, k, mn, ik, sm, sn)
  }

  lemma SolutionIsCandidate(p: Problem, c: Config)
    requires p.Valid() && Solution(p, c)
    ensures c in Candidates()
  {
    var a :| Constraints(p, c, a);
    assert c == Make(c.m, c.n, c.k, c.intrinsicMN, c.intrinsicK, c.subgroupM, c.subgroupN);
  }

  ghost function Solutions(p: Problem): set<Config>
    requires p.Valid()
  {
    set c | c in Candidates() && Solution(p, c)
  }

  // ---- The loop ----

  datatype Answer = Sat(c: Config, a: Auxiliary) | Unsat | Unknown

  /** A solver answers with some assignment that meets the constraints and is not excluded, says that there is none, or
      gives up. */
  ghost predicate Solver(p: Problem, check: seq<Config> -> Answer) {
    forall excluded :: Answers(p, excluded, check(excluded))
  }

  ghost predicate Answers(p: Problem, excluded: seq<Config>, answer: Answer) {
    match answer
    case Sat(c, a) => Constraints(p, c, a) && c !in excluded
    case Unsat => forall c | Solution(p, c) :: c in excluded
    case Unknown => true
  }

  predicate Distinct(s: seq<Config>) {
    forall i, j | 0 <= i < j < |s| :: s[i] != s[j]
  }

  lemma AnswerIsSolution(p: Problem, excluded: seq<Config>, answer: Answer)
    requires p.Valid() && Answers(p, excluded, answer) && answer.Sat?
    ensures answer.c in Solutions(p) && answer.c !in excluded
  {
    assert Constraints(p, answer.c, answer.a);
    SolutionIsCandidate(p, answer.c);
  }

  lemma AllYielded(p: Problem, yielded: seq<Config>, answer: Answer)
    requires p.Valid() && Answers(p, yielded, answer) && answer.Unsat? && Distinct(yielded)
    requires forall c | c in yielded :: c in Solutions(p)
    ensures (forall c :: c in yielded <==> Solution(p, c)) && |yielded| == |Solutions(p)|
  {
    forall c | Solution(p, c) ensures c in Solutions(p) {
      SolutionIsCandidate(p, c);
    }
    assert Members(yielded) == Solutions(p);
    DistinctSize(yielded);
  }

  /** Yields sound configurations, none of them twice, and ends; unless the solver gave up, it yields all of them. */
  method GenerateSolutions(p: Problem, check: seq<Config> -> Answer) returns (yielded: seq<Config>, gaveUp: bool)
    requires p.Valid() && Solver(p, check)
    ensures Distinct(yielded) && forall c | c in yielded :: Solution(p, c) && Sound(p, c)
    ensures !gaveUp ==> (forall c :: c in yielded <==> Solution(p, c)) && |yielded| == |Solutions(p)|
  {
    yielded := [];
    var answer := check(yielded);
    while answer.Sat?
      invariant answer == check(yielded)
      invariant Distinct(yielded) && forall c | c in yielded :: c in Solutions(p)
      decreases |Solutions(p) - Members(yielded)|
    {
      assert Answers(p, yielded, check(yielded));
      AnswerIsSolution(p, yielded, answer);
      FewerLeft(Solutions(p), yielded, answer.c);
      AppendDistinct(yielded, answer.c);
      yielded := yielded + [answer.c];
      answer := check(yielded);
    }
    assert Answers(p, yielded, check(yielded));
    gaveUp := answer.Unknown?;
    if !gaveUp {
      AllYielded(p, yielded, answer);
    }
    forall c | c in yielded ensures Solution(p, c) && Sound(p, c) {
      SolutionSound(p, c);
    }
  }

  ghost function Members(s: seq<Config>): set<Config> {
    set c | c in s
  }

  lemma FewerLeft(all: set<Config>, s: seq<Config>, c: Config)
    requires c in all && c !in s
    ensures |all - Members(s + [c])| < |all - Members(s)|
  {
    assert all - Members(s + [c]) == (all - Members(s)) - {c};
  }

  lemma AppendDistinct(s: seq<Config>, c: Config)
    requires Distinct(s) && c !in s
    ensures Distinct(s + [c])
  {
    forall i | 0 <= i < |s| ensures s[i] != c {
    }
  }

  lemma {:induction false} DistinctSize(s: seq<Config>)
    requires Distinct(s)
    ensures |Members(s)| == |s|
  {
    if s != [] {
      var init, last := s[..|s| - 1], s[|s| - 1];
      DistinctSize(init);
      assert s == init + [last];
      assert Members(s) == Members(init) + {last};
    }
  }
}
