/** The instance generator of the truck-and-drone routing benchmark: a depot at
    the origin and customers drawn either inside the drone's flight disk or
    uniformly over the square map, each with a demand whose light/heavy split
    depends on the customer's realised distance from the depot.

    Every sampler is given twice: as a function of the draw stream and a start
    position (`NearFrom`, `CustomerAt`, `CustomersAt`) or of its draws
    (`PolarPoint`, `FarPoint`, `Demand`), and as a method of
    `InstanceGenerator` that consumes a `RandomSource` and is proved to agree
    with that function. */
module GenerateInstance {

  import opened RealMath
  import opened Rng

  datatype Point = Point(x: real, y: real)

  /** One customer record: coordinates, the drone-servable flag and the demand. */
  datatype Customer = Customer(x: real, y: real, dronable: int, demand: real)

  datatype Instance = Instance(depot: Point, customers: seq<Customer>)

  /** The constructor's parameters (the seed is not one: the draws are an input). */
  datatype Config = Config(
    numCustomers: int, numTrucks: int, numDrones: int,
    mapSize: real, droneEndurance: real, droneSpeed: real, truckSpeed: real,
    pNear: real, pLightNear: real, pLightFar: real,
    minDemand: real, lightMaxDemand: real, heavyMaxDemand: real)
  {
    function Radius(): real {
      DroneRadius(droneEndurance, droneSpeed)
    }

    /** Coordinates range over [-HalfSize(), HalfSize()]. */
    function HalfSize(): real {
      mapSize / 2.0
    }
  }

  /** The drone radius: the farthest a drone can fly out and come back within
      its endurance. */
  function DroneRadius(endurance: real, speed: real): (r: real)
    ensures speed != 0.0 ==> 2.0 * (r / speed) == endurance
    ensures speed == 0.0 ==> r == 0.0
    ensures 0.0 < endurance && 0.0 < speed ==> 0.0 < r
  {
    var half := endurance / 2.0;
    MulPositive(half, speed);
    half * speed
  }

  predicate InSquare(half: real, p: Point) {
    -half <= p.x <= half && -half <= p.y <= half
  }

  /** The point lies in the closed disk of the given radius around (dx, dy). */
  predicate InDisk(radius: real, dx: real, dy: real, p: Point) {
    (p.x - dx) * (p.x - dx) + (p.y - dy) * (p.y - dy) <= radius * radius
  }

  /** `_distance`: the Euclidean distance between two points. */
  function Distance(m: Math, x1: real, y1: real, x2: real, y2: real): (d: real)
    ensures Sound(m) ==> 0.0 <= d && d * d == (x1 - x2) * (x1 - x2) + (y1 - y2) * (y1 - y2)
  {
    var dx, dy := x1 - x2, y1 - y2;
    SquareNonNegative(dx);
    SquareNonNegative(dy);
    m.sqrt(dx * dx + dy * dy)
  }

  /** The realised distance is within `radius` exactly when the squared
      offsets are within `radius * radius`, for a non-negative radius. */
  lemma DistanceWithinRadius(m: Math, x: real, y: real, dx: real, dy: real, radius: real)
    ensures Sound(m) && 0.0 <= radius ==>
      (Distance(m, x, y, dx, dy) <= radius <==> InDisk(radius, dx, dy, Point(x, y)))
  {
    if Sound(m) && 0.0 <= radius {
      SquareMonotone(Distance(m, x, y, dx, dy), radius);
    }
  }

  /** One candidate of `_sample_location_near`: polar radius
      `radius * sqrt(u)` and angle `2 * pi * v` around the depot. */
  function PolarPoint(m: Math, radius: real, dx: real, dy: real, u: real, v: real): (p: Point)
    ensures Sound(m) && 0.0 <= u <= 1.0 ==> InDisk(radius, dx, dy, p)
  {
    var q := m.sqrt(u);
    var rho := radius * q;
    var theta := 2.0 * Pi * v;
    var c, s := m.cos(theta), m.sin(theta);
    var x, y := dx + rho * c, dy + rho * s;
    PolarNormBound(radius, q, u, c, s, x - dx, y - dy);
    Point(x, y)
  }

  /** Every candidate starting at positions `i`, `i + 2`, ... whose two draws
      end at or before `stop` falls outside the map. */
  ghost predicate AllRejected(cfg: Config, m: Math, draws: seq<real>, i: nat, stop: int, dx: real, dy: real)
    requires stop <= |draws|
    decreases stop - i
  {
    stop < i + 2 ||
      (!InSquare(cfg.HalfSize(), PolarPoint(m, cfg.Radius(), dx, dy, draws[i], draws[i + 1]))
       && AllRejected(cfg, m, draws, i + 2, stop, dx, dy))
  }

  /** `_sample_location_near` from position `i`: candidates are drawn two
      draws at a time and the first one inside the map is returned. */
  function NearFrom(cfg: Config, m: Math, draws: seq<real>, i: nat, dx: real, dy: real): (r: Sampled<Point>)
    ensures r.Sampled? ==> i + 2 <= r.next <= |draws| && (r.next - i) % 2 == 0
    ensures r.Sampled? ==>
      r.value == PolarPoint(m, cfg.Radius(), dx, dy, draws[r.next - 2], draws[r.next - 1])
    ensures r.Sampled? ==> InSquare(cfg.HalfSize(), r.value)
    ensures r.Sampled? && Sound(m) && UnitDraws(draws) ==> InDisk(cfg.Radius(), dx, dy, r.value)
    ensures r.Sampled? ==> AllRejected(cfg, m, draws, i, r.next - 2, dx, dy)
    ensures r.Exhausted? ==> AllRejected(cfg, m, draws, i, |draws|, dx, dy)
    decreases |draws| - i
  {
    if |draws| < i + 2 then Exhausted
    else
      var candidate := PolarPoint(m, cfg.Radius(), dx, dy, draws[i], draws[i + 1]);
      if InSquare(cfg.HalfSize(), candidate) then Sampled(candidate, i + 2)
      else NearFrom(cfg, m, draws, i + 2, dx, dy)
  }

  /** One round of the rejection loop, as `NearFrom` takes it. */
  lemma NearFromStep(cfg: Config, m: Math, draws: seq<real>, i: nat, dx: real, dy: real)
    requires i + 2 <= |draws|
    ensures var candidate := PolarPoint(m, cfg.Radius(), dx, dy, draws[i], draws[i + 1]);
      NearFrom(cfg, m, draws, i, dx, dy)
      == if InSquare(cfg.HalfSize(), candidate) then Sampled(candidate, i + 2) else NearFrom(cfg, m, draws, i + 2, dx, dy)
  {
  }

  /** `_sample_location_far` given its two draws: uniform over the map square. */
  function FarPoint(mapSize: real, u: real, v: real): (p: Point)
    ensures 0.0 <= mapSize && 0.0 <= u <= 1.0 && 0.0 <= v <= 1.0 ==> InSquare(mapSize / 2.0, p)
  {
    var half := mapSize / 2.0;
    Point(Uniform(-half, half, u), Uniform(-half, half, v))
  }

  /** The light-demand probability `_sample_demand` applies to a point: the
      near one when the realised distance is within the drone radius. */
  function LightProbability(cfg: Config, m: Math, x: real, y: real, dx: real, dy: real): (p: real)
    ensures Sound(m) && 0.0 <= cfg.Radius() && InDisk(cfg.Radius(), dx, dy, Point(x, y)) ==> p == cfg.pLightNear
    ensures Sound(m) && !InDisk(cfg.Radius(), dx, dy, Point(x, y)) ==> p == cfg.pLightFar
    ensures Sound(m) && cfg.Radius() < 0.0 ==> p == cfg.pLightFar
  {
    DistanceWithinRadius(m, x, y, dx, dy, cfg.Radius());
    if Distance(m, x, y, dx, dy) <= cfg.Radius() then cfg.pLightNear else cfg.pLightFar
  }

  /** `_sample_demand` given its two draws: `u` picks light or heavy against
      the applicable probability, `w` places the demand in that range. */
  function Demand(cfg: Config, m: Math, x: real, y: real, dx: real, dy: real, u: real, w: real): (d: real)
    ensures 0.0 <= w <= 1.0 && u < LightProbability(cfg, m, x, y, dx, dy) && cfg.minDemand <= cfg.lightMaxDemand ==>
      cfg.minDemand <= d <= cfg.lightMaxDemand
    ensures 0.0 <= w <= 1.0 && LightProbability(cfg, m, x, y, dx, dy) <= u && cfg.lightMaxDemand <= cfg.heavyMaxDemand ==>
      cfg.lightMaxDemand <= d <= cfg.heavyMaxDemand
    ensures 0.0 <= w <= 1.0 && cfg.minDemand <= cfg.lightMaxDemand <= cfg.heavyMaxDemand ==>
      cfg.minDemand <= d <= cfg.heavyMaxDemand
    ensures 0.0 <= w < 1.0 && cfg.minDemand < cfg.lightMaxDemand <= cfg.heavyMaxDemand ==>
      (d < cfg.lightMaxDemand <==> u < LightProbability(cfg, m, x, y, dx, dy))
  {
    if u < LightProbability(cfg, m, x, y, dx, dy) then Uniform(cfg.minDemand, cfg.lightMaxDemand, w)
    else Uniform(cfg.lightMaxDemand, cfg.heavyMaxDemand, w)
  }

  /** The location step of one iteration of the loop in `generate`: the draw
      at `i` chooses the near sampler when below `pNear`, else the far one. */
  function LocationAt(cfg: Config, m: Math, draws: seq<real>, i: nat): (r: Sampled<Point>)
    requires i < |draws|
    ensures r.Sampled? ==> i + 3 <= r.next <= |draws|
    ensures UnitDraws(draws) && 1.0 <= cfg.pNear ==> r == NearFrom(cfg, m, draws, i + 1, 0.0, 0.0)
    ensures UnitDraws(draws) && cfg.pNear <= 0.0 ==>
      r == if i + 3 <= |draws| then Sampled(FarPoint(cfg.mapSize, draws[i + 1], draws[i + 2]), i + 3) else Exhausted
    ensures r.Sampled? && Sound(m) && UnitDraws(draws) && draws[i] < cfg.pNear ==>
      InDisk(cfg.Radius(), 0.0, 0.0, r.value)
    ensures r.Sampled? && UnitDraws(draws) && (draws[i] < cfg.pNear || 0.0 <= cfg.mapSize) ==>
      InSquare(cfg.HalfSize(), r.value)
  {
    if draws[i] < cfg.pNear then NearFrom(cfg, m, draws, i + 1, 0.0, 0.0)
    else if |draws| < i + 3 then Exhausted
    else Sampled(FarPoint(cfg.mapSize, draws[i + 1], draws[i + 2]), i + 3)
  }

  /** One iteration of the loop in `generate` from position `i`: the region
      draw, the location, then the demand, with the depot at the origin. */
  function CustomerAt(cfg: Config, m: Math, draws: seq<real>, i: nat): (r: Sampled<Customer>)
    ensures r.Sampled? ==> i + 5 <= r.next <= |draws| && r.value.dronable == 1
    ensures r.Sampled? ==>
      r.value.demand == Demand(cfg, m, r.value.x, r.value.y, 0.0, 0.0, draws[r.next - 2], draws[r.next - 1])
  {
    if |draws| <= i then Exhausted
    else
      match LocationAt(cfg, m, draws, i)
      case Exhausted => Exhausted
      case Sampled(p, j) =>
        if |draws| < j + 2 then Exhausted
        else Sampled(Customer(p.x, p.y, 1, Demand(cfg, m, p.x, p.y, 0.0, 0.0, draws[j], draws[j + 1])), j + 2)
  }

  /** `CustomerAt` once its location step is known. */
  lemma CustomerAtStep(cfg: Config, m: Math, draws: seq<real>, i: nat)
    requires i < |draws|
    ensures match LocationAt(cfg, m, draws, i)
      case Exhausted => CustomerAt(cfg, m, draws, i) == Exhausted
      case Sampled(p, j) =>
        CustomerAt(cfg, m, draws, i)
        == if |draws| < j + 2 then Exhausted
           else Sampled(Customer(p.x, p.y, 1, Demand(cfg, m, p.x, p.y, 0.0, 0.0, draws[j], draws[j + 1])), j + 2)
  {
  }

  /** The number of iterations of `for i in range(n)`. */
  function Count(n: int): nat {
    if n < 0 then 0 else n
  }

  /** One iteration of the loop in `generate`, as a sampler of the stream. */
  function CustomerSampler(cfg: Config, m: Math, draws: seq<real>): nat -> Sampled<Customer> {
    (j: nat) => CustomerAt(cfg, m, draws, j)
  }

  /** The first `n` iterations of the loop in `generate` from position `i`:
      each reads at least five draws, and every customer is drone-servable. */
  function CustomersAt(cfg: Config, m: Math, draws: seq<real>, i: nat, n: nat): (r: Sampled<seq<Customer>>)
    requires i <= |draws|
    ensures r.Sampled? ==> |r.value| == n && i + 5 * n <= r.next <= |draws|
    ensures r.Sampled? ==> forall k :: 0 <= k < n ==> r.value[k].dronable == 1
  {
    var step := CustomerSampler(cfg, m, draws);
    RepeatBounds(step, i, n, 5, |draws|);
    RepeatAll(step, (c: Customer) => c.dronable == 1, i, n);
    Repeat(step, i, n)
  }

  /** `near_count` in `save_to_file`: customers within the radius of the depot. */
  function NearCount(m: Math, radius: real, depot: Point, cs: seq<Customer>): (n: nat)
    ensures n <= |cs|
  {
    if cs == [] then 0
    else
      var here := if Distance(m, cs[0].x, cs[0].y, depot.x, depot.y) <= radius then 1 else 0;
      here + NearCount(m, radius, depot, cs[1..])
  }

  /** `light_count` in `save_to_file`: customers whose demand is below the threshold. */
  function LightCount(lightMax: real, cs: seq<Customer>): (n: nat)
    ensures n <= |cs|
  {
    if cs == [] then 0
    else (if cs[0].demand < lightMax then 1 else 0) + LightCount(lightMax, cs[1..])
  }

  class InstanceGenerator {
    const cfg: Config
    const droneRadius: real

    ghost predicate Valid() {
      droneRadius == cfg.Radius()
    }

    /** Stores the parameters and derives the drone radius; nothing is validated. */
    constructor (cfg: Config)
      ensures this.cfg == cfg && droneRadius == DroneRadius(cfg.droneEndurance, cfg.droneSpeed)
      ensures Valid()
    {
      this.cfg := cfg;
      droneRadius := DroneRadius(cfg.droneEndurance, cfg.droneSpeed);
    }

    /** Rejection sampling within the drone disk around the depot (dx, dy). */
    method SampleLocationNear(rng: RandomSource, m: Math, dx: real, dy: real) returns (p: Option<Point>)
      requires Valid() && rng.Valid() && Sound(m)
      modifies rng
      ensures rng.Valid()
      ensures match NearFrom(cfg, m, rng.draws, old(rng.cursor), dx, dy)
        case Sampled(q, j) => p == Some(q) && rng.cursor == j
        case Exhausted => p == None && rng.cursor == |rng.draws|
      ensures p.Some? ==> InSquare(cfg.HalfSize(), p.value)
      ensures p.Some? ==> InDisk(droneRadius, dx, dy, p.value)
    {
      while true
        invariant rng.Valid()
        invariant NearFrom(cfg, m, rng.draws, rng.cursor, dx, dy) == NearFrom(cfg, m, rng.draws, old(rng.cursor), dx, dy)
        decreases |rng.draws| - rng.cursor
      {
        ghost var start := rng.cursor;
        var u := rng.Random();
        if u.None? {
          assert NearFrom(cfg, m, rng.draws, start, dx, dy) == Exhausted;
          return None;
        }
        var v := rng.Random();
        if v.None? {
          assert NearFrom(cfg, m, rng.draws, start, dx, dy) == Exhausted;
          return None;
        }
        assert u.value == rng.draws[start] && v.value == rng.draws[start + 1];
        var candidate := PolarPoint(m, droneRadius, dx, dy, u.value, v.value);
        assert candidate == PolarPoint(m, cfg.Radius(), dx, dy, rng.draws[start], rng.draws[start + 1]);
        NearFromStep(cfg, m, rng.draws, start, dx, dy);
        var half := cfg.HalfSize();
        if InSquare(half, candidate) {
          return Some(candidate);
        }
      }
    }

    /** Uniform over the map square: x from the first draw, y from the second. */
    method SampleLocationFar(rng: RandomSource) returns (p: Option<Point>)
      requires rng.Valid()
      modifies rng
      ensures rng.Valid()
      ensures old(rng.cursor) + 2 <= |rng.draws| ==>
        p == Some(FarPoint(cfg.mapSize, rng.draws[old(rng.cursor)], rng.draws[old(rng.cursor) + 1]))
        && rng.cursor == old(rng.cursor) + 2
      ensures |rng.draws| < old(rng.cursor) + 2 ==> p == None && rng.cursor == |rng.draws|
      ensures p.Some? && 0.0 <= cfg.mapSize ==> InSquare(cfg.mapSize / 2.0, p.value)
    {
      var half := cfg.mapSize / 2.0;
      var u := rng.Random();
      if u.None? {
        return None;
      }
      var x := Uniform(-half, half, u.value);
      var v := rng.Random();
      if v.None? {
        return None;
      }
      var y := Uniform(-half, half, v.value);
      p := Some(Point(x, y));
    }

    /** The demand of a customer at (x, y), conditioned on its distance from the depot. */
    method SampleDemand(rng: RandomSource, m: Math, x: real, y: real, dx: real, dy: real) returns (d: Option<real>)
      requires Valid() && rng.Valid() && Sound(m)
      modifies rng
      ensures rng.Valid()
      ensures old(rng.cursor) + 2 <= |rng.draws| ==>
        d == Some(Demand(cfg, m, x, y, dx, dy, rng.draws[old(rng.cursor)], rng.draws[old(rng.cursor) + 1]))
        && rng.cursor == old(rng.cursor) + 2
      ensures |rng.draws| < old(rng.cursor) + 2 ==> d == None && rng.cursor == |rng.draws|
      ensures d.Some? && cfg.minDemand <= cfg.lightMaxDemand <= cfg.heavyMaxDemand ==>
        cfg.minDemand <= d.value <= cfg.heavyMaxDemand
    {
      var dist := Distance(m, x, y, dx, dy);
      var isNear := dist <= droneRadius;
      var pick := rng.Random();
      if pick.None? {
        return None;
      }
      var isLight := if isNear then pick.value < cfg.pLightNear else pick.value < cfg.pLightFar;
      var w := rng.Random();
      if w.None? {
        return None;
      }
      if isLight {
        d := Some(Uniform(cfg.minDemand, cfg.lightMaxDemand, w.value));
      } else {
        d := Some(Uniform(cfg.lightMaxDemand, cfg.heavyMaxDemand, w.value));
      }
    }

    /** The location step of the loop in `generate`: the region draw, then
        the near or the far sampler around the depot at the origin. */
    method SampleLocation(rng: RandomSource, m: Math) returns (p: Option<Point>)
      requires Valid() && rng.Valid() && Sound(m)
      modifies rng
      ensures rng.Valid()
      ensures old(rng.cursor) == |rng.draws| ==> p == None && rng.cursor == |rng.draws|
      ensures old(rng.cursor) < |rng.draws| ==>
        match LocationAt(cfg, m, rng.draws, old(rng.cursor))
        case Sampled(q, j) => p == Some(q) && rng.cursor == j
        case Exhausted => p == None && rng.cursor == |rng.draws|
    {
      var depotX, depotY := 0.0, 0.0;
      ghost var start := rng.cursor;
      var region := rng.Random();
      if region.None? {
        return None;
      }
      assert region.value == rng.draws[start];
      if region.value < cfg.pNear {
        p := SampleLocationNear(rng, m, depotX, depotY);
      } else {
        p := SampleLocationFar(rng);
      }
    }

    /** The body of the loop in `generate`: location, then demand, for the
        depot at the origin; every customer is drone-servable. */
    method SampleCustomer(rng: RandomSource, m: Math) returns (c: Option<Customer>)
      requires Valid() && rng.Valid() && Sound(m)
      modifies rng
      ensures rng.Valid()
      ensures match CustomerAt(cfg, m, rng.draws, old(rng.cursor))
        case Sampled(q, j) => c == Some(q) && rng.cursor == j
        case Exhausted => c == None && rng.cursor == |rng.draws|
    {
      var depotX, depotY := 0.0, 0.0;
      ghost var start := rng.cursor;
      var location := SampleLocation(rng, m);
      if location.None? {
        return None;
      }
      CustomerAtStep(cfg, m, rng.draws, start);
      var x, y := location.value.x, location.value.y;
      var demand := SampleDemand(rng, m, x, y, depotX, depotY);
      if demand.None? {
        return None;
      }
      var dronable := 1;
      c := Some(Customer(x, y, dronable, demand.value));
    }

    /** One instance: the depot at the origin and `numCustomers` customers in loop order. */
    method Generate(rng: RandomSource, m: Math) returns (r: Option<Instance>)
      requires Valid() && rng.Valid() && Sound(m)
      modifies rng
      ensures rng.Valid()
      ensures match CustomersAt(cfg, m, rng.draws, old(rng.cursor), Count(cfg.numCustomers))
        case Sampled(cs, j) => r == Some(Instance(Point(0.0, 0.0), cs)) && rng.cursor == j
        case Exhausted => r == None && rng.cursor == |rng.draws|
      ensures r.Some? ==> r.value.depot == Point(0.0, 0.0) && |r.value.customers| == Count(cfg.numCustomers)
      ensures r.Some? ==> forall k :: 0 <= k < |r.value.customers| ==> r.value.customers[k].dronable == 1
      ensures cfg.numCustomers <= 0 ==> r == Some(Instance(Point(0.0, 0.0), [])) && rng.cursor == old(rng.cursor)
    {
      var depotX, depotY := 0.0, 0.0;
      var customers: seq<Customer> := [];
      ghost var first := rng.cursor;
      for i := 0 to Count(cfg.numCustomers)
        invariant rng.Valid()
        invariant CustomersAt(cfg, m, rng.draws, first, i) == Sampled(customers, rng.cursor)
      {
        RepeatStep(CustomerSampler(cfg, m, rng.draws), first, i);
        var customer := SampleCustomer(rng, m);
        if customer.None? {
          RepeatExhausted(CustomerSampler(cfg, m, rng.draws), first, i + 1, Count(cfg.numCustomers));
          return None;
        }
        customers := customers + [customer.value];
      }
      r := Some(Instance(Point(depotX, depotY), customers));
    }
  }
}
