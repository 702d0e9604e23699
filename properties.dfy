/** Properties of the instance generator's specification functions: every
    generated customer lies on the map with a demand in range, the region
    probability's extreme values force one branch, the demand follows the
    realised distance rather than the branch, the save-time tallies, and
    the independence of a result from draws it never read. */
module GenerateInstanceProperties {

  import opened RealMath
  import opened Rng
  import opened GenerateInstance

  /** A customer lies on the map (when the map size is not negative) and its
      demand lies in [minDemand, heavyMaxDemand] (when the demand bounds are
      ordered). */
  predicate WellFormed(cfg: Config, c: Customer) {
    && (0.0 <= cfg.mapSize ==> InSquare(cfg.HalfSize(), Point(c.x, c.y)))
    && (cfg.minDemand <= cfg.lightMaxDemand <= cfg.heavyMaxDemand ==>
          cfg.minDemand <= c.demand <= cfg.heavyMaxDemand)
  }

  /** One generated customer is well formed. */
  lemma CustomerWellFormed(cfg: Config, m: Math, draws: seq<real>, i: nat)
    requires UnitDraws(draws)
    requires CustomerAt(cfg, m, draws, i).Sampled?
    ensures WellFormed(cfg, CustomerAt(cfg, m, draws, i).value)
  {
    CustomerAtStep(cfg, m, draws, i);
    var r := CustomerAt(cfg, m, draws, i);
    assert 0.0 <= draws[r.next - 1] < 1.0;
    if draws[i] >= cfg.pNear {
      assert 0.0 <= draws[i + 1] < 1.0 && 0.0 <= draws[i + 2] < 1.0;
    }
  }

  /** Every customer of a generated list is well formed. */
  lemma CustomersWellFormed(cfg: Config, m: Math, draws: seq<real>, i: nat, n: nat)
    requires UnitDraws(draws) && i <= |draws|
    requires CustomersAt(cfg, m, draws, i, n).Sampled?
    ensures var cs := CustomersAt(cfg, m, draws, i, n).value;
      forall k :: 0 <= k < |cs| ==> WellFormed(cfg, cs[k])
  {
    forall j: nat | CustomerAt(cfg, m, draws, j).Sampled?
      ensures WellFormed(cfg, CustomerAt(cfg, m, draws, j).value)
    {
      CustomerWellFormed(cfg, m, draws, j);
    }
    RepeatAll(CustomerSampler(cfg, m, draws), (c: Customer) => WellFormed(cfg, c), i, n);
  }

  /** A customer from the near branch lies in the drone disk around the depot. */
  lemma NearBranchInsideRadius(cfg: Config, m: Math, draws: seq<real>, i: nat)
    requires Sound(m) && UnitDraws(draws) && i < |draws|
    requires draws[i] < cfg.pNear && CustomerAt(cfg, m, draws, i).Sampled?
    ensures var c := CustomerAt(cfg, m, draws, i).value;
      InDisk(cfg.Radius(), 0.0, 0.0, Point(c.x, c.y))
  {
    CustomerAtStep(cfg, m, draws, i);
  }

  /** With `pNear` at 1 every draw selects the near branch, so every
      customer lies in the drone disk. */
  lemma AllNearWhenPNearIsOne(cfg: Config, m: Math, draws: seq<real>, i: nat, n: nat)
    requires Sound(m) && UnitDraws(draws) && i <= |draws| && 1.0 <= cfg.pNear
    requires CustomersAt(cfg, m, draws, i, n).Sampled?
    ensures var cs := CustomersAt(cfg, m, draws, i, n).value;
      forall k :: 0 <= k < |cs| ==> InDisk(cfg.Radius(), 0.0, 0.0, Point(cs[k].x, cs[k].y))
  {
    forall j: nat | CustomerAt(cfg, m, draws, j).Sampled?
      ensures var c := CustomerAt(cfg, m, draws, j).value;
        InDisk(cfg.Radius(), 0.0, 0.0, Point(c.x, c.y))
    {
      assert draws[j] < 1.0;
      NearBranchInsideRadius(cfg, m, draws, j);
    }
    RepeatAll(CustomerSampler(cfg, m, draws), (c: Customer) => InDisk(cfg.Radius(), 0.0, 0.0, Point(c.x, c.y)), i, n);
  }

  /** With `pNear` at 1 and a non-negative radius, the near tally of
      `save_to_file` counts every generated customer. */
  lemma NearTallyFullWhenPNearIsOne(cfg: Config, m: Math, draws: seq<real>, i: nat, n: nat)
    requires Sound(m) && UnitDraws(draws) && i <= |draws| && 1.0 <= cfg.pNear && 0.0 <= cfg.Radius()
    requires CustomersAt(cfg, m, draws, i, n).Sampled?
    ensures NearCount(m, cfg.Radius(), Point(0.0, 0.0), CustomersAt(cfg, m, draws, i, n).value) == n
  {
    var cs := CustomersAt(cfg, m, draws, i, n).value;
    AllNearWhenPNearIsOne(cfg, m, draws, i, n);
    forall k | 0 <= k < |cs|
      ensures Distance(m, cs[k].x, cs[k].y, 0.0, 0.0) <= cfg.Radius()
    {
      DistanceWithinRadius(m, cs[k].x, cs[k].y, 0.0, 0.0, cfg.Radius());
    }
    NearCountAll(m, cfg.Radius(), Point(0.0, 0.0), cs);
  }

  /** With `pNear` at 0 every draw selects the far branch: a customer is the
      far point of the two draws after its region draw, with its demand from
      the next two, and takes exactly five draws. */
  lemma FarCustomerAt(cfg: Config, m: Math, draws: seq<real>, i: nat)
    requires UnitDraws(draws) && cfg.pNear <= 0.0
    ensures CustomerAt(cfg, m, draws, i)
      == if |draws| < i + 5 then Exhausted
         else
           var p := FarPoint(cfg.mapSize, draws[i + 1], draws[i + 2]);
           Sampled(Customer(p.x, p.y, 1, Demand(cfg, m, p.x, p.y, 0.0, 0.0, draws[i + 3], draws[i + 4])), i + 5)
  {
    if i < |draws| {
      assert 0.0 <= draws[i];
      CustomerAtStep(cfg, m, draws, i);
    }
  }

  /** With `pNear` at 0 every iteration reads exactly five draws when they
      are available and is exhausted otherwise. */
  lemma FarSamplerFixedWidth(cfg: Config, m: Math, draws: seq<real>)
    requires UnitDraws(draws) && cfg.pNear <= 0.0
    ensures forall j: nat ::
      && (CustomerSampler(cfg, m, draws)(j).Sampled? <==> j + 5 <= |draws|)
      && (CustomerSampler(cfg, m, draws)(j).Sampled? ==> CustomerSampler(cfg, m, draws)(j).next == j + 5)
  {
    forall j: nat
      ensures CustomerAt(cfg, m, draws, j).Sampled? <==> j + 5 <= |draws|
      ensures CustomerAt(cfg, m, draws, j).Sampled? ==> CustomerAt(cfg, m, draws, j).next == j + 5
    {
      FarCustomerAt(cfg, m, draws, j);
    }
  }

  /** With `pNear` at 0, `n` customers are generated exactly when `5 * n`
      draws are available, they consume exactly that many, and each lies at
      the far point of its own draws. */
  lemma AllFarWhenPNearIsZero(cfg: Config, m: Math, draws: seq<real>, i: nat, n: nat)
    requires UnitDraws(draws) && i <= |draws| && cfg.pNear <= 0.0
    ensures CustomersAt(cfg, m, draws, i, n).Sampled? <==> i + 5 * n <= |draws|
    ensures CustomersAt(cfg, m, draws, i, n).Sampled? ==>
      var r := CustomersAt(cfg, m, draws, i, n);
      && r.next == i + 5 * n
      && forall k :: 0 <= k < n ==>
           Point(r.value[k].x, r.value[k].y) == FarPoint(cfg.mapSize, draws[i + 5 * k + 1], draws[i + 5 * k + 2])
  {
    var step := CustomerSampler(cfg, m, draws);
    FarSamplerFixedWidth(cfg, m, draws);
    RepeatFixedWidth(step, i, n, 5, |draws|);
    RepeatFixedWidthElements(step, i, n, 5, |draws|);
    if CustomersAt(cfg, m, draws, i, n).Sampled? {
      forall k | 0 <= k < n
        ensures var c := CustomersAt(cfg, m, draws, i, n).value[k];
          Point(c.x, c.y) == FarPoint(cfg.mapSize, draws[i + 5 * k + 1], draws[i + 5 * k + 2])
      {
        FarCustomerAt(cfg, m, draws, i + 5 * k);
      }
    }
  }

  /** The demand of a generated customer is light exactly when its demand draw
      is below the light probability for its realised position: the near one
      inside the drone disk, the far one outside, whichever branch placed it. */
  lemma DemandFollowsRealisedDistance(cfg: Config, m: Math, draws: seq<real>, i: nat)
    requires Sound(m) && UnitDraws(draws) && 0.0 <= cfg.Radius()
    requires cfg.minDemand < cfg.lightMaxDemand <= cfg.heavyMaxDemand
    requires CustomerAt(cfg, m, draws, i).Sampled?
    ensures var r := CustomerAt(cfg, m, draws, i);
      var c := r.value;
      var p := if InDisk(cfg.Radius(), 0.0, 0.0, Point(c.x, c.y)) then cfg.pLightNear else cfg.pLightFar;
      c.demand < cfg.lightMaxDemand <==> draws[r.next - 2] < p
  {
    var r := CustomerAt(cfg, m, draws, i);
    assert 0.0 <= draws[r.next - 1] < 1.0;
  }

  /** A far-branch customer that happens to land in the drone disk draws its
      demand with the near light probability. */
  lemma FarBranchInsideRadiusUsesNearProbability(cfg: Config, m: Math, draws: seq<real>, i: nat)
    requires Sound(m) && UnitDraws(draws) && 0.0 <= cfg.Radius()
    requires cfg.minDemand < cfg.lightMaxDemand <= cfg.heavyMaxDemand
    requires i + 5 <= |draws| && cfg.pNear <= draws[i]
    requires InDisk(cfg.Radius(), 0.0, 0.0, FarPoint(cfg.mapSize, draws[i + 1], draws[i + 2]))
    ensures CustomerAt(cfg, m, draws, i).Sampled? && CustomerAt(cfg, m, draws, i).next == i + 5
    ensures CustomerAt(cfg, m, draws, i).value.demand < cfg.lightMaxDemand <==> draws[i + 3] < cfg.pLightNear
  {
    CustomerAtStep(cfg, m, draws, i);
    DemandFollowsRealisedDistance(cfg, m, draws, i);
  }

  /** The demand step sees only the realised point and its own two draws: a
      near-branch and a far-branch iteration that place a customer at the same
      point and then read the same two demand draws produce the same customer. */
  lemma DemandIgnoresBranch(cfg: Config, m: Math, d1: seq<real>, i1: nat, d2: seq<real>, i2: nat)
    requires i1 < |d1| && i2 < |d2| && d1[i1] < cfg.pNear && cfg.pNear <= d2[i2]
    requires LocationAt(cfg, m, d1, i1).Sampled? && LocationAt(cfg, m, d2, i2).Sampled?
    requires LocationAt(cfg, m, d1, i1).value == LocationAt(cfg, m, d2, i2).value
    requires var j1, j2 := LocationAt(cfg, m, d1, i1).next, LocationAt(cfg, m, d2, i2).next;
      j1 + 2 <= |d1| && j2 + 2 <= |d2| && d1[j1] == d2[j2] && d1[j1 + 1] == d2[j2 + 1]
    ensures CustomerAt(cfg, m, d1, i1).Sampled? && CustomerAt(cfg, m, d2, i2).Sampled?
    ensures CustomerAt(cfg, m, d1, i1).value == CustomerAt(cfg, m, d2, i2).value
  {
    CustomerAtStep(cfg, m, d1, i1);
    CustomerAtStep(cfg, m, d2, i2);
  }

  /** The near sampler's result does not depend on draws after the ones it read. */
  lemma {:induction false} NearFromExtends(cfg: Config, m: Math, draws: seq<real>, more: seq<real>, i: nat, dx: real, dy: real)
    requires NearFrom(cfg, m, draws, i, dx, dy).Sampled?
    ensures NearFrom(cfg, m, draws + more, i, dx, dy) == NearFrom(cfg, m, draws, i, dx, dy)
    decreases |draws| - i
  {
    var all := draws + more;
    NearFromStep(cfg, m, draws, i, dx, dy);
    NearFromStep(cfg, m, all, i, dx, dy);
    assert all[i] == draws[i] && all[i + 1] == draws[i + 1];
    if !InSquare(cfg.HalfSize(), PolarPoint(m, cfg.Radius(), dx, dy, draws[i], draws[i + 1])) {
      NearFromExtends(cfg, m, draws, more, i + 2, dx, dy);
    }
  }

  /** The location step does not depend on draws after the ones it read. */
  lemma LocationAtExtends(cfg: Config, m: Math, draws: seq<real>, more: seq<real>, i: nat)
    requires i < |draws| && LocationAt(cfg, m, draws, i).Sampled?
    ensures LocationAt(cfg, m, draws + more, i) == LocationAt(cfg, m, draws, i)
  {
    var all := draws + more;
    assert all[i] == draws[i];
    if draws[i] < cfg.pNear {
      NearFromExtends(cfg, m, draws, more, i + 1, 0.0, 0.0);
    } else {
      assert all[i + 1] == draws[i + 1] && all[i + 2] == draws[i + 2];
    }
  }

  /** One iteration of the loop does not depend on draws after the ones it read. */
  lemma CustomerAtExtends(cfg: Config, m: Math, draws: seq<real>, more: seq<real>, i: nat)
    requires CustomerAt(cfg, m, draws, i).Sampled?
    ensures CustomerAt(cfg, m, draws + more, i) == CustomerAt(cfg, m, draws, i)
  {
    var all := draws + more;
    CustomerAtStep(cfg, m, draws, i);
    CustomerAtStep(cfg, m, all, i);
    LocationAtExtends(cfg, m, draws, more, i);
    var j := LocationAt(cfg, m, draws, i).next;
    assert all[j] == draws[j] && all[j + 1] == draws[j + 1];
  }

  /** A generated customer list depends only on the draws it consumed: any
      longer stream with the same prefix yields the same customers and stops
      at the same position. So a finite prefix of the real stream models the
      generator exactly whenever it is long enough. */
  lemma CustomersAtExtends(cfg: Config, m: Math, draws: seq<real>, more: seq<real>, i: nat, n: nat)
    requires i <= |draws| && CustomersAt(cfg, m, draws, i, n).Sampled?
    ensures CustomersAt(cfg, m, draws + more, i, n) == CustomersAt(cfg, m, draws, i, n)
  {
    forall j: nat | CustomerAt(cfg, m, draws, j).Sampled?
      ensures CustomerAt(cfg, m, draws + more, j) == CustomerAt(cfg, m, draws, j)
    {
      CustomerAtExtends(cfg, m, draws, more, j);
    }
    RepeatAgree(CustomerSampler(cfg, m, draws), CustomerSampler(cfg, m, draws + more), i, n);
  }

  /** The near tally counts every customer exactly when every customer is
      within the radius of the depot. */
  lemma {:induction false} NearCountAll(m: Math, radius: real, depot: Point, cs: seq<Customer>)
    ensures NearCount(m, radius, depot, cs) == |cs|
      <==> forall k :: 0 <= k < |cs| ==> Distance(m, cs[k].x, cs[k].y, depot.x, depot.y) <= radius
  {
    if cs != [] {
      NearCountAll(m, radius, depot, cs[1..]);
      assert forall k :: 1 <= k < |cs| ==> cs[k] == cs[1..][k - 1];
    }
  }

  /** The light tally counts every customer exactly when every demand is
      below the threshold. */
  lemma {:induction false} LightCountAll(lightMax: real, cs: seq<Customer>)
    ensures LightCount(lightMax, cs) == |cs| <==> forall k :: 0 <= k < |cs| ==> cs[k].demand < lightMax
  {
    if cs != [] {
      LightCountAll(lightMax, cs[1..]);
      assert forall k :: 1 <= k < |cs| ==> cs[k] == cs[1..][k - 1];
    }
  }
}
