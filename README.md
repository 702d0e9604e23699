# Instance generator for the truck-and-drone routing benchmark

This project is a Dafny model of `InstanceGenerator` in
`problems/generate_instance.py`. The generator builds one benchmark instance
for a delivery problem served by trucks and drones:

- The depot sits at the origin.
- The drone radius is `(drone_endurance / 2) * drone_speed`: the farthest a
  drone can fly out and still return within its endurance.
- For each customer, one draw below `p_near` picks the near region. The point
  is then sampled in polar form inside the drone disk: radius
  `drone_radius * sqrt(u)`, angle `2 * pi * v`. A candidate outside the map
  square `[-map_size/2, map_size/2]²` is rejected and drawn again. Otherwise the
  point is drawn uniformly over the whole map square.
- The demand is light or heavy. The light probability is `p_light_near` when
  the realised distance from the depot is at most the drone radius, and
  `p_light_far` otherwise. Which branch placed the point does not matter.
  A light demand is uniform in `[min_demand, light_max_demand]`, a heavy one
  in `[light_max_demand, heavy_max_demand]`.
- Every customer is marked drone-servable (`dronable == 1`).

The global `random` module is modelled as an explicit input. The draws that
`random.random()` would return form a finite sequence of reals in [0, 1), read
from a cursor (`Rng.RandomSource`). `random.uniform(a, b)` is `a + (b - a) * u`
for one draw `u`, as CPython computes it. A sampler that needs a draw past the
end of the sequence reports exhaustion (`Exhausted` in the specification
functions, `None` from the methods). This is how the model represents the
rejection loop `while True`, which may never stop. `CustomersAtExtends` shows
that a result depends only on the draws it consumed. So a long enough finite
prefix of the real stream gives exactly the generator's output.

`math.sqrt`, `math.cos` and `math.sin` form a value `RealMath.Math`, constrained
only by `RealMath.Sound`: `sqrt` is the non-negative square root on
non-negative reals, and `cos² + sin² == 1`. All arithmetic is on exact `real`s.

Files:

- `realmath.dfy` (module `RealMath`): the `math` functions and small facts about
  real products and squares.
- `rng.dfy` (module `Rng`): the draw stream, `Uniform`, and `Repeat`, which runs
  a sampler n times in sequence, with its lemmas.
- `generate_instance.dfy` (module `GenerateInstance`): the data model, the
  specification functions of each sampler, the save-time tallies, and the class
  `InstanceGenerator`. Each method of that class consumes the stream and is
  proved to agree with its specification function.
- `properties.dfy` (module `GenerateInstanceProperties`): lemmas about the
  generated customers.

The constructor (`problems/generate_instance.py:68-88`) stores the parameters
without any check, and the model follows the code. The assumptions a property
needs are hypotheses of that property: probabilities, ordered demand bounds, a
non-negative map size or radius. They are not preconditions of the operations.

## Model

| member | source | states |
|---|---|---|
| `GenerateInstance.DroneRadius` | problems/generate_instance.py:88 | the radius is the distance covered in half the endurance at drone speed (`2 * (r / speed) == endurance`), it is 0 when the speed is 0, and it is positive when endurance and speed are both positive |
| `GenerateInstance.InstanceGenerator.constructor` | problems/generate_instance.py:68-88 | stores the configuration unchanged and derives the drone radius from endurance and speed; no validation |
| `GenerateInstance.Distance` | problems/generate_instance.py:103-105 | the distance is non-negative and its square is the sum of the squared coordinate offsets |
| `GenerateInstance.DistanceWithinRadius` | problems/generate_instance.py:139-140 | for a non-negative radius, `distance <= radius` holds exactly when the squared distance is at most radius² (both directions) |
| `GenerateInstance.PolarPoint` | problems/generate_instance.py:111-115 | a polar candidate from a draw `u` in [0, 1] lies in the closed drone disk around the depot, whatever its angle |
| `GenerateInstance.NearFrom` | problems/generate_instance.py:109-120 | a returned point is the candidate built from the last two draws read, an even number of draws is read (two per candidate), every earlier candidate was outside the map square, the point is inside the square and inside the drone disk; on exhaustion every candidate was rejected |
| `GenerateInstance.InstanceGenerator.SampleLocationNear` | problems/generate_instance.py:107-120 | the rejection loop returns what `NearFrom` specifies and leaves the cursor after the accepted candidate; the point is inside the map square and inside the drone disk |
| `GenerateInstance.FarPoint` | problems/generate_instance.py:122-127 | for a non-negative map size, both coordinates lie in `[-map_size/2, map_size/2]`, with no rejection |
| `GenerateInstance.InstanceGenerator.SampleLocationFar` | problems/generate_instance.py:122-127 | reads exactly two draws (x first, then y) and returns the uniform point they give, inside the map square |
| `Rng.Uniform` | problems/generate_instance.py:125-126 | `uniform(a, b)` lies in `[a, b]` for a draw in [0, 1], and strictly below `b` when `a < b` and the draw is below 1 |
| `Rng.RandomSource.Random` | problems/generate_instance.py:111-112 | returns the draw at the cursor and advances it by one; past the end returns nothing and leaves the cursor at the end |
| `GenerateInstance.LightProbability` | problems/generate_instance.py:139-151 | the near light probability applies when the point lies in the drone disk around the depot, the far one when it lies outside or the radius is negative |
| `GenerateInstance.Demand` | problems/generate_instance.py:139-158 | a draw below the applicable light probability gives a demand in `[min_demand, light_max_demand]`, otherwise in `[light_max_demand, heavy_max_demand]`; always in `[min_demand, heavy_max_demand]`; below the threshold exactly when the light branch was taken |
| `GenerateInstance.InstanceGenerator.SampleDemand` | problems/generate_instance.py:129-158 | reads the pick draw and then the value draw, returns the demand `Demand` specifies for them, within `[min_demand, heavy_max_demand]` |
| `GenerateInstance.LocationAt` | problems/generate_instance.py:176-179 | with `p_near >= 1` the location is always the near sampler's, with `p_near <= 0` always the far point of the next two draws; a point from a region draw below `p_near` lies in the drone disk, and every point lies in the map square (for a non-negative map size on the far branch) |
| `GenerateInstance.InstanceGenerator.SampleLocation` | problems/generate_instance.py:176-179 | reads the region draw and runs the chosen sampler, agreeing with `LocationAt` in value and cursor |
| `GenerateInstance.CustomerAt` | problems/generate_instance.py:174-192 | one loop iteration reads at least five draws, marks the customer drone-servable, and takes its demand from the last two draws it reads |
| `GenerateInstance.InstanceGenerator.SampleCustomer` | problems/generate_instance.py:174-192 | the loop body agrees with `CustomerAt` in value and cursor |
| `GenerateInstance.CustomersAt` | problems/generate_instance.py:173-192 | n iterations give exactly n customers, read at least 5n draws, and every customer is drone-servable |
| `GenerateInstance.InstanceGenerator.Generate` | problems/generate_instance.py:160-197 | returns the depot (0, 0) and the customers of `CustomersAt` in loop order, exactly `num_customers` of them, all drone-servable; zero customers gives an empty list and reads no draw |
| `GenerateInstance.NearCount` | problems/generate_instance.py:235-236 | the near tally lies between 0 and the number of customers |
| `GenerateInstance.LightCount` | problems/generate_instance.py:237 | the light tally lies between 0 and the number of customers |
| `GenerateInstanceProperties.NearCountAll` | problems/generate_instance.py:235-236 | the near tally equals the number of customers exactly when every customer is within the radius |
| `GenerateInstanceProperties.LightCountAll` | problems/generate_instance.py:237 | the light tally equals the number of customers exactly when every demand is below the threshold |
| `GenerateInstanceProperties.CustomerWellFormed` | problems/generate_instance.py:174-192 | a generated customer lies on the map and has a demand in `[min_demand, heavy_max_demand]` |
| `GenerateInstanceProperties.CustomersWellFormed` | problems/generate_instance.py:173-197 | every customer of a generated list lies on the map with its demand in range |
| `GenerateInstanceProperties.NearBranchInsideRadius` | problems/generate_instance.py:176-177 | a customer from the near branch lies in the drone disk around the depot |
| `GenerateInstanceProperties.AllNearWhenPNearIsOne` | problems/generate_instance.py:176-177 | with `p_near == 1` every generated customer lies in the drone disk |
| `GenerateInstanceProperties.NearTallyFullWhenPNearIsOne` | problems/generate_instance.py:236 | with `p_near == 1` and a non-negative radius, the near tally counts every generated customer |
| `GenerateInstanceProperties.FarCustomerAt` | problems/generate_instance.py:178-182 | with `p_near == 0` an iteration is the far point of the two draws after the region draw, followed by the demand of the next two, and reads exactly five draws |
| `GenerateInstanceProperties.AllFarWhenPNearIsZero` | problems/generate_instance.py:174-182 | with `p_near == 0`, n customers are generated exactly when 5n draws are available; they read exactly 5n draws, and customer k is the far point of draws `5k+1` and `5k+2` |
| `GenerateInstanceProperties.DemandFollowsRealisedDistance` | problems/generate_instance.py:139-158 | a generated demand is light exactly when its pick draw is below the light probability of its realised position: near inside the disk, far outside |
| `GenerateInstanceProperties.FarBranchInsideRadiusUsesNearProbability` | problems/generate_instance.py:139-151 | a far-branch point that lands inside the drone disk draws its demand with the near light probability |
| `GenerateInstanceProperties.DemandIgnoresBranch` | problems/generate_instance.py:176-182 | a near-branch and a far-branch iteration that place a customer at the same point and then read the same demand draws yield the same customer |
| `GenerateInstanceProperties.NearFromExtends` | problems/generate_instance.py:109-120 | the near sampler's result does not change when more draws follow the ones it read |
| `GenerateInstanceProperties.CustomersAtExtends` | problems/generate_instance.py:173-192 | a generated customer list does not change when more draws follow the ones it read |

## Left out

- `problems/manage_data.py` is not part of this model: it only globs, deletes and moves files and prompts the user.
- `main` (`problems/generate_instance.py:245-325`) is not modelled: it sets a hard-coded configuration, loops over batches, names files and creates directories.
- The file writing of `save_to_file` is not modelled, because its content is Python's float formatting and column padding. Only its two tallies are modelled.
- All printed output is left out: the configuration echo and the statistics. The statistics divide by `num_customers` and take `min`/`max` of possibly empty lists, so they fail for zero customers. That failure is outside the model.
- Seeding (`random.seed`) is left out. The draw sequence stands in for whatever stream the seed produces, so statistical and distributional claims cannot be stated. This covers uniform areal density from the `sqrt` correction and the convergence of the near and light fractions.
- IEEE floating-point rounding is not modelled; arithmetic is exact on `real`. Whether `uniform` can reach its upper bound after rounding is not captured either.
- `math.sqrt`, `math.cos` and `math.sin` are not computed. Only the facts in `RealMath.Sound` are assumed of them, and `math.pi` is its double-precision literal.
- Python's default parameter values are not modelled: every `Config` field is given explicitly. `num_trucks`, `num_drones` and `truck_speed` are stored and never used by generation.
- An endless run of the rejection loop is not modelled: every stream is finite, so an endless run shows up as exhaustion of the stream.
- `GenerateInstance.InstanceGenerator.SampleLocationFar`: the map-square bound is stated only for a non-negative `map_size`, because the constructor does not validate it.
- `GenerateInstance.InstanceGenerator.SampleDemand`: the demand range is stated only when `min_demand <= light_max_demand <= heavy_max_demand`, because the constructor does not validate the bounds.
