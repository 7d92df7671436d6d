# Point-set generator of the convex-hull demo, in Dafny

This project models `DataGenerator`, the part of the convex-hull demo that produces test
point sets. A dispatcher, `GeneratePoints`, takes a generator tag and a point count and
calls one of four strategies. Each strategy builds a fresh sequence of 2-D points inside a
viewport of width W and height H:

- **random scatter** over `[0, W) x [0, H)`;
- **straight line**, evenly spaced from `(100, 100)` to `(W - 100, H - 100)`;
- **circle**, points at evenly spaced angles around the viewport's middle, radius
  `min(W, H) / 2 - 50`;
- **square**, side `min(W, H) - 200` and centred: its four corners in a fixed order, then
  random points inside it. There are never fewer than four points.

Layout:

- `geometry.dfy` (module `Geometry`): `Point`, `Viewport` (the window size, which the
  source reads from two header constants), `Min` (as `std::min`), collinearity and squared
  distance.
- `sampling.dfy` (module `Sampling`): the random engine, made explicit. A freshly seeded
  engine is given as the stream of its canonical draws, each a real in `[0, 1)`. A uniform
  real distribution over `[lo, hi)` maps a draw `u` to `lo + u * (hi - lo)`.
- `data_generator.dfy` (module `DataGenerator`): the generator tag and the error; the four
  generators as methods; the dispatcher; and the lemmas.

Each generator is a `method` with a `for` loop that appends to a growing `seq<Point>`, as the
source appends to a local `std::vector`. Each method is proved equal to a specification
function (`ScatterPoints`, `LinePoints`, `CirclePoints`, `SquarePoints`), and the lemmas
state the promised properties of those functions. Randomness comes in as a parameter, and so
do cosine and sine. The generators therefore change no state and take no hidden input.

The straight line's specification function is written as a weighted average of the two end
points, `((n-1-i)·start + i·end) / (n-1)`. The method computes `start + t·(end - start)` with
`t = i / (n - 1)`, as the source does, and `LinePointAffine` proves the two forms agree.

For an 800 x 600 window and three points the line is `(100, 100)`, `(400, 300)`,
`(700, 500)`; `LineExample` proves it.

## Model

| member | source | states |
|---|---|---|
| `DataGenerator.GeneratePoints` | convex-hull/src/DataGenerator.cpp:7-22 | Each of the four named tags yields exactly its own strategy's point sequence. Any other tag yields the invalid-argument error "Invalid generator type." and no points. The result is an error if and only if the tag is unrecognised. |
| `Sampling.Uniform` | convex-hull/src/DataGenerator.cpp:31-36 | A uniform real distribution over `[lo, hi)` returns a value in `[lo, hi]`. When `lo < hi` the value is strictly below `hi`. When `lo == hi` it is `lo`. |
| `DataGenerator.ScatterPoint` | convex-hull/src/DataGenerator.cpp:34-37 | Every scattered point has `0 <= x < W` and `0 <= y < H`. |
| `DataGenerator.GenerateRandomPoints` | convex-hull/src/DataGenerator.cpp:25-41 | Returns exactly `numPoints` points, each inside `[0, W) x [0, H)`. Point `i` is built from draws `2i` (x) and `2i+1` (y) of the engine. |
| `DataGenerator.GenerateStraightLine` | convex-hull/src/DataGenerator.cpp:44-61 | Returns exactly `numPoints` points, point `i` being the `i/(n-1)` weighted average of the two ends. For `n >= 2` the first point is `(100, 100)` and the last is `(W - 100, H - 100)`. |
| `DataGenerator.LinePointAffine` | convex-hull/src/DataGenerator.cpp:53-56 | Point `i` equals `(100, 100) + t·((W - 100, H - 100) - (100, 100))` with `t = i / (n - 1)`, which is the source's formula. |
| `DataGenerator.LineEndpoints` | convex-hull/src/DataGenerator.cpp:48-56 | Point 0 is the start `(100, 100)`. Point `n - 1` is the end `(W - 100, H - 100)`. |
| `DataGenerator.LineEvenlySpaced` | convex-hull/src/DataGenerator.cpp:53-56 | Consecutive points differ by the same step, `((W - 200) / (n - 1), (H - 200) / (n - 1))`. |
| `DataGenerator.LineCollinear` | convex-hull/src/DataGenerator.cpp:53-57 | Any three points of the line are collinear (zero cross product). |
| `DataGenerator.LineMonotone` | convex-hull/src/DataGenerator.cpp:48-56 | x never decreases with `i` when `W >= 200` and never increases when `W <= 200`. The same holds for y with H. |
| `DataGenerator.LineExample` | convex-hull/src/DataGenerator.cpp:48-57 | In an 800 x 600 window, three points are `(100, 100)`, `(400, 300)`, `(700, 500)`. |
| `DataGenerator.GenerateCircle` | convex-hull/src/DataGenerator.cpp:64-80 | Returns exactly `numPoints` points. Point `i` is `centre + r·(cos a, sin a)` with `a = 2π·i/n`, centre `(W/2, H/2)` and `r = min(W, H)/2 - 50`. |
| `DataGenerator.AngleSteps` | convex-hull/src/DataGenerator.cpp:72-73 | The first angle is 0, and each next angle is `2π / n` larger. |
| `DataGenerator.AnglesWithinOneTurn` | convex-hull/src/DataGenerator.cpp:72-73 | For `i < j < n`: `0 <= angle(i) < angle(j) < 2π`. The angles increase strictly, and none is repeated. |
| `DataGenerator.OnCircle` | convex-hull/src/DataGenerator.cpp:68-75 | If cosine and sine satisfy `cos² + sin² = 1` at the point's angle, the point's squared distance from `(W/2, H/2)` is `r²`. |
| `DataGenerator.CircleExample` | convex-hull/src/DataGenerator.cpp:68-70 | In an 800 x 600 window the centre is `(400, 300)` and the radius 250. |
| `DataGenerator.GeneratePointsInSquare` | convex-hull/src/DataGenerator.cpp:83-116 | The length is `max(numPoints, 4)`. The first four points are the corners, in the fixed order, and are never changed. Every later point lies in the closed square `[x0, x0 + s] x [y0, y0 + s]`. |
| `DataGenerator.SquareScatterPoint` | convex-hull/src/DataGenerator.cpp:105-112 | Every random point of the square lies in the closed square. |
| `DataGenerator.CornersFormCentredSquare` | convex-hull/src/DataGenerator.cpp:88-96 | The corners are top-left, top-right (`+s` in x), bottom-left (`+s` in y) and bottom-right. They span an axis-aligned square of side `s` centred in the viewport. |
| `DataGenerator.SquareWithinMargin` | convex-hull/src/DataGenerator.cpp:87-90 | When `s >= 0`, the corners lie in the square. The square keeps a margin of at least 100 from every edge of the viewport. |
| `DataGenerator.SquareExample` | convex-hull/src/DataGenerator.cpp:88-100 | In an 800 x 600 window with four points, the side is 400 and the result is exactly the corners `(200, 100)`, `(600, 100)`, `(200, 500)`, `(600, 500)`. |

## Left out

- Random engines: `std::random_device` seeding and `std::mt19937` are not modelled. Each random generator takes the stream of canonical draws its fresh engine would produce, with x drawn before y for every point. Uniformity and independence of the draws cannot be stated.
- `Sampling.Uniform`: models the distribution as exact `lo + u·(hi - lo)`. With float rounding the source can return `hi` itself, so in the source the random scatter can produce `x == W` or `y == H`.
- Floating point: coordinates are exact reals. The source's float equalities hold only approximately, and float overflow or NaN is not modelled.
- Trigonometry: `std::cos` and `std::sin` are parameters of the circle generator, with no properties assumed. `OnCircle` takes `cos² + sin² = 1` as a hypothesis. `M_PI` is the real constant `Pi` with the literal's value, not its float rounding.
- `GenerateStraightLine`: requires `numPoints != 1`. There the source divides 0 by 0 in float arithmetic and emits a NaN point, which reals cannot represent.
- `GeneratePointsInSquare`: requires a non-negative side `min(W, H) - 200` when four or more points are requested. Only then does the source build its distributions, which need `lo <= hi`.
- `GenerateRandomPoints`: requires a viewport with positive width and height. The window constants are positive.
- `ei::Vec2`, `std::vector::reserve` and the header that defines the window constants are not part of this model. The constants are the `Viewport` parameter.
- `size_t` is modelled as `nat`. The source subtracts from `numPoints` only after checking it is large enough (`numPoints - 4`), or inside a loop that runs only when `numPoints >= 1` (`numPoints - 1`), so neither is ever below 0 and no wrap-around occurs.
- Determinism of the non-random strategies: it holds because `LinePoints`, `CirclePoints` and `Corners` are functions of their inputs, so no lemma states it.
