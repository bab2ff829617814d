# Load-balancing visualiser: simulation core in Dafny

This project models the simulation behind the load-balancing visualiser, a small
interactive demo. The program shows a fleet of "server" bars whose height and
colour encode load. Pressing `c` adds "client" points. Dragging an arrow with
the left mouse button and releasing it adds 0.1 load to the server nearest the
release point. A server that reaches full load spawns a new server, and the
fleet stops growing at five. Escape quits.

The model has no graphics in it. It is a state machine over an immutable `State`:

- the servers and clients, as ordered sequences;
- the drag flag;
- the start and end points of the arrow.

The program keeps every quantity as a 32-bit float. The model uses `real`,
because every rule is a threshold or an argmin comparison. The nearest-server
scan compares squared distances instead of square roots, which gives the same
branches because square root is strictly increasing (`Matcher.SqrtPreservesOrder`).

Modules, one per component of `Test/source.cpp`:

- `Model` (model.dfy) holds the `Server`, `Client` and `State` records, the compiled-in constants and the start state.
- `LoadUpdater` (load.dfy) is `increaseLoad`: saturating add, height recomputation and fleet growth.
- `Matcher` (matcher.dfy) is the nearest-server scan in `mouse`. It has three parts:
  - a declarative description, `FirstNearest`;
  - a recursive definition, `Nearest`;
  - the source's loop, `NearestScan`.
- `Tiers` (tiers.dfy) is the green/amber/red choice in `renderServer`.
- `Input` (input.dfy) covers the following:
  - the pixel-to-normalised mapping;
  - `addClient` and `keyboard`;
  - press, motion and release in `mouse` and `motion`;
  - one event step.
- `Simulation` (simulation.dfy) covers whole runs of events from the start state and the invariant that every reachable state keeps.

Two behaviours of the code are worth stating explicitly:

- The scan returns -1 whenever no server is closer than the sentinel distance
  of 100, not only when the fleet is empty (Test/source.cpp:156-168). With a
  non-empty fleet this happens for pointer positions far outside the window.
  `Matcher.FirstNearest` states this rule.
- A release runs the matcher and bumps the matched server even when no press
  came before it, because the button-up branch never tests `drawing`
  (Test/source.cpp:151-170). `Input.ReleaseWithoutPress` shows this from the
  start state.

## Model

| member | source | states |
|---|---|---|
| Model.Init | Test/source.cpp:184 | The start state has exactly one server, at x = -0.5 with load 0 and height 0.1, and no clients. No drag is in progress, since the `drawing` global of line 33 starts false. |
| Model.FreshServer | Test/source.cpp:124 | The server appended when the fleet holds `count` servers has load 0, height 0.1, capacity 1.0 and x = count*0.2-0.5. |
| LoadUpdater.IncreaseLoad | Test/source.cpp:116-126 | The target's load is at most 1.0. It equals old load plus amount when that sum is at most 1, and 1.0 when the sum is at least 1. From a load of at most 1, a non-negative amount never lowers it. The target's height equals load times capacity, and its capacity and x are unchanged. All other servers are unchanged. At most one server is appended, exactly when the target's height has reached its capacity and fewer than 5 servers exist. The appended server has load 0, height 0.1, capacity 1.0 and x = oldCount*0.2-0.5. The fleet never goes past 5. |
| LoadUpdater.GrowsIffSaturated | Test/source.cpp:117-124 | For a server with positive capacity, the fleet grows exactly when old load plus amount reaches 1.0 and fewer than 5 servers exist. |
| LoadUpdater.BumpTimes | Test/source.cpp:116-126 | n calls of `increaseLoad` on one server keep that server in the fleet, add at most n servers, and never take a fleet of 5 or fewer past 5. |
| LoadUpdater.BumpTimesBounded | Test/source.cpp:116-126 | Starting from a fleet of at most 5 servers whose target load is in [0, 1], any number of non-negative increments keeps that load in [0, 1] and the fleet at 5 servers or fewer. After at least one increment, the target's height equals load × capacity. |
| LoadUpdater.InitialServerSaturation | Test/source.cpp:116-126 | Starting from the single initial server, ten bumps of 0.1 saturate it and add exactly one server, at x = -0.3. Thirteen bumps fill the fleet to 5, and the fourteenth and fifteenth bumps keep it at 5. |
| LoadUpdater.SingleBelowFull | Test/source.cpp:117-124 | After n ≤ 9 bumps the initial server carries n tenths of load and no server has been added. |
| Matcher.Dist2Shape | Test/source.cpp:159-161 | The squared distance used by the scan is never negative. It always includes the release point's own vertical offset in full, since servers are taken to sit at y = 0. When the point is straight above or below a server, that offset is the whole distance. |
| Matcher.NearestAmong | Test/source.cpp:156-166 | Scanning the first n servers returns -1 exactly when none is closer than the sentinel 100. Otherwise it returns an index whose distance is below the sentinel and minimal, and no earlier index has an equal distance (strict `<`). |
| Matcher.Nearest | Test/source.cpp:156-166 | The same first-nearest property over the whole fleet, measuring distance from (endX, endY) to (server x, 0). |
| Matcher.NearestScan | Test/source.cpp:156-166 | The source's loop, with its running minimum and strict-`<` replacement, returns the first nearest index, the same value as `Nearest`. |
| Matcher.LoneServerMatched | Test/source.cpp:156-168 | A fleet of one server within distance 100 of the release point matches that server. |
| Matcher.FirstNearestUnique | Test/source.cpp:156-166 | At most one index satisfies the first-nearest description, so the scan's result is determined by it. |
| Matcher.SqrtPreservesOrder | Test/source.cpp:161-162 | For non-negative roots, comparing the roots gives the same result as comparing their squares. So comparing squared distances with 100² takes the same branches as comparing `sqrt` distances with 100. |
| Matcher.ThreeServerExample | Test/source.cpp:156-166 | For servers at -0.5, -0.3, -0.1 and a release at x = -0.28 with any y in [-1, 1], the matcher picks the server at -0.3. |
| Tiers.TierOf | Test/source.cpp:45-53 | Load ≤ 0.33 is green, 0.33 < load ≤ 0.66 is amber, and load > 0.66 is red. Each is an if-and-only-if, so the three tiers partition the load range. |
| Tiers.TierMonotone | Test/source.cpp:45-53 | More load never gives a lower tier. |
| Input.NdcX | Test/source.cpp:148 | Pixels within the window's width map into [-1, 1]. |
| Input.NdcY | Test/source.cpp:149 | Pixels within the window's height map into [-1, 1] (y flipped). |
| Input.NdcRoundTrip | Test/source.cpp:148-149 | The mapping can be inverted back to the same pixel. On x, pixel 0 maps to -1 and pixel 800 to 1. On y, pixel 0 maps to 1 and pixel 600 to -1. |
| Input.NdcOrder | Test/source.cpp:153-154 | The x mapping is strictly increasing and the y mapping strictly decreasing. |
| Input.AddClient | Test/source.cpp:111-113 | Exactly one client is appended and the earlier clients are kept. The new client has y = -0.5, load 0.1 and x in [-0.75, 0.75] for any draw in [0, RAND_MAX]. Servers and drag state are unchanged. |
| Input.Keyboard | Test/source.cpp:133-142 | 'c' adds a client, Escape (27) and only Escape ends the program, and any other key changes nothing. |
| Input.Press | Test/source.cpp:146-150 | Press sets the drag flag and the start point to the mapped pixel, and nothing else changes. The end point keeps its old value. |
| Input.Motion | Test/source.cpp:175-181 | During a drag, motion moves the end point to the pointer and changes nothing else. Without a drag it changes nothing. |
| Input.Release | Test/source.cpp:151-170 | Release clears the drag flag and sets the end point to the mapped pixel. Clients and the start point are unchanged. The fleet is unchanged when no server is within 100. Otherwise the fleet is exactly `IncreaseLoad` applied with 0.1 to the first nearest server. So that server's load rises, saturating at 1, and its height follows. Its x and capacity are kept, the other servers are unchanged, and a fresh server is appended exactly under the growth rule. |
| Input.Mouse | Test/source.cpp:144-173 | Buttons other than the left one change nothing. For the left button, the drag flag ends up set exactly on button-down. No server is ever removed. |
| Input.Step | Test/source.cpp:133-181 | The program ends exactly on an Escape key press. Mouse events never change the clients, and no event removes a server. |
| Input.DragGesture | Test/source.cpp:144-181 | After press, move, move, release, no drag is in progress. The arrow starts at the press point and ends at the release point. |
| Input.ReleaseWithoutPress | Test/source.cpp:151-170 | From the start state, where no press has happened, a release at any pixel inside the 800 × 600 window still matches the single server and raises its load to 0.1. |
| Input.MidpointTieKeepsFirst | Test/source.cpp:156-166 | With servers at -0.5 and -0.3 and a release in pixel column 240, at any row inside the window, the two distances are exactly equal as reals. The strict `<` keeps the first server, index 0. |
| Simulation.Run | Test/source.cpp:133-181 | Handling a sequence of events ends the program exactly when some event is an Escape key press. While the program runs, the fleet never shrinks. |
| Simulation.InitOk | Test/source.cpp:184 | The start state, one fresh server at x = -0.5 with no clients, satisfies the invariant. |
| Simulation.IncreaseLoadKeepsFleet | Test/source.cpp:116-126 | A non-negative increment keeps a well-formed fleet well-formed: 1 to 5 servers, server i at x = i*0.2-0.5 with capacity 1.0, load in [0, 1], and height = load × capacity or the untouched fresh height. |
| Simulation.StepKeepsInv | Test/source.cpp:111-181 | Every handled event keeps the invariant over servers and clients. |
| Simulation.RunKeepsInv | Test/source.cpp:111-181 | Every state reached by a run of events keeps the invariant. |
| Simulation.ReachableFleet | Test/source.cpp:123-124 | Every reachable state from program start has 1 to 5 servers, each with load in [0, 1] and server i at x = i*0.2-0.5. |
| Simulation.FreshServerHeightExempt | Test/source.cpp:121-124 | After ten bumps saturate the initial server, the server they appended does not satisfy height = load × capacity. So that rule cannot be claimed for every server. |
| Simulation.AddClientPresses | Test/source.cpp:133-137 | Pressing 'c' N times adds exactly N clients, keeps the earlier ones, places each new client on y = -0.5 inside the band, and leaves the fleet unchanged. |

## Left out

- Rendering, windowing and the frame timer are not modelled: `initOpenGL`, `display`, the draw calls in `renderServer` and `renderClient`, `renderArrow`, `reshape`, `timer`, and `main`'s GLUT setup. They are graphics calls with no effect on the simulation state.
- Process exit on Escape is modelled as the run ending with `Exited`. Terminating the process is not modelled.
- `rand()` is not modelled. A key event carries the value `rand()` would return, and `RAND_MAX` is a parameter, because both come from the C library.
- Float rounding is not modelled. In the program, adding 0.1f ten times overshoots 1.0 and is then clamped, so the load still reaches exactly 1.0. With `real` the tenth bump lands on 1.0 exactly, so the outcome is the same. The thresholds 0.33 and 0.66 are taken as exact decimals.
- Matcher.Nearest: the model compares exact real distances, while the program compares 32-bit float `sqrt` results. The two can part only where the real distances to two servers tie exactly. Pixel columns 240, 320 and 480 lie exactly midway between neighbouring server slots. There, float rounding of the mapped x makes the later server strictly closer for many rows, so the program picks it. The model's strict `<` keeps the earlier one (`Input.MidpointTieKeepsFirst`). For example, with two servers and a release at (240, 300), the program matches server 1 and the model matches server 0.
- The `Server&` reference that `push_back` invalidates is not modelled. It is not used after the append, so `increaseLoad` is modelled as an update followed by an append.
- Mouse buttons and button states are enumerations rather than GLUT's integer codes, and the keyboard handler's unused pointer coordinates are dropped.
