# GLSL 3D Particle Gravity — a Dafny model of the CPU side

GLSL_3D_Particle_Gravity is an OpenGL galaxy simulation. The CPU side is
modelled here:

- It samples a point cloud for each galaxy: a Gaussian core, an outer core and spiral arms.
- It gives every particle a tangential starting velocity, a star colour and a radius.
- It builds the sphere mesh each particle is drawn with.
- It runs a frame loop whose R and Space keys toggle bloom and pause the gravity compute shader.

The model keeps the program's own structure:

- `Random` covers `random.cpp`: `random_float`, and `gaus_rand` by Box–Muller.
  - `rand()` is an explicit stream of draws.
  - Every sampler is told at which position of that stream it reads.
- `Palette` holds the helpers that `star.cpp` and `colors.cpp` both define: `rgb8_to_f` and `is_in_range`.
- `Star` covers the spectral tables and the weighted sampler `rand_star_type_idx`.
- `Colors` covers the colour table and the uniform sampler `rand_star_color_idx` that `main.cpp` uses.
- `Galaxy` covers `generate_galaxy` and `spiral_point`.
- `Sphere` covers `sphere_vertices`.
- `ExePath` covers the executable-folder trim loop of `main.cpp`.
- `Particles` covers the particle set-up of `main.cpp`.
  - It is stated for any particle count n and list of C galaxy centres.
  - `ProgramLayout` shows that the program's 100000 particles and single centre meet its precondition.
- `Frame` covers the edge-triggered toggles and the guarded physics dispatch.
- `RealMath`, `Glm` and `Wrappers` are support modules.
  - `RealMath`: sqrt, log, cos, sin, atan and inversesqrt are fields of a `Math` record. A lemma that needs a law of one of them (a square root squares back; cos² + sin² = 1) says so in its precondition.
  - `Glm`: the few glm vector operations used.
  - `Wrappers`: `Option`.

Loops are modelled as loops:

- generate_galaxy's three loops;
- the sphere's two nested loops;
- the trim loop;
- rand_star_type_idx's bucket walk;
- the init loop, which writes three arrays in place.

Each loop is proved against a specification function of its inputs. The
render-loop state is a class whose methods update its fields.

## Model

| member | source | states |
|---|---|---|
| Random.RandomFloat | src/random.cpp:14-19 | The result lies between a and b, in either order. Draw 0 gives a, draw RAND_MAX gives b, and a == b gives a. |
| Random.Interpolate | src/random.cpp:16-18 | a + t (b - a) with t in [0, 1] stays between a and b. |
| Random.BoxMullerU | src/random.cpp:23 | u = 1 - random_float(0, 1) lies in [0, 1]. It is 0, so log(u) is undefined, exactly for the draw RAND_MAX. |
| Random.BoxMullerZ | src/random.cpp:23-25 | Given a true sqrt, cos² + sin² = 1 and log(u) <= 0, the standard-normal value satisfies z² <= -2 log(u), the square of the Box–Muller radius. |
| Random.GausRand | src/random.cpp:21-29 | With stddev 0 the sample is the mean. |
| Random.GausRandIsAffine | src/random.cpp:25-27 | Undoing the scale and shift of the sample recovers the Box–Muller value z. |
| Random.GausRandReadsTwoDraws | src/random.cpp:23-24 | A sample depends only on the two draws at its position and the next one. |
| Random.GausSamplersAgree | src/random.cpp:21-29 | Streams that agree on an interval give samplers that agree wherever both draws fall in it. |
| Palette.ByteToF | src/star.cpp:12-14 | A channel lies in [0, 1]. It is 0 iff the byte is 0x00 and 1 iff it is 0xff, and times 255 it gives back the byte. |
| Palette.Rgb8ToF | src/star.cpp:9-18 | All three channels lie in [0, 1] and each gives back its byte times 255. colors.cpp:9-18 is the same helper. |
| Palette.IsInRange | src/star.cpp:20-22 | Only a range with min <= max contains anything. colors.cpp:20-22 is the same helper. |
| Palette.InRangeInclusive | src/star.cpp:20-22 | is_in_range is closed: both ends belong to a non-empty range, and nothing outside does. colors.cpp:20-22 is the same helper. |
| Star.TablesShape | src/star.cpp:28-53 | The three tables have n_star_colors = 6 entries. The probabilities strictly decrease, the size multipliers never decrease, and the probabilities sum to 99.88, not 100. |
| Star.FirstBucket | src/star.cpp:61-64 | A bucket the decrement walk stops at is an index of the table. |
| Star.FirstBucketIsFirstMatch | src/star.cpp:59-64 | The walk returns i iff the draw minus the weights before i lies in [0, w[i]] and that holds for no earlier bucket. |
| Star.FirstBucketNoneIffNoMatch | src/star.cpp:61-64 | The walk falls off the end iff no bucket matches. |
| Star.FallsThroughIffAboveTotal | src/star.cpp:59-66 | For non-negative weights and draw, the walk falls through to the fallback iff the draw exceeds the sum of the weights. |
| Star.TruncateToSize | src/star.cpp:66 | Converting a non-negative float to size_t truncates: n <= x < n + 1. |
| Star.StarTypeIdxAsWritten | src/star.cpp:55-68 | rand_star_type_idx as written returns a valid index, and the fallback returns 0. |
| Star.RandStarTypeIdx | src/star.cpp:55-68 | The loop returns exactly what StarTypeIdxAsWritten specifies: the first matching bucket, else the truncated 0.13. |
| Star.StarTypeIdx | src/star.cpp:55-68 | Corrected sampler: the index is valid and differs from the source's only by falling back to the last type. |
| Star.FallbackCases | src/star.cpp:66 | Up to 99.88 both samplers agree. Above it the source returns type 0 and the corrected sampler type 5. |
| Star.LargestDrawFallsBackToFirstType | src/star.cpp:66 | The draw RAND_MAX reaches the fallback, where the source returns 0 and the corrected sampler 5. |
| Star.LowDrawsAreFirstType | src/star.cpp:62 | Every draw mapping to at most 76.45 picks type 0. |
| Colors.StarColorsShape | src/colors.cpp:38-45 | Six colours, every channel in [0, 1]. |
| Colors.Round | src/colors.cpp:49 | std::round gives the nearest integer, with halves going away from zero. |
| Colors.RandStarColorIdx | src/colors.cpp:47-61 | The index is a valid subscript of star_colors, as main.cpp relies on. Draw 0 gives 0, RAND_MAX gives 5, and the index is within 0.5 of random_float(0, 5). |
| Galaxy.IeeeDivide | src/galaxy.cpp:45 | p.z / p.x is NaN iff both are 0, finite iff p.x != 0, and otherwise an infinity signed like p.z. |
| Galaxy.IeeeDivideExact | src/galaxy.cpp:45 | A finite quotient times the divisor gives back the dividend. |
| Galaxy.SpiralAngleAsWritten | src/galaxy.cpp:43-46 | The spiral angle as written is NaN exactly for a seed on the y axis. |
| Galaxy.SpiralAngle | src/galaxy.cpp:43-46 | Corrected angle: on the y axis, where the source reads atan(0/0), the arctangent term is dropped and only the offset and winding term remain. |
| Galaxy.SpiralAngleAgrees | src/galaxy.cpp:43-46 | The corrected angle equals the source's wherever that is not NaN. |
| Galaxy.AxisSeedHasNaNAngle | src/galaxy.cpp:45 | Any seed (0, y, 0) gives a NaN angle, whatever the arm offset. |
| Galaxy.SpiralPoint | src/galaxy.cpp:42-48 | spiral_point keeps the seed's height and tags the point w = 1. |
| Galaxy.SpiralPointAsWritten | src/galaxy.cpp:42-48 | spiral_point as written yields a NaN point (None) exactly for a seed on the y axis. |
| Galaxy.SpiralPointAgrees | src/galaxy.cpp:42-48 | Wherever the source's point is not NaN, it is the point SpiralPoint gives. |
| Galaxy.SpiralPointKeepsRadius | src/galaxy.cpp:43-47 | Given a true sqrt and cos² + sin² = 1, spiral_point keeps the distance x² + z² from the y axis. |
| Galaxy.ArmOffset | src/galaxy.cpp:73 | The arm offset i 2 PI / arms is non-negative, zero only for arm 0, and below a full turn for every arm i < arms. |
| Galaxy.GalaxySize | src/galaxy.cpp:58-77 | generate_galaxy(n) returns at most n points, and exactly n iff 4 divides n. |
| Galaxy.ArmStartBounds | src/galaxy.cpp:70-77 | Arm blocks start after the two core phases and end where the cloud ends, at (2 + arms) n/4. |
| Galaxy.ArmIndexOfBlock | src/galaxy.cpp:70-75 | The j-th point of arm i sits at index ArmStart(i) + j and belongs to arm i. |
| Galaxy.GalaxyPoint | src/galaxy.cpp:58-77 | Core and outer-core points have w = 0 and arm points w = 1. |
| Galaxy.GalaxyPoints | src/galaxy.cpp:54-80 | The cloud has GalaxySize(n) points. |
| Galaxy.PrefixStep | src/galaxy.cpp:59-74 | Pushing the cloud's next point keeps the vector a prefix of the cloud. |
| Galaxy.ArmPointIs | src/galaxy.cpp:71-74 | The point the arm loop pushes for (i, j) is the cloud's point at ArmStart(i) + j, rotated by i 2 PI / arms. |
| Galaxy.GalaxyPointReadsThreeSamples | src/galaxy.cpp:60-73 | A point reads only its three Gaussian samples. |
| Galaxy.GalaxyPointsAgreeAt | src/galaxy.cpp:54-80 | Samplers that agree on the cloud's draws give the same point k. |
| Galaxy.GalaxyPointsReadTheirSamples | src/galaxy.cpp:54-80 | Samplers that agree on the cloud's draws give the same cloud. |
| Galaxy.GalaxyPointsReadTheirDraws | src/galaxy.cpp:54-80 | With gaus_rand, the cloud depends only on the 6 GalaxySize(n) draws from its start. |
| Galaxy.PushCorePoints | src/galaxy.cpp:58-62 | The first loop pushes the cloud's first n/4 points and consumes 6 draws per point. |
| Galaxy.PushOuterCorePoints | src/galaxy.cpp:64-68 | The second loop extends the cloud to 2 n/4 points. |
| Galaxy.PushArm | src/galaxy.cpp:71-75 | The inner arm loop extends the cloud by arm i's n/4 points. |
| Galaxy.PushArms | src/galaxy.cpp:70-76 | The outer arm loop extends the cloud by all arms. |
| Galaxy.GenerateGalaxy | src/galaxy.cpp:54-80 | generate_galaxy returns exactly GalaxyPoints and leaves the stream just past its 6 draws per point. |
| Sphere.Vertex | src/sphere.cpp:19-42 | The grid point of ring i and slice j lies in the meridian plane of slice j (x cos theta = z sin theta). Given cos² + sin² = 1, its distance² from the y axis is cos² of the ring's angle. |
| Sphere.CellFloats | src/sphere.cpp:19-42 | A cell emits 18 floats. |
| Sphere.BandFloats | src/sphere.cpp:18-43 | n cells of a band emit 18 n floats. |
| Sphere.MeshFloats | src/sphere.cpp:17-44 | n bands emit 18 slices n floats. |
| Sphere.SphereVertices | src/sphere.cpp:10-48 | sphere_vertices returns exactly MeshFloats over its rings + 2 bands. |
| Sphere.PushBand | src/sphere.cpp:18-43 | The inner loop appends one band of cells. |
| Sphere.CellStep | src/sphere.cpp:19-42 | The six vertices pushed for cell (i, j) extend the band by that cell. |
| Sphere.VertexCount | src/sphere.cpp:14-18 | The output has 18 (rings + 2) slices = 2160 floats. |
| Sphere.BandFloatsAt | src/sphere.cpp:18-43 | Float t of cell j sits at 18 j + t of its band. |
| Sphere.LastBandAt | src/sphere.cpp:17-44 | The last band's cells sit after all earlier bands. |
| Sphere.MeshFloatsAt | src/sphere.cpp:17-44 | Row-major layout: float t of cell (i, j) sits at 18 (slices i + j) + t. |
| Sphere.CellShape | src/sphere.cpp:19-42 | The cell's two triangles share the diagonal A–B, and each vertex has the height of its ring. |
| Sphere.HeightByRing | src/sphere.cpp:20-24 | A vertex's height does not depend on its slice. |
| Sphere.VertexOnUnitSphere | src/sphere.cpp:19-21 | Given cos² + sin² = 1, every vertex lies on the unit sphere. |
| Sphere.LastBandPassesPole | src/sphere.cpp:17-24 | Ring 0 is at 270° and ring rings + 1 at the pole, 450°. The last band runs past the pole. |
| ExePath.FolderOf | src/main.cpp:84 | The folder is a prefix of the path that is empty or ends in '/', and the removed suffix holds no '/'. So it is the longest such prefix. |
| ExePath.FolderOfIdempotent | src/main.cpp:84 | Trimming a folder again changes nothing. |
| ExePath.ExeFolder | src/main.cpp:84 | The trim loop with its tests in the safe order yields FolderOf(exe_path). |
| ExePath.ExeFolderAsWritten | src/main.cpp:84 | The loop as written reads back() of an empty string iff the path has no '/'. Otherwise it yields FolderOf(exe_path). |
| ExePath.BareNameReachesEmptyString | src/main.cpp:84 | "a.out" has no '/', so the loop as written reaches the empty string. |
| Particles.ParticleMass | src/main.cpp:237 | particle_mass is positive, and n particles weigh 20000 in total whatever n is. |
| Particles.ProgramLayout | src/main.cpp:236-243 | 100000 particles with one centre meet the layout the set-up needs, and particle_mass is 0.2. |
| Particles.Clouds | src/main.cpp:245-249 | C galaxies of n/C requested points give C GalaxySize(n/C) positions. |
| Particles.CloudsFillTheSlots | src/main.cpp:245-262 | The positions fill the n per-particle slots exactly iff 4 C divides n. |
| Particles.GalaxyIndex | src/main.cpp:268 | Particle i's centre index g = i/(n/C) is its block: g (n/C) <= i < (g + 1)(n/C). |
| Particles.GalaxyIndexBounds | src/main.cpp:268 | When C divides n, every particle i < n has a valid centre index, below C. |
| Particles.LayoutDividesByCentres | src/main.cpp:245-268 | When 4 C divides n, C divides n and C <= n. |
| Particles.SpeedMult | src/main.cpp:274-279 | The overriding assignments give the speed bands: 0 below 33, sqrt(m n / 2 dist)/125 below 66, 0.05 dist below 200, else 7.5. |
| Particles.InitialVelocity | src/main.cpp:270-280 | The starting velocity has y = 0 and w = 1. In the xz plane it is perpendicular to the direction of the galaxy centre. |
| Particles.Tangential | src/main.cpp:272 | cross(s d, up) scaled by any factor is perpendicular to d in xz and has no y part. |
| Particles.BaseColor | src/main.cpp:285 | The base colour has w = 1, and normalising keeps the ratios of the star colour's channels. |
| Particles.RadiusRecord | src/main.cpp:290 | The radius record is (r, 0, 0, 0). |
| Particles.RadiusSquared | src/main.cpp:290 | Given a true sqrt, r >= 0 and r² = idx + 1, which lies in [1, 6]. |
| Particles.InitialParticle | src/main.cpp:264-292 | The records of particle i: an in-plane velocity tagged w = 1, a base colour tagged w = 1, and a radius record. |
| Particles.GeneratePositions | src/main.cpp:245-249 | The positions are the C clouds drawn one after another, and the stream ends 6 draws per point later. |
| Particles.InitParticles | src/main.cpp:264-292 | After the loop every particle i < n holds InitialParticle i in the three arrays. |
| Particles.SetupParticles | src/main.cpp:236-292 | There are n positions. The four arrays are fresh, of length n, with lighting zeroed. Each particle's records are InitialParticle, its colour draw coming after all position draws. |
| Frame.Poll | src/main.cpp:435-445 | A frame flips the flag iff the key is pressed while its still-down flag is clear. After the frame, still-down equals pressed. |
| Frame.RunFlipsOncePerPress | src/main.cpp:435-445 | Over any frames the flag ends flipped iff the number of presses is odd, and still-down is the last frame's key state. |
| Frame.HoldingNeverFlips | src/main.cpp:435-445 | Holding a key that is already down never flips the flag. |
| Frame.PressAndHoldFlipsOnce | src/main.cpp:435-445 | Pressing and holding a key flips the flag once, however long it is held. |
| Frame.Ceil | src/main.cpp:478 | std::ceil gives c with c - 1 < x <= c. |
| Frame.WorkGroups | src/main.cpp:471-478 | ceil(n / 64) groups of 64 cover all n particles, and one group fewer would not. |
| Frame.CeilCovers | src/main.cpp:478 | From n/g <= c back to integers: c g >= n. |
| Frame.CeilIsLeast | src/main.cpp:478 | From c - 1 < n/g back to integers: (c - 1) g < n. |
| Frame.Simulation.constructor | src/main.cpp:401-405 | Bloom starts on, physics unpaused and both keys up. |
| Frame.Simulation.PollKeys | src/main.cpp:435-445 | R and Space each update their latch by Poll, and the particle buffers are untouched. |
| Frame.Simulation.DispatchPhysics | src/main.cpp:471-483 | When paused nothing is dispatched and the buffers are unchanged. Otherwise the shader runs once over WorkGroups(n, 64) groups with uniforms G = 1, the particle mass, light strength 0.5, delta_time and n. |
| Frame.Simulation.Step | src/main.cpp:435-483 | The toggles are polled before the dispatch, so a frame dispatches nothing iff, after its own poll, the simulation is paused (or n = 0). A paused frame keeps the buffers. An unpaused one dispatches WorkGroups(n, 64) groups and the buffers become the kernel's result on the old buffers, with uniforms G = 1, the particle mass, 0.5, delta_time and n. |

## Left out

- Floating point is modelled over `real`: single-precision rounding is not modelled. NaN and infinities appear only in the quotient p.z / p.x of `spiral_point` and in the as-written angle and point built on it. The transcendental functions are unconstrained except where a lemma states the law it needs.
- Galaxy.SpiralPoint: the cloud (GalaxyPoint, GalaxyPoints, ArmPointIs, PushArm, GenerateGalaxy) is built on the corrected angle SpiralAngle. For an arm seed (0, y, 0) the source gives the point (NaN, y, NaN, 1), which only SpiralPointAsWritten records (as None); the cloud holds the finite point (r cos theta, y, r sin theta, 1) there instead.
- Random.GausRand: `stddev == 0 ==> r == mean` holds because log is an ordinary real function here. In the source, the draw RAND_MAX makes u = 0 and log(0) = -infinity, so z is infinite and z * 0 is NaN rather than the mean.
- `rand()` is a parameter (a stream of draws in [0, RAND_MAX]). Seeding and the generator itself are left out, with glibc's RAND_MAX = 2147483647.
- Galaxy.GenerateGalaxy: the three loops of generate_galaxy are split into helper methods (PushCorePoints, PushOuterCorePoints, PushArms/PushArm). gaus_rand is passed in as a sampler told its stream position.
- Galaxy.GenerateGalaxy: the `radius` parameter is unused by the source and is kept only as an ignored argument. main.cpp passes a vec3 to this float parameter; the model passes 0.
- The loop over extra galaxies in main.cpp (lines 246-249) always passes `galaxy_centers[1]`. That argument only reaches the ignored `radius`, so the model does not read it.
- The order of the three `gaus_rand` calls inside one `glm::vec4(...)` or `glm::vec3(...)` argument list is unspecified in C++. The model takes them left to right.
- Particles.SetupParticles is stated for any n and list of centres under Layout (4 C divides n). Without it the source reads past the end of `particle_positions`, which is undefined behaviour.
- Particles.InitialVelocity: a particle exactly at its centre makes `glm::normalize` divide by zero. The model leaves inversesqrt(0) unconstrained rather than producing NaN.
- The gravity kernel: physics.comp is not part of this model. The dispatch takes the kernel as a parameter of type `Kernel`, so no force law or lighting rule is stated. The memory barrier and the uniform-location lookups are left out.
- OpenGL and GLFW plumbing is left out because it consists of foreign calls with no logic to state. This covers buffer creation, shaders.cpp, framebuffers, the bloom pass, the camera, cursor input and timing.
- get_exe_path (readlink / GetModuleFileName) is OS I/O; its result is the parameter of the trim loop.
- The render loop itself is left out; Frame.Simulation.Step is one iteration of it, and only its toggles and dispatch are modelled.
- `particle_lighting` is only allocated and zeroed on the CPU side. The shader writes it.
- The weighted colour sampler commented out in colors.cpp is dead code and is not modelled. The star tables are modelled although main.cpp does not call them.

## Findings

| source | as written | input that shows it | evidently intended | confidence | as-written member | corrected member |
|---|---|---|---|---|---|---|
| src/star.cpp:66 | The fallback returns `star_probabilities[n_star_colors-1]`, the float 0.13, converted to `size_t`, which is 0. | Any draw mapping above 99.88 (the table sums to 99.88), e.g. rand() = RAND_MAX, returns type 0. | Return the last index, n_star_colors - 1. | not executed | Star.StarTypeIdxAsWritten | Star.StarTypeIdx |
| src/galaxy.cpp:45 | `atan(p.z/p.x)` is taken even when both are 0. | A seed with p.x = p.z = 0 gives 0/0 = NaN, so the point's x and z are NaN. | Give the arctangent term 0 there (the radius is 0, so the point lies on the axis). | not executed | Galaxy.SpiralAngleAsWritten | Galaxy.SpiralAngle |
| src/main.cpp:84 | `exe_folder.back()` is read before `exe_folder.length() != 0` is tested. | A path with no '/', such as "a.out", is popped down to "", and back() of an empty string is undefined. | Test the length first and stop at "". | not executed | ExePath.ExeFolderAsWritten | ExePath.ExeFolder |
