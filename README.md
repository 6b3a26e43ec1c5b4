# gpgpu-startracker in Dafny

gpgpu-startracker extracts star spots from a camera image on an OpenGL ES GPU.
It runs three phases, each a fixed sequence of full-screen fragment-shader
passes between two "ping-pong" textures:

- **Labeling** gives each pixel of a bright area of two or more pixels the
  label of a pixel in the same area; a bright pixel none of whose 8 sampled
  neighbours is bright becomes background (with clamp-to-edge sampling, an
  edge pixel's outside neighbours are edge pixels again, possibly itself).
- **Reduction** compacts the root labels into a list in the top-left corner.
- **Statistics** fills an area around every spot, sums pixel counts,
  luminance and luminance-weighted positions over a doubling window, and
  writes the sums next to the reduced list. The host then reads that table
  back and decodes it into spots.

A fourth phase, **lookup**, draws a grid of vertices as points.

This project models the host code that drives these passes, and states the
per-pass cell rules the documentation headers give as functions on grids. The
modules are:

- `Phase`: the integer helpers of `src/phase.cpp`.
  - `logBase2`, a bit-length count.
  - The little-endian texel reads.
  - The 24-bit sign-magnitude decode of `printSignedLabels`.
  - The label decode of `printLabels`.
  - The false-colour loop of `writeTgaImage`.
- `Units`: texture-unit allocation from the `bfUsedTextures` bitfield
  (lowest clear bit, then set it).
- `Gpu`: the part of the GL context the phases touch, as a class `Device`:
  - texture names and their symbolic contents (blank, uploaded from a host
    buffer, or the output of draw number k);
  - the texture bound to each unit;
  - framebuffer attachments and the bound framebuffer;
  - a log of draw calls.
- `Host`: what the phases share.
  - Making a texture on the lowest free unit, and the two-texture ping-pong
    loop.
  - Runs of allocations counted by rank.
  - The ping-pong index each pass writes, and what the two textures hold
    after n passes.
- `Grids`, `Labeling`, `Reduction`, `Stats`: a texture is a grid of texels.
  Each texel is two 16-bit halves `lo` and `hi`: the x and y labels, or a
  count and a luminance sum. Every pass is a function from the frozen
  previous grid to a new grid, following `include/doc-labelphase.h`,
  `include/doc-reductionphase.h` and `include/doc-statsphase.h`. Out-of-grid
  reads are clamp-to-edge with nearest filtering (`Clamp`), or ignored
  (`Guard`). The documents leave some rules open; they are parameters:
  - the border handling;
  - the exact merge mask;
  - the fill distance and tie-break order.
- `LabelHost` (`src/labelPhase.cpp`), `LabelHostOld` (the older
  `labelPhase.cpp` at the top of the repository), `ReductionHost`,
  `StatsHost` with `StatsTable`, and `LookupHost`: one class per phase.
  - Each class has the phase's fields: the framebuffer array, the ping-pong
    texture array, the array of texture units, `mRead`/`mWrite` and the role
    textures.
  - `init`, `initIndependent`, `updateTextures`, the stages and `run` are
    methods that change those fields and the `Device`.
  - Their contracts tie the new state to pure specification functions of the
    old state, and lemmas state what those functions imply: the pass
    schedule, which texture each pass samples and renders into, which
    permutations the role swaps make, and where results end up.

`LabelHost.RunComputesLabels` connects the labeling host to the grid model.
The draws `run()` issues, replayed on an uploaded image, compute the labels
that `Labeling.Labels` defines. `Labeling.LabelsSound` proves those labels
sound: two pixels that share a label lie in the same 8-connected area. That
an area ends with one label only is not proved (see "Left out").

Byte buffers (`GLubyte`) are read little-endian. Sizes and counters are
`nat`. The bitfield is a `nat`, of which at most 32 units are searched.

## Model

| member | source | states |
|---|---|---|
| Grids.ClampTo | src/phase.cpp:28-31 | clamp-to-edge of a coordinate is the position of 0..n-1 nearest to it, and no other position is as near |
| Grids.Sample | src/phase.cpp:28-31 | a nearest-filtered read gives the texel inside the grid; outside it gives the nearest edge texel under clamp-to-edge, or nothing when guarded |
| Grids.SampleClamped | src/phase.cpp:30-31 | under clamp-to-edge every read, in or out of the grid, returns the texel in the nearest column and the nearest row |
| Grids.NearestUnique | src/phase.cpp:28-31 | a position of 0..n-1 nearest to a coordinate is the one clamp-to-edge picks |
| Grids.SampleOccurs | src/phase.cpp:28-31 | a sample is background or a texel stored in the grid, so sampling never invents a value |
| Phase.BitLength | src/phase.cpp:345-355 | `logBase2` gives 0 for n <= 0; for n >= 1 it gives r >= 1 with 2^(r-1) <= n < 2^r |
| Phase.LogBase2 | src/phase.cpp:345-355 | the shift-and-count loop terminates and returns the bit length of n |
| Phase.BitLengthOfPow2 | src/phase.cpp:345-355 | `logBase2(2^k)` is k + 1, not k |
| Phase.BitLengthMonotone | src/phase.cpp:348-352 | `logBase2` never decreases as n grows |
| Phase.SignDecode | src/phase.cpp:325-336 | a word with a bit of its top byte set decodes to minus its low 24 bits, any other word to itself; the magnitude is always below 2^24 |
| Phase.SignDecodeAt | src/phase.cpp:325-336 | on the four bytes of a texel: byte 3 is the sign, bytes 0-2 the little-endian magnitude |
| Phase.SignDecodeOfSignMagnitude | src/phase.cpp:325-336 | round trip: every value of magnitude below 2^24, encoded with top byte 0xFF when negative, decodes back to itself |
| Phase.TexelInside | src/phase.cpp:306-313 | texel (i, j) of a width-by-height image starts at byte 4*(i*width+j), and its four bytes lie inside the 4*width*height bytes |
| Phase.TexelOffsetInjective | src/phase.cpp:306-310 | different texels have different byte offsets |
| Phase.LabelPair | src/phase.cpp:310-312 | the printed pair holds the ushorts at byte offsets 0 and 2 of the texel, which together form its 32-bit word |
| Phase.PrintLabels | src/phase.cpp:304-316 | the nested loop decodes every texel, row by row, into its ushort pair: width*height pairs, pair k from texel k |
| Phase.PrintSignedLabels | src/phase.cpp:318-343 | the nested loop decodes every texel's word with the sign-magnitude decode, row by row |
| Phase.FalseColourOfBackground | src/phase.cpp:233-239 | a texel whose unsigned word is 0 (all four bytes 0) becomes (0, 0, 0, 255), and only such a texel has word 0 |
| Phase.FalseColourImage | src/phase.cpp:229-248 | the loop fills a new buffer of exactly 4*width*height bytes; every texel is the false colour of the matching input texel, and the input is not written |
| Units.ClaimBit | src/labelPhase.cpp:77 | `bf \|= 1<<i` on a clear bit i sets bit i and no other bit |
| Units.ClaimReducesFree | src/labelPhase.cpp:77 | claiming a clear bit below n leaves one free unit fewer below n |
| Units.LowestFree | src/labelPhase.cpp:72-73 | the search loop stops at the lowest clear bit, which lies below 32 |
| Units.Allocate | src/labelPhase.cpp:72-77 | one allocation takes the lowest clear bit and sets exactly that bit; all other bits are as before, and one unit fewer is free |
| Gpu.Device.CreateTexture | src/phase.cpp:11-34 | `createSimpleTexture2D` on the active unit: a new texture name with the given content, bound to that unit; nothing else changes |
| Gpu.Device.BindFramebuffer | src/labelPhase.cpp:165 | `glBindFramebuffer` changes only the bound framebuffer |
| Gpu.Device.AttachTexture | src/labelPhase.cpp:166 | `glFramebufferTexture2D` changes only the colour attachment of the bound framebuffer |
| Gpu.Device.Draw | src/labelPhase.cpp:229 | a draw is logged with its target, the textures its samplers read, their contents and its uniforms; the attached texture then holds its output |
| Host.NewTexture | src/labelPhase.cpp:89-96 | one allocation block: a new texture with the given content, bound to the lowest free unit; that unit is claimed and one unit fewer is free |
| Host.NewPingPong | src/labelPhase.cpp:70-80 | the ping-pong loop: two new distinct blank textures on the two lowest free units, stored in mTextureUnits[TEX_PIPO] and [TEX_PIPO+1]; no other unit entry changes |
| Host.ClaimedNextUnit | src/statsPhase.cpp:156-197 | after n allocations in a row, the next one gets free unit number n of the starting bitfield |
| Host.ClaimedNext | src/statsPhase.cpp:156-197 | that allocation leaves the n + 1 lowest free units of the starting bitfield claimed |
| Host.NthFreeDistinct | src/statsPhase.cpp:156-197 | different allocations of a run get different units |
| Host.TargetParity | src/labelPhase.cpp:222-230 | with every pass rendering into fbo[mWrite] and then swapping, pass k writes the starting mWrite again when k is even and the other index when k is odd |
| Host.TexturesAfterAt | src/labelPhase.cpp:209-246 | after i >= 1 passes the texture mRead names holds the last output, the other ping-pong texture holds the one before it, and no other texture changes |
| LabelHost.Passes | src/labelPhase.cpp:185-209 | run() draws the initial pass and loop passes 1..logBase2(height)+9, at least 10 draws |
| LabelHost.FactorSchedule | src/labelPhase.cpp:178-219 | u_factor starts at -1 and flips before every merge, so merges alternate +1 (forward, first) and -1; consolidations keep it |
| LabelHost.ScheduleChain | src/labelPhase.cpp:185-230 | no pass samples the texture it renders into; the initial pass samples the original image, each later pass what the pass before it rendered |
| LabelHost.PassesOfPow2 | src/labelPhase.cpp:209 | for a height of 2^k, run() draws k + 11 passes |
| LabelHost.FinalRead | src/labelPhase.cpp:193-230 | after init and run(), mRead names ping-pong texture 0 when the bit length of the height is even, 1 when it is odd |
| LabelHost.RunComputesLabels | src/labelPhase.cpp:185-230 | replayed on the uploaded image, draw k of run() renders the labels after stage 1 and k loop passes of the grid model |
| LabelHost.LabelPhase.constructor | src/labelPhase.cpp:14-28 | stores the image size; the member arrays have their C++ sizes |
| LabelHost.LabelPhase.Init | src/labelPhase.cpp:37-85 | stores the framebuffers, sets mRead = 0 and mWrite = 1, and makes the two ping-pong textures on the two lowest free units; returns GL_TRUE even when the program fails to load |
| LabelHost.LabelPhase.InitIndependent | src/labelPhase.cpp:87-101 | uploads the original image to a new texture on the lowest free unit, then runs init(); the three units are the three lowest free ones, distinct, and the phase is ready to run |
| LabelHost.LabelPhase.GettersAgree | src/labelPhase.cpp:103-131 | getLastTexture and getFreeTexture are pipo[mRead] and pipo[mWrite], two distinct textures, each with the unit it is bound to; the three units differ |
| LabelHost.LabelPhase.AttachPingPong | src/labelPhase.cpp:163-168 | fbo[i] gets pipo[i] attached, for i = 0, 1 |
| LabelHost.LabelPhase.DrawPass | src/labelPhase.cpp:222-230 | one pass: binds fbo[mWrite], draws from the given unit into pipo[mWrite] and swaps mRead and mWrite |
| LabelHost.LabelPhase.SetUniforms | src/labelPhase.cpp:211-219 | odd i: u_pass = STAGE_HIGHEST_LABEL and u_factor negated; even i: u_pass = i |
| LabelHost.LabelPhase.LoopPass | src/labelPhase.cpp:211-230 | loop pass i extends the state after i passes to the state after i + 1 |
| LabelHost.LabelPhase.LabelLoop | src/labelPhase.cpp:209-246 | the for-loop issues passes 1..logBase2(height)+9 of the schedule |
| LabelHost.LabelPhase.Run | src/labelPhase.cpp:143-254 | attaches both ping-pong textures, then issues exactly the scheduled draws, each reading what the one before wrote; the textures end as the closed form says |
| LabelHostOld.LabelPhase.constructor | labelPhase.cpp:10-24 | stores the image size; the member arrays have their C++ sizes |
| LabelHostOld.LabelPhase.Init | labelPhase.cpp:26-77 | sets mRead = 0 and mWrite = 1 and makes the two ping-pong textures on the two lowest free units; returns GL_TRUE even when the program fails to load |
| LabelHostOld.LabelPhase.InitIndependent | labelPhase.cpp:79-93 | uploads the original image to the lowest free unit, then runs init(); three distinct lowest free units, ready to run |
| LabelHostOld.LabelPhase.GettersAgree | labelPhase.cpp:95-113 | the last and free getters return pipo[mRead] and pipo[mWrite], distinct, each with its bound unit |
| LabelHostOld.LabelPhase.AttachPingPong | labelPhase.cpp:135-144 | fbo[i] gets pipo[i] attached |
| LabelHostOld.LabelPhase.DrawPass | labelPhase.cpp:192-201 | one pass into pipo[mWrite], then the swap |
| LabelHostOld.LabelPhase.SetUniforms | labelPhase.cpp:178-188 | odd i: u_pass = 1 and u_factor negated; even i: u_pass = i; u_debug = 0 on every loop pass |
| LabelHostOld.LabelPhase.LoopPass | labelPhase.cpp:178-201 | loop pass i extends the state after i passes to the state after i + 1 |
| LabelHostOld.LabelPhase.LabelLoop | labelPhase.cpp:176-216 | passes 1..logBase2(height)+9 of the schedule |
| LabelHostOld.LabelPhase.Run | labelPhase.cpp:131-220 | the attachment loop, then the scheduled draws with u_debug set on the loop passes only |
| Labeling.ThresholdKeepsIntensity | include/doc-labelphase.h:20-25 | a pixel below the cut-off becomes background 0, any other keeps its intensity; thresholding twice changes nothing |
| Labeling.ThresholdAt | include/doc-labelphase.h:20-25 | a sample of the thresholded image is nonzero exactly when the original sample exists and reaches the cut-off |
| Labeling.InitialLabelsAt | include/doc-labelphase.h:29-33 | a pixel gets label (x+1, y+1), never the background label, exactly when it reaches the cut-off and one of its 8 sampled neighbours does (under Clamp an outside neighbour is clamped to an edge pixel, possibly the pixel itself); otherwise it becomes background |
| Labeling.Highest | include/doc-labelphase.h:40-42 | the highest label of the mask is one of its 5 labels and none of them is higher |
| Labeling.MergeAt | include/doc-labelphase.h:40-42 | a merge keeps zero pixels zero, never lowers a label, and gives each labelled pixel the highest of its mask's labels |
| Labeling.PassesCopyLabels | include/doc-labelphase.h:40-46 | every label a merge or consolidation writes was already in the previous grid |
| Labeling.MergeFactorAlternates | include/doc-labelphase.h:51 | the merges alternate forward and backward masks, forward first |
| Labeling.InitialLabelsSound | include/doc-labelphase.h:29-33 | after stage 1 every label names its own pixel, which is in the foreground |
| Labeling.MergeSound | include/doc-labelphase.h:40-42 | a merge keeps the foreground and keeps every label within its holder's 8-connected area |
| Labeling.ConsolidateSound | include/doc-labelphase.h:46 | a consolidation, reading the pixel the label points to, keeps the foreground and keeps every label within its holder's area |
| Labeling.AfterLoopSound | include/doc-labelphase.h:51 | any number of alternating merge and consolidation passes keeps the labels sound |
| Labeling.LabelsSound | include/doc-labelphase.h:10-15 | the final labels: the foreground is stage 1's, and every label names a foreground pixel of its holder's 8-connected area |
| Reduction.RootFilterAt | include/doc-reductionphase.h:25-29 | exactly the pixels whose label equals their own coordinates plus one survive, unchanged; all others become 0 |
| Reduction.RootFilterDistinct | include/doc-reductionphase.h:8-11 | after the root filter no two pixels share a label |
| Reduction.SumInitWindow | include/doc-reductionphase.h:37-40 | the init value is 1 for a zero pixel, plus 1 when its left neighbour is zero: the gaps among the 2 pixels ending at it |
| Reduction.RunningSumWindow | include/doc-reductionphase.h:46-48 | after j >= 1 passes, each adding the value 2^i to the left, a pixel holds the number of gaps among the 2^j pixels ending at it |
| Reduction.RunningSumPrefix | include/doc-reductionphase.h:55-58 | after logBase2(length) passes every pixel holds the number of gaps up to and including it, a sum that never decreases along the row |
| Reduction.SearchPassStep | include/doc-reductionphase.h:58-63 | each search pass halves the step and keeps the search invariant: positions before the offset lie beyond the source, the end of the window does not |
| Reduction.FirstNotBeyond | include/doc-reductionphase.h:59-63 | the first position the search cannot pass is the source: the k-th label of the row, or the end of the row |
| Reduction.FinalCellFindsSource | include/doc-reductionphase.h:63-65 | the last pass copies the source into destination k when the row has a k-th label, and writes 0 otherwise |
| Reduction.ReduceRowCompacts | include/doc-reductionphase.h:55-65 | compaction of a row: destination k holds the k-th label of the row in order, and every later pixel is 0 |
| Reduction.ReduceRowPacked | include/doc-reductionphase.h:55-65 | exactly the first K pixels of the result are labels, K being the number of labels in the row |
| Reduction.ReduceRowSource | include/doc-reductionphase.h:55-65 | each result label comes from the pixel whose rank among the labels is its position |
| Reduction.ReduceRowKeeps | include/doc-reductionphase.h:55-65 | every label of the row is in the result |
| Reduction.ReduceGridTopLeft | include/doc-reductionphase.h:13-16 | horizontal then vertical reduction leaves the labels as a staircase in the top-left corner: a label at (x, y) means labels at every (x', y') above and to the left of it |
| Reduction.ReduceListsRoots | include/doc-reductionphase.h:11-16 | the whole phase lists the roots in the top-left corner: every root of the label image is in the result, every label of the result is a root, none twice, as a top-left staircase |
| Reduction.ReduceGridKeepsLabels | include/doc-reductionphase.h:13-16 | the reduction keeps exactly the labels of the input and keeps them distinct |
| Reduction.ClampDuplicates | src/phase.cpp:30-31 | with clamp-to-edge reads and no guard, the row [background, label] compacts to [label, label], so the compaction needs out-of-row reads to be ignored |
| ReductionHost.ReduceSchedule | src/reductionPhase.cpp:298-331 | u_pass runs 0..L-1 in the running sum, then L-1 down to 0 in the binary search, so pass k and pass 2L-1-k share it |
| ReductionHost.PassNext | src/reductionPhase.cpp:303-323 | one more pass renders into pipo[mWrite], samples pipo[mRead] and the root texture, and swaps mRead and mWrite |
| ReductionHost.ReduceResult | src/reductionPhase.cpp:286-359 | after reduce(length) pipo[mRead] holds the last of the 2L outputs, and is untouched when L = 0 |
| ReductionHost.ReduceKeeps | src/reductionPhase.cpp:286-359 | reduce writes only the two ping-pong textures; the root texture keeps its content, and mRead and mWrite end as they started |
| ReductionHost.SwapPermutes | src/reductionPhase.cpp:250-251 | the root and pipo[mRead] swap permutes the three texture ids |
| ReductionHost.RunShape | src/reductionPhase.cpp:160-284 | after run() the horizontal result is the root texture, the old root texture has its place among the ping-pong textures, and the units moved with their textures |
| ReductionHost.RunAttachment | src/reductionPhase.cpp:217-258 | after run() each framebuffer has its current ping-pong texture attached |
| ReductionHost.HorizontalStage | src/reductionPhase.cpp:184-251 | the root pass, the 2L horizontal passes, and the role swap that follows them |
| ReductionHost.VerticalLog | src/reductionPhase.cpp:253-265 | the vertical reduce(height) continues the log after the swap |
| ReductionHost.RunLog | src/reductionPhase.cpp:160-284 | run() logs the root pass (into the root texture, through fbo[0], with no swap), then 2*logBase2(width) horizontal and 2*logBase2(height) vertical passes |
| ReductionHost.RunResult | src/reductionPhase.cpp:160-284 | the vertical result, when there is one, is in pipo[mRead] after run() |
| ReductionHost.ReductionPhase.constructor | src/reductionPhase.cpp:20-35 | stores the size, with u_debug = 0 |
| ReductionHost.ReductionPhase.Init | src/reductionPhase.cpp:45-93 | stores the framebuffers and sets mRead = 0, mWrite = 1; on a program-load failure it returns GL_FALSE before making any texture; otherwise it makes the two ping-pong textures on the two lowest free units |
| ReductionHost.ReductionPhase.InitIndependent | src/reductionPhase.cpp:96-131 | label and root textures on the two lowest free units, then init(); the four units are the four lowest in turn and distinct |
| ReductionHost.ReductionPhase.UpdateTextures | src/reductionPhase.cpp:149-158 | takes over only the label and root textures and their units; nothing else changes |
| ReductionHost.ReductionPhase.UpdateKeepsReady | src/reductionPhase.cpp:149-158 | textures bound to the units handed over, and not the phase's own ping-pong textures, leave the phase ready to run |
| ReductionHost.ReductionPhase.RootInit | src/reductionPhase.cpp:184-196 | u_stage = ROOT_INIT; fbo[0] gets the root texture, and one draw renders into it from the label image; no swap |
| ReductionHost.ReductionPhase.AttachPingPong | src/reductionPhase.cpp:217-222 | fbo[i] gets pipo[i] attached |
| ReductionHost.ReductionPhase.DrawPass | src/reductionPhase.cpp:300-323 | one pass: bind fbo[mWrite], sample pipo[mRead] and the root texture, draw, swap |
| ReductionHost.ReductionPhase.ReduceStep | src/reductionPhase.cpp:298-354 | pass k of reduce() extends the first k scheduled passes to k + 1 |
| ReductionHost.ReductionPhase.RunningSum | src/reductionPhase.cpp:294-324 | u_stage = RUNNING_SUM and passes u_pass = 0..L-1 |
| ReductionHost.ReductionPhase.BinarySearch | src/reductionPhase.cpp:327-354 | u_stage = BINARY_SEARCH and passes u_pass = L-1 down to 0 |
| ReductionHost.ReductionPhase.Reduce | src/reductionPhase.cpp:286-359 | reduce(length) changes the phase and context exactly as the specification of the 2L passes says |
| ReductionHost.ReductionPhase.SwapRoot | src/reductionPhase.cpp:250-258 | the root texture and pipo[mRead] trade ids and units, and fbo[mRead] gets its new texture attached |
| ReductionHost.ReductionPhase.ReduceHorizontally | src/reductionPhase.cpp:184-232 | the root pass, the attachment loop and reduce(width) with u_direction = HORIZONTAL |
| ReductionHost.ReductionPhase.ReduceVertically | src/reductionPhase.cpp:250-265 | the swap, then reduce(height) with u_direction = VERTICAL |
| ReductionHost.ReductionPhase.Run | src/reductionPhase.cpp:160-284 | run() changes the phase and context as the run specification says |
| Stats.Nearer | include/doc-statsphase.h:25-27 | of two corner samples, the label whose root is nearer; background only when both are background |
| Stats.FillKeeps | include/doc-statsphase.h:25-27 | a fill pass leaves every labelled pixel unchanged |
| Stats.FillStaysZero | include/doc-statsphase.h:25-29 | a zero pixel stays zero exactly when all three corners (x+2^n, y), (x, y+2^n) and (x+2^n, y+2^n) are background |
| Stats.FillSource | include/doc-statsphase.h:25-29 | a pixel the pass fills takes a corner's label, and no labelled corner has a strictly nearer root |
| Stats.FillStepSource | include/doc-statsphase.h:25-29 | a filled pixel holds the label of a pixel of the previous grid |
| Stats.FillStepCovers | include/doc-statsphase.h:25-29 | after a pass a pixel is nonzero if it was, or if one of its corners was |
| Stats.FillPassCovers | include/doc-statsphase.h:15-16 | a pass of step 2^n doubles the square in front of every label that is covered |
| Stats.FillFromCovers | include/doc-statsphase.h:15-16 | passes n..n+k-1 grow a covered square of side 2^n to side 2^(n+k) |
| Stats.FillExtends | include/doc-statsphase.h:31-33 | the filling stage keeps every label in place, so the filled area contains the spot |
| Stats.FillSourced | include/doc-statsphase.h:31-33 | every nonzero pixel after filling holds a label of the label grid |
| Stats.FillCovers | include/doc-statsphase.h:15-16 | after mNumFillIterations = 2 passes, every pixel with a label in the 4x4 square in front of it is filled |
| Stats.DoublingWindow | include/doc-statsphase.h:55-57 | k doubling passes give each pixel whose whole 2^k x 2^k square is filled the sum of the initial values over that square |
| Stats.CountWindow | include/doc-statsphase.h:50-61 | the counting stage gives a pixel with a filled 16x16 square the number of labelled pixels and their luminance sum over it, from init (1, luminance) |
| Stats.CentroidWindow | include/doc-statsphase.h:70-77 | the centroiding stage gives the sum of luminance-weighted distances to the root over the same square |
| Stats.CountFits | include/doc-statsphase.h:45-48 | the count is at most 256 and the luminance sum at most 256*255, both within an unsigned 16-bit half, for any fill |
| Stats.CentroidWithin | include/doc-statsphase.h:78-79 | when every labelled pixel lies within 15 pixels of its root, each centroid sum is at most 256*15*255 in magnitude |
| Stats.CentroidFits | include/doc-statsphase.h:78-79 | so each centroid sum stays below 2^24 in magnitude, and its sign-magnitude word decodes back to it |
| StatsTable.CellReadsInside | src/statsPhase.cpp:285-294 | with a 40-texel row and i < 10, every byte read for a cell, up to byte index+120+3, lies in row j of the 4*40*H buffer |
| StatsTable.Centre | src/statsPhase.cpp:316-317 | the centroid is x label - 1 - sumX/lum and y label - 1 - sumY/lum; it exists exactly when the luminance sum is nonzero |
| StatsTable.CellSpotAt | src/statsPhase.cpp:294-321 | corrected: read at index 4*(j*40+i): no spot for a zero x label or an area <= 2; otherwise the spot with that area and centre |
| StatsTable.AsWrittenSkips | src/statsPhase.cpp:296-301 | the source's byte test and the 16-bit x-label test differ exactly on a root whose x label is a nonzero multiple of 256 with area > 2, which the source skips |
| StatsTable.LowByteCounterexample | src/statsPhase.cpp:296 | a root at x = 255, x label 256 and area 3, yields no spot as written but a spot under the 16-bit test |
| StatsTable.Row | src/statsPhase.cpp:292-323 | corrected: row j has 10 cells, cell i being the spot the cell at column i holds |
| StatsTable.TableSpotsMembers | src/statsPhase.cpp:288-324 | corrected: the decoded list has at most 10 spots per row; a spot is in it exactly when some cell yields it; every spot's area exceeds 2 |
| StatsTable.TableSpotsRowMajor | src/statsPhase.cpp:290-324 | the spots of rows 0..j-1 come first, in order, followed by those of the later rows |
| StatsHost.SetOffset | src/statsPhase.cpp:464 | glUniform1f(u_savingOffset) sets the offset of the program in use; the other program keeps its own |
| StatsHost.KeepPermutes | src/statsPhase.cpp:406-407 | the closing swap of a stage permutes the role textures, so they stay distinct |
| StatsHost.LoopAt | src/statsPhase.cpp:434-457 | the first i passes of a loop alternate between the ping-pong textures, pass j as the schedule lists it; the role textures do not change |
| StatsHost.FillResult | src/statsPhase.cpp:350-414 | fillStage: pass 0 samples the label image, pass 1 the output of pass 0; the result then takes the fill role |
| StatsHost.SumLoopResult | src/statsPhase.cpp:434-457 | the summing loop: five passes, u_pass first, 0, 1, 2, 3, each sampling the previous output through s_result |
| StatsHost.SaveBlendResult | src/statsPhase.cpp:461-501 | SAVE renders into pipo[mWrite], BLEND renders into the other texture from SAVE's output and the reduced table; the BLEND output then becomes the reduced table |
| StatsHost.SumResult | src/statsPhase.cpp:416-505 | countStage and centroidingStage: 7 draws and 7 swaps, all with the quadrant's factors; the last BLEND output becomes the reduced table |
| StatsHost.SumSaveAsWritten | src/statsPhase.cpp:461-466 | as written, SAVE samples through s_result the texture it renders into (a feedback loop GL leaves undefined; the model reads the texture's content before the pass, the output of the third doubling pass); the output of the last doubling pass is never read |
| StatsHost.SumSaveReadsLast | src/statsPhase.cpp:461-466 | corrected: SAVE samples the last doubling pass's output, from a texture other than its target |
| StatsHost.QuadrantResult | src/statsPhase.cpp:261-264 | one quadrant, as written or corrected: fill, count with OFFSET, centroid x with 2*OFFSET and centroid y with 3*OFFSET, 23 draws, each stage starting from the table the previous one left; each SAVE samples the last summing pass (corrected) or the one before it (as written) |
| StatsHost.RunResult | src/statsPhase.cpp:259-282 | run(), as written or corrected: the four quadrants with factors (1, 1), (-1, 1), (-1, -1), (1, -1), in that order, 92 draws; the last BLEND holds the final table |
| StatsHost.ReadBackMissesLastBlend | src/statsPhase.cpp:285-286 | on run() as written, glReadPixels reads fbo[mRead], which holds the table before the last BLEND, and not that BLEND's output |
| StatsHost.MadeNext | src/statsPhase.cpp:156-163 | one allocation block more, on the lowest unit still free, is allocation number n of the run |
| StatsHost.MadeRoles | src/statsPhase.cpp:154-201 | after all six allocations, each role has its own new texture on its own unit, holding what its block uploaded |
| StatsHost.StatsPhase.constructor | src/statsPhase.cpp:34-54 | stores the size, with an empty mSpots and arrays of the C++ sizes |
| StatsHost.StatsPhase.Init | src/statsPhase.cpp:60-152 | stores the framebuffers, sets mRead = 0 and mWrite = 1, and makes ping-pong texture 1, empty, on the lowest free unit; returns GL_TRUE |
| StatsHost.StatsPhase.NewRole | src/statsPhase.cpp:156-197 | one block of initIndependent: the role of allocation k gets a new texture on the lowest free unit, holding that block's upload; only that role's id and unit change |
| StatsHost.StatsPhase.InitIndependent | src/statsPhase.cpp:154-201 | label, reduced, orig, fill, pipo0 and then pipo1 (in init) get the six lowest free units in that order; the units differ and the textures are new |
| StatsHost.StatsPhase.UpdateTextures | src/statsPhase.cpp:203-222 | takes over every role but ping-pong texture 1 with its unit; ping-pong texture 1 stays |
| StatsHost.StatsPhase.DrawSwap | src/statsPhase.cpp:359-368 | one pass: bind fbo[mWrite], draw from the units of the given roles, swap mRead and mWrite |
| StatsHost.StatsPhase.KeepFill | src/statsPhase.cpp:406-410 | the fill texture and pipo[mRead] trade ids and units, and fbo[mRead] gets its new texture attached |
| StatsHost.StatsPhase.KeepReduced | src/statsPhase.cpp:497-501 | the reduced table and pipo[mRead] trade ids and units, and fbo[mRead] gets its new texture attached |
| StatsHost.StatsPhase.AttachPingPong | src/statsPhase.cpp:245-250 | fbo[i] gets pipo[i] attached |
| StatsHost.StatsPhase.FillStage | src/statsPhase.cpp:350-414 | fillStage changes the phase and context as the fill specification says |
| StatsHost.StatsPhase.SetSavingOffset | src/statsPhase.cpp:464 | sets u_savingOffset of the program in use |
| StatsHost.StatsPhase.SavePass | src/statsPhase.cpp:461-467 | corrected: SAVE with s_result set to pipo[mRead] |
| StatsHost.StatsPhase.BlendPass | src/statsPhase.cpp:480-485 | BLEND from pipo[mRead] and the reduced table |
| StatsHost.StatsPhase.SaveBlendStage | src/statsPhase.cpp:461-501 | corrected: the offset, SAVE, BLEND and the closing swap |
| StatsHost.StatsPhase.SumPass | src/statsPhase.cpp:437-445 | a summing pass: fill, original and label textures, the previous output through s_result, the given u_pass |
| StatsHost.StatsPhase.CountStage | src/statsPhase.cpp:416-505 | corrected: countStage changes the phase and context as the corrected summing specification says |
| StatsHost.StatsPhase.CountPasses | src/statsPhase.cpp:434-457 | passes u_pass = -1..3 |
| StatsHost.StatsPhase.CentroidingStage | src/statsPhase.cpp:507-613 | corrected: centroidingStage: an init pass with u_pass = coordinate, passes 0..3, then SAVE and BLEND |
| StatsHost.StatsPhase.CentroidPasses | src/statsPhase.cpp:526-565 | passes u_pass = coordinate, 0, 1, 2, 3 |
| StatsHost.StatsPhase.Quadrant | src/statsPhase.cpp:261-264 | corrected: one quadrant, as the quadrant specification says |
| StatsHost.StatsPhase.DecodeSpots | src/statsPhase.cpp:288-324 | corrected: mSpots is cleared, then the nested loop appends the spots of the table row by row |
| StatsHost.StatsPhase.DecodeRow | src/statsPhase.cpp:292-323 | corrected: row j appends the spots of its 10 cells, left to right |
| StatsHost.StatsPhase.Stages | src/statsPhase.cpp:245-282 | corrected: the attachment loop and the four quadrants |
| StatsHost.StatsPhase.ReadReduced | src/statsPhase.cpp:285-286 | corrected: the corrected readback yields the reduced table, which holds the last BLEND |
| StatsHost.StatsPhase.Run | src/statsPhase.cpp:232-339 | corrected: run(): the four quadrants, then the spots decoded from the final table |
| LookupHost.SlotInside | src/lookupPhase.cpp:17-24 | with 2*W*H slots, the pair of every vertex (i, j), i < W and j < H, lies inside the allocation |
| LookupHost.SlotHolds | src/lookupPhase.cpp:22-24 | the pair of vertex (i, j) holds (i, j) |
| LookupHost.SlotsDistinct | src/lookupPhase.cpp:22-24 | corrected: different vertices have different slots |
| LookupHost.FillGrid | src/lookupPhase.cpp:18-27 | corrected: the nested loop fills the whole vertex array with the grid, one pair per vertex |
| LookupHost.FillColumn | src/lookupPhase.cpp:20-25 | corrected: the inner loop appends column i of the grid after the columns before it |
| LookupHost.WritesInsideAsWrittenIff | src/lookupPhase.cpp:17-24 | as written, with 2*W*W slots and index 2*(W*i+j), every write is in bounds exactly when H <= W (or W = 0) |
| LookupHost.TallGridOverruns | src/lookupPhase.cpp:17-24 | W = 1, H = 2: the second vertex is written at slot 3 of 2 |
| LookupHost.SquareAsWritten | src/lookupPhase.cpp:17-24 | on a square grid the layout as written is the corrected one |
| LookupHost.UploadAsWritten | src/lookupPhase.cpp:53-54 | as written, the upload is the first 2*mNumVertices values of the 8-value local array, and exists (stays in bounds) exactly when mNumVertices <= 4 |
| LookupHost.UploadAsWrittenMisplaces | src/lookupPhase.cpp:53-54 | as written, the 2x1 grid uploads (0, 0), (0, 1) where its vertices are (0, 0), (1, 0), the 2x2 grid uploads its own vertices, and the 3x3 grid reads past the local array |
| LookupHost.UnitSquareIsGrid | src/lookupPhase.cpp:53 | the local array is the 2x2 vertex grid |
| LookupHost.LookupPhase.constructor | src/lookupPhase.cpp:11-29 | corrected: the vertex array holds the grid, vertex (i, j) holding (i, j), and mNumVertices = H*W |
| LookupHost.LookupPhase.Init | src/lookupPhase.cpp:38-89 | corrected: stores the framebuffers, sets mRead = 0 and mWrite = 1, uploads the 2*mNumVertices vertex values, and makes two distinct ping-pong textures on the two lowest free units |
| LookupHost.LookupPhase.InitIndependent | src/lookupPhase.cpp:91-105 | corrected: the image upload is disabled, so this is init(), and the uploaded buffer is the vertex grid |
| LookupHost.LookupPhase.Run | src/lookupPhase.cpp:125-171 | attaches the ping-pong textures, then draws mNumVertices points into pipo[mWrite]; no sampler is set, and mRead and mWrite are not swapped |

## Left out

- The GLSL shaders are not part of this model. The cell rules come from the three documentation headers. Where those are silent, the choice is a parameter:
  - the 5-pixel mask offsets;
  - the fill distance and tie-break order;
  - the border handling (`Clamp` or `Guard`).
- LabelHost.Effect: it reads u_pass = i >= 2 as a consolidation. The meaning the shader gives to the pass number is not documented.
- The host draw logs of the reduction and statistics phases are not replayed through the grid models of `Reduction` and `Stats`. How the shader maps u_stage and u_pass to a cell rule is not documented for those phases.
- The binary-search pass is modelled as binary lifting, each step of size 2^i. "Sum equal to the distance" counts as "at or to the left". The documentation describes the search only in words.
- GL and EGL context setup, `loadProgramFromFile`, `CHECK_FBO` and `GL_CHECK` are driver calls or abort paths. `glViewport`, `glClear`, vertex attribute setup, `glUseProgram` and uniform locations are left out too (the one location that matters, the count program's `s_orig`, has its own line below), as are the `u_texDimensions` and `u_threshold` uniforms.
- When a program fails to load, the labeling, statistics and lookup `init` only print a message and return GL_TRUE, as the model does. The reduction `init` takes the load outcome as the parameter `programOk`.
- The quad vertex and index arrays (mVertices, mIndices) of the labeling, reduction and statistics phases are float geometry and are not modelled.
- LookupHost.LookupPhase: the vertex positions are GLfloat in the source and `int` here. The buffer object is the sequence `vbo`. The point-drawing shader is not part of this model.
- include/lookupPhase.h declares `mTextureUnits[1]`, a single `mFboId` and an `init` without framebuffers. That disagrees with src/lookupPhase.cpp, and the model follows the .cpp file.
- Floating point is modelled as follows:
  - the thresholds 64.3/255 and 64/255 become an integer cut-off parameter;
  - the centroid is a `real`;
  - `convertSignedGl` is not part of this model and is a parameter of the decoder.
- StatsTable.Centre: the source divides by the luminance sum without a guard. For a zero sum the model gives `None` instead of a non-finite float.
- File I/O is left out: TGA and PNG writing, `printf` and `debugImage`. So are the `#ifdef _DEBUG` blocks that read pixels for printing, and `releaseGlResources` and the destructors.
- The table bytes that glReadPixels returns are a parameter `data` of `StatsPhase.Run`. The model fixes only which texture they come from.
- `run()` returns the elapsed time from `getRealTime`; timing is not modelled.
- GPU parallelism: every pass is a whole-grid function of the previous grid.
- Units.LowestFree requires a free unit below 32. With all 32 bits set, the source loop evaluates `1<<32`, which is undefined in C++.
- StatsHost: the six role textures are kept as two role-indexed sequences, one of ids and one of contents. The context's name-keyed maps are tied to them by the class invariant (`Ready`). A name the context does not hold reads as blank.
- StatsHost.StatsPhase.InitIndependent: each of the five allocation blocks is one call of `NewRole(k)`, in the source's order.
- StatsHost.StatsPhase.SavePass, StatsHost.StatsPhase.SaveBlendStage, StatsHost.StatsPhase.CountStage, StatsHost.StatsPhase.CentroidingStage, StatsHost.StatsPhase.Quadrant, StatsHost.StatsPhase.Stages and StatsHost.StatsPhase.Run: these model the corrected program, in which SAVE sets s_result to TEX_PIPO+mRead. The SAVE pass as written is StatsHost.SumSaveAsWritten, with StatsHost.SumSpecAsWritten; the quadrants and run() as written are StatsHost.QuadrantWith and StatsHost.RunAsWritten, which StatsHost.QuadrantResult, StatsHost.RunResult and StatsHost.ReadBackMissesLastBlend cover.
- StatsHost.StatsPhase.ReadReduced, StatsHost.StatsPhase.DecodeSpots, StatsHost.StatsPhase.DecodeRow and StatsHost.StatsPhase.Run: these read back the reduced table, which holds the last BLEND. The readback as written, from fbo[mRead], is StatsHost.ReadBackAsWritten, with StatsHost.ReadBackMissesLastBlend.
- StatsTable.CellSpotAt, StatsTable.Row, StatsTable.TableSpotsMembers, StatsHost.StatsPhase.DecodeRow and StatsHost.StatsPhase.DecodeSpots: these test the 16-bit x label, not `data[index] != 0`. The byte test as written is StatsTable.CellSpotAsWritten, with StatsTable.AsWrittenSkips and StatsTable.LowByteCounterexample.
- LookupHost.LookupPhase.constructor, LookupHost.FillGrid, LookupHost.FillColumn and LookupHost.SlotsDistinct: these model the corrected layout, 2*W*H values with vertex (i, j) at 2*(H*i+j). The source allocates 2*W*W values and writes at 2*(W*i+j); that layout is LookupHost.SlotsAsWritten, with LookupHost.WritesInsideAsWrittenIff, LookupHost.TallGridOverruns and LookupHost.SquareAsWritten.
- LookupHost.LookupPhase.Init and LookupHost.LookupPhase.InitIndependent: these upload the vertex array. The upload as written, from the local 8-value array, is LookupHost.UploadAsWritten, with LookupHost.UploadAsWrittenMisplaces.
- Reduction.ReduceRowCompacts, Reduction.ReduceGridTopLeft, Reduction.SumInitWindow, Reduction.RunningSumWindow, Reduction.RunningSumPrefix, Reduction.SearchPassStep, Reduction.FinalCellFindsSource, Reduction.ReduceRowPacked, Reduction.ReduceRowSource, Reduction.ReduceRowKeeps, Reduction.ReduceGridKeepsLabels and Reduction.ReduceListsRoots: these take the `Guard` border, a shader that ignores reads outside the row. The textures themselves clamp to the edge (src/phase.cpp:30-31), and under `Clamp` the outside reads return edge texels again; Reduction.ClampDuplicates shows the difference.
- StatsHost.StatsPhase.CountPasses: the count passes sample the original image through `s_orig`. The source takes the count program's `s_origLoc` from the centroid program (src/statsPhase.cpp:133) and sets it while the count program is in use (src/statsPhase.cpp:429). So the count stage reads the original image only if both programs give `s_orig` the same location, which GL does not promise. The model assumes that they do.
- StatsHost.StatsPhase.CountStage: rests on the same `s_orig` location assumption as CountPasses, and on the corrected SAVE.
- StatsHost.StatsPhase.SumPass: for the count program, rests on the same `s_orig` location assumption as CountPasses.
- Labeling.LabelsSound: it proves soundness only, i.e. pixels that share a label lie in the same area. That after the fixed logBase2(height) + 10 passes every area holds a single label is not proved; the documentation itself says the method is not a generic connected-component labeling (include/doc-labelphase.h:51-53).
- The drivers and demos are not part of this model: main.c, src/main.cpp, ogles.cpp, src/ogles.cpp and src/examples. Neither is the root-level reductionPhase.cpp, whose `run` is empty.

## Findings

| source | as written | input that shows it | evidently intended | confidence | as-written member | corrected member |
|---|---|---|---|---|---|---|
| src/lookupPhase.cpp:17-24 | allocates 2*W*W floats but writes the pair of vertex (i, j) at 2*(W*i+j), for i < W and j < H | W = 1, H = 2: the pair of vertex (0, 1) goes to slots 2 and 3 of a 2-slot array | allocate 2*W*H floats with one pair per vertex, at 2*(H*i+j) | not executed; high | LookupHost.TallGridOverruns | LookupHost.FillGrid |
| src/lookupPhase.cpp:53-54 | uploads mNumVertices*2 floats from the 8-float local array `vertices`, not from mVertices | W = 2, H = 1: uploads (0, 0), (0, 1) instead of (0, 0), (1, 0); W = H = 3: 18 floats are read from an array of 8 | upload the 2*mNumVertices floats of mVertices | not executed; high | LookupHost.UploadAsWrittenMisplaces | LookupHost.LookupPhase.Init |
| src/statsPhase.cpp:285-286 | glReadPixels reads the framebuffer bound last, fbo[mRead], whose texture after the closing swap is the table before the last BLEND | any run(): with n draws before it, it reads the output of draw n + 84, not of draw n + 91 | read the reduced table, which holds the last BLEND | not executed; medium | StatsHost.ReadBackMissesLastBlend | StatsHost.StatsPhase.ReadReduced |
| src/statsPhase.cpp:296 | tests only `data[index]`, the low byte of the x label | a root at x = 255 (x label 256) with area 3 is skipped | test the 16-bit x label | not executed; high | StatsTable.LowByteCounterexample | StatsTable.TableSpotsMembers |
| src/statsPhase.cpp:461-466 | SAVE does not set s_result, which still names unit TEX_PIPO+mRead from the last loop pass: the texture SAVE renders into | any countStage or centroidingStage: the output of the last doubling pass is never read; SAVE samples the texture it renders into, a feedback loop whose value GL leaves undefined, which the model reads as the output of the third doubling pass | set s_result to TEX_PIPO+mRead before SAVE, as BLEND does at line 482 | not executed; medium | StatsHost.SumSaveAsWritten | StatsHost.SumSaveReadsLast |
