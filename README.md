# ToyWorld node, object layer and MNIST selection in Dafny

This project models three parts of the BrainSimulator code base and proves properties of them:

- **The ToyWorld node** (`BrainSimToyWorld/Module/ToyWorld.cs`). The node has four parts.
  - It validates its properties before a simulation: the two resource files, the ten view sizes and resolutions, and the length of the control vector.
  - `UpdateMemoryBlocks` sets up the game. It takes the first avatar and registers three render requests: field of view, field of focus and a free view of the map. Each request is bound to an output block, and the pre- and post-render handlers of `InitRR` keep the CUDA interop resource in step with the renderer's buffer.
  - `TWGetInputTask` chooses a control table by the vector's length: compact WSAD for 13 entries, keyboard codes for 84 or more. Each executed tick folds pairs of opposite signals into one axis and thresholds three buttons at 0.5. It submits one action with priority 100.
  - `TWUpdateTask` forwards the world's log to the host's channels and advances the world one step.

  Both tasks run only on steps that pass the "run every Nth" gate.
- **The object layer** (`ToyWorld/World/ToyWorldCore/SimpleObjectLayer.cs`). This is an append-only list of game objects. A query returns, in list order, every object whose cover rectangle meets the query rectangle with a non-zero intersection size.
- **The MNIST selection logic** (`Sources/Modules/MNIST/Module/MyMNISTManager.cs`). It has four parts.
  - The byte-order swap that reads IDX header fields.
  - The counting of images whose label a filter accepts.
  - The sequential path of `GetNextImage`, which serves images through one enumerator per set. It serves images either filtered by a set of digits or in a defined digit order. When a set or its demand is exhausted, it either restarts or returns a blank image.
  - `MyMNISTImage`: min-max normalization of a byte grid, the row-by-row flattening of both constructors, and `ToBinary`.

How each part is modelled:

- Code that updates objects in place is modelled as classes whose methods are proved against pure specification functions. This covers the input and update tasks of the node, the render binding, the node, the layer, the manager and the image.
- Pure code is modelled as functions and lemmas. This covers validation, the control mapping, the gate, the byte swap and `Step`/`Next`.
- Collaborators whose code is not part of this model are represented in one of two ways:
  - what the node hands them is recorded in fields: submitted actions, steps made, host log lines;
  - what they hand back is a parameter: avatar ids, buffer handles, device pointers, pending log messages, loaded images, pixel bytes.

Files: `wrappers.dfy` (Option/Result), `control_mapper.dfy`, `toy_world.dfy`, `object_layer.dfy`, `mnist_bytes.dfy`, `mnist_image.dfy`, `mnist_manager.dfy`.

## Model

| member | source | states |
|---|---|---|
| ControlMapper.WsadLayout | BrainSimToyWorld/Module/ToyWorld.cs:273-289 | the compact table holds all thirteen names, and the k-th name of the table order has index k |
| ControlMapper.KeyboardLayout | BrainSimToyWorld/Module/ToyWorld.cs:290-308 | the keyboard table holds all thirteen names, each entry lies in 65..87, and the key code maps back to its name |
| ControlMapper.KeyboardLayoutInjective | BrainSimToyWorld/Module/ToyWorld.cs:293-307 | no two signals share a key entry in the keyboard table |
| ControlMapper.LayoutFor | BrainSimToyWorld/Module/ToyWorld.cs:271-309 | exactly 13 entries selects the compact table; otherwise 84 or more selects the keyboard table; any other length writes nothing |
| ControlMapper.Combine | BrainSimToyWorld/Module/ToyWorld.cs:343-346 | the result is the positive signal when it is at least the negative one, otherwise the negated negative one, for signals of any sign; for non-negative signals its magnitude is the larger signal and its sign says which side won |
| ControlMapper.CombineSwap | BrainSimToyWorld/Module/ToyWorld.cs:343-346 | swapping the two directions negates the axis, except on a tie, which goes to the first signal either way |
| ControlMapper.Pressed | BrainSimToyWorld/Module/ToyWorld.cs:335-337 | a button is pressed only above 0.5; 0.5 itself is not pressed (used by MapControlsPairing) |
| ControlMapper.ReadSignal | BrainSimToyWorld/Module/ToyWorld.cs:317-337 | a lookup succeeds exactly when the name is in the table and its index lies inside the vector, and then yields that entry |
| ControlMapper.MapControls | BrainSimToyWorld/Module/ToyWorld.cs:311-341 | every action built carries priority 100 |
| ControlMapper.MapControlsSucceedsIff | BrainSimToyWorld/Module/ToyWorld.cs:316-337 | a tick produces an action exactly when all thirteen signals can be read |
| ControlMapper.MapControlsPairing | BrainSimToyWorld/Module/ToyWorld.cs:317-339 | speed comes from forward/backward, right speed from left/right, rotation from rot_left/rot_right, and the focus offset from fof_left/fof_right and fof_up/fof_down; each button is pressed exactly when its entry exceeds 0.5 |
| ControlMapper.WsadMapping | BrainSimToyWorld/Module/ToyWorld.cs:273-339 | with 13 entries the action always exists and is read from entries 0..12 in the compact assignment |
| ControlMapper.KeyboardMapping | BrainSimToyWorld/Module/ToyWorld.cs:290-339 | with at least 88 entries the action always exists and is read from the W, S, A, D, Q, E, I, J, K, L, B, N, M entries |
| ControlMapper.UnrecognisedLengthFails | BrainSimToyWorld/Module/ToyWorld.cs:271-317 | for a length that is neither 13 nor at least 84, the table stays empty and the first read ("left") of every executed tick fails |
| ControlMapper.ControlsCountAccepted | BrainSimToyWorld/Module/ToyWorld.cs:156 | the validator's length test as written: 84 or more entries, or exactly 13 |
| ControlMapper.AcceptedLengthOverruns | BrainSimToyWorld/Module/ToyWorld.cs:156 | the validator accepts 84 entries, yet the keyboard table then reads entry 87 out of range |
| ControlMapper.SafeLengthAlwaysMaps | BrainSimToyWorld/Module/ToyWorld.cs:290-308 | under the corrected length check (13, or 88 and more) the validator accepts and every tick maps |
| ControlMapper.StepGate | BrainSimToyWorld/Module/ToyWorld.cs:313-314 | the gate divides by zero exactly on a nonzero step with RunEvery 0 |
| ControlMapper.GateRunsOnMultiples | BrainSimToyWorld/Module/ToyWorld.cs:313-314 | for RunEvery of at least 1, a task runs exactly on the multiples of RunEvery and never divides by zero |
| ControlMapper.RunEveryThree | BrainSimToyWorld/Module/ToyWorld.cs:397-398 | with RunEvery 3, steps 0, 3 and 6 run and steps 1, 2, 4 and 5 are skipped |
| ToyWorldNode.Violates | BrainSimToyWorld/Module/ToyWorld.cs:141-156 | the failing condition of each of the thirteen checks; the length check applies only when a control block is connected |
| ToyWorldNode.FailedChecks | BrainSimToyWorld/Module/ToyWorld.cs:141-156 | an error is reported exactly when its check is among those made and fails, and there are no more errors than checks |
| ToyWorldNode.FailedChecksOrdered | BrainSimToyWorld/Module/ToyWorld.cs:141-156 | checks made in a fixed order report their errors in that order, so each at most once |
| ToyWorldNode.Validate | BrainSimToyWorld/Module/ToyWorld.cs:137-157 | each of the thirteen errors is reported exactly when its condition holds, in the order the checks are made, each at most once |
| ToyWorldNode.SetupProceeds | BrainSimToyWorld/Module/ToyWorld.cs:161-162 | the twelve conditions of the setup guard; related to the validator by SetupGuardMatchesValidate |
| ToyWorldNode.SetupGuardMatchesValidate | BrainSimToyWorld/Module/ToyWorld.cs:161-162 | setup goes ahead exactly when the validator reports nothing except, possibly, the control-vector length |
| ToyWorldNode.InitRR | BrainSimToyWorld/Module/ToyWorld.cs:209-216 | image gathering and the flipped y axis are switched on before the caller's initializer runs (ConfiguredRequests) |
| ToyWorldNode.FovInitializer | BrainSimToyWorld/Module/ToyWorld.cs:181-185 | the field-of-view size and resolution from FoVSize, FoVResWidth and FoVResHeight (ConfiguredRequests) |
| ToyWorldNode.FofInitializer | BrainSimToyWorld/Module/ToyWorld.cs:188-193 | the field-of-focus request linked to the field-of-view one, sized from FoFSize, FoFResWidth and FoFResHeight (ConfiguredRequests) |
| ToyWorldNode.FreeInitializer | BrainSimToyWorld/Module/ToyWorld.cs:196-200 | the free view sized from Width and Height at ResolutionWidth by ResolutionHeight (ConfiguredRequests) |
| ToyWorldNode.FovRequest | BrainSimToyWorld/Module/ToyWorld.cs:180-185 | the avatar's field-of-view request as setup configures it (ConfiguredRequests) |
| ToyWorldNode.FofRequest | BrainSimToyWorld/Module/ToyWorld.cs:187-193 | the avatar's field-of-focus request as setup configures it (ConfiguredRequests) |
| ToyWorldNode.FreeRequest | BrainSimToyWorld/Module/ToyWorld.cs:195-201 | the free-view request, centred by SetPositionCenter (ConfiguredRequests) |
| ToyWorldNode.ConfiguredRequests | BrainSimToyWorld/Module/ToyWorld.cs:180-201 | all three requests gather their image with a flipped y axis and take size and resolution from the properties; both avatar views follow the avatar; the focus view links the field-of-view request; the free view is centred on (CenterX, CenterY) |
| ToyWorldNode.RenderBinding.constructor | BrainSimToyWorld/Module/ToyWorld.cs:249-252 | a binding starts with no resource, a placeholder external pointer 1 and the block sized to the request's resolution |
| ToyWorldNode.RenderBinding.PreRender | BrainSimToyWorld/Module/ToyWorld.cs:223-238 | a new resource is created, and the old one disposed, exactly when there was none or the handle changed; the resource is then unmapped and belongs to the new handle |
| ToyWorldNode.RenderBinding.PostRender | BrainSimToyWorld/Module/ToyWorld.cs:240-246 | the current resource is mapped and its device pointer published; without a resource, or when it is already mapped, the call fails and changes nothing |
| ToyWorldNode.ToyWorld.constructor | BrainSimToyWorld/Module/ToyWorld.cs:122-127 | a new node has no game, no avatar controller and no render requests |
| ToyWorldNode.ToyWorld.UpdateMemoryBlocks | BrainSimToyWorld/Module/ToyWorld.cs:159-202 | nothing happens unless the guard holds; with no avatar, one error line is logged and no avatar controller or request is set; otherwise the first avatar's three configured requests are registered, each with a fresh binding of its resolution, no resource, handle 0 and placeholder pointer 1 |
| ToyWorldNode.InputTask.constructor | BrainSimToyWorld/Module/ToyWorld.cs:269 | the control table starts empty and no action has been submitted |
| ToyWorldNode.InputTask.Init | BrainSimToyWorld/Module/ToyWorld.cs:271-309 | without a connected control block it fails and writes nothing; a recognised length replaces the table with its layout; any other length leaves the table as it was |
| ToyWorldNode.InputTask.Execute | BrainSimToyWorld/Module/ToyWorld.cs:311-341 | a skipped step submits nothing; RunEvery 0 fails with a division by zero; an executed step fails without a control block, fails with the first read error, fails when the node has no avatar controller, and otherwise submits exactly the mapped action; a failed step submits nothing |
| ToyWorldNode.NoAvatarTicksFail | BrainSimToyWorld/Module/ToyWorld.cs:168-173 | after a setup that finds no avatar, every tick the gate lets through fails; for a control vector of 13 or at least 88 entries it fails at the hand-over to the avatar controller (line 340), and a length no table recognises fails earlier, at the first read ("left") |
| ToyWorldNode.WsadWrites | BrainSimToyWorld/Module/ToyWorld.cs:276-288 | the thirteen writes of the compact branch yield the compact layout, whatever the table held before |
| ToyWorldNode.KeyboardWrites | BrainSimToyWorld/Module/ToyWorld.cs:293-307 | the thirteen writes of the keyboard branch yield the keyboard layout, whatever the table held before |
| ToyWorldNode.ChannelOf | BrainSimToyWorld/Module/ToyWorld.cs:367-391 | a message goes to the error, warning or info channel exactly when its severity is Error, Warn or Info respectively |
| ToyWorldNode.PrintLogMessages | BrainSimToyWorld/Module/ToyWorld.cs:363-393 | one line per drained message, in order, on its severity's channel, with the "TWLog: " prefix |
| ToyWorldNode.LogSource.constructor | BrainSimToyWorld/Module/ToyWorld.cs:365 | the world's log holds the given pending messages |
| ToyWorldNode.UpdateTask.constructor | BrainSimToyWorld/Module/ToyWorld.cs:353-356 | nothing is logged, stepped or restarted at first |
| ToyWorldNode.UpdateTask.Execute | BrainSimToyWorld/Module/ToyWorld.cs:395-416 | a skipped step changes nothing; an executed step drains and forwards every pending message after the earlier lines, restarts the stopwatch only under the FPS cap, and advances the world exactly once |
| ObjectLayer.Intersect | ToyWorld/World/ToyWorldCore/SimpleObjectLayer.cs:29 | a non-empty intersection lies inside both rectangles and has positive width and height; rectangles that only touch intersect in the empty rectangle (an assumed library definition) |
| ObjectLayer.SizeLengthPositive | ToyWorld/World/ToyWorldCore/SimpleObjectLayer.cs:30 | the size vector has positive length exactly when its squared length is positive |
| ObjectLayer.Hits | ToyWorld/World/ToyWorldCore/SimpleObjectLayer.cs:27-33 | the inclusion test of the scan for one object (characterised by HitsIff) |
| ObjectLayer.HitsIff | ToyWorld/World/ToyWorldCore/SimpleObjectLayer.cs:27-33 | an object is returned exactly when its cover and the query overlap with positive length along both axes |
| ObjectLayer.EdgeTouchIsNoHit | ToyWorld/World/ToyWorldCore/SimpleObjectLayer.cs:29-30 | a rectangle that touches the query's edge, along a stretch or at a corner, is not returned |
| ObjectLayer.ApartIsNoHit | ToyWorld/World/ToyWorldCore/SimpleObjectLayer.cs:29-30 | a rectangle wholly to the right of the query is not returned |
| ObjectLayer.CoveringIsHit | ToyWorld/World/ToyWorldCore/SimpleObjectLayer.cs:29-30 | an object whose cover holds the whole of a query of positive size is returned |
| ObjectLayer.InRectangle | ToyWorld/World/ToyWorldCore/SimpleObjectLayer.cs:20-37 | the objects the scan keeps, in list order (characterised by InRectangleSelects and InRectangleMembers) |
| ObjectLayer.InRectangleSelects | ToyWorld/World/ToyWorldCore/SimpleObjectLayer.cs:20-37 | the result is an order-preserving selection; its k-th element is the object at the k-th of strictly increasing positions, and a position is chosen exactly when its object hits |
| ObjectLayer.InRectangleMembers | ToyWorld/World/ToyWorldCore/SimpleObjectLayer.cs:20-37 | an object is in the result exactly when it is in the layer and its cover hits the query |
| ObjectLayer.SimpleObjectLayer.constructor | ToyWorld/World/ToyWorldCore/SimpleObjectLayer.cs:14-18 | a new layer has the given type and no objects |
| ObjectLayer.SimpleObjectLayer.GetGameObjects | ToyWorld/World/ToyWorldCore/SimpleObjectLayer.cs:20-37 | the scan returns exactly the selection characterised above, and the layer is not changed |
| ObjectLayer.SimpleObjectLayer.AddGameObject | ToyWorld/World/ToyWorldCore/SimpleObjectLayer.cs:39-43 | the object is appended, duplicates included, and the call reports success |
| ObjectLayer.SimpleObjectLayer.GetAllObjects | ToyWorld/World/ToyWorldCore/SimpleObjectLayer.cs:45-48 | the layer's objects in insertion order |
| ObjectLayer.AddTwiceYieldsTwice | ToyWorld/World/ToyWorldCore/SimpleObjectLayer.cs:39-48 | adding the same object twice to a new layer leaves it there twice |
| MnistBytes.Unsigned | Sources/Modules/MNIST/Module/MyMNISTManager.cs:59 | the unsigned reading of a 32-bit value lies in 0..2^32-1 and agrees with the value modulo 2^32 |
| MnistBytes.Signed | Sources/Modules/MNIST/Module/MyMNISTManager.cs:61 | the signed value whose unsigned reading is the given bit pattern |
| MnistBytes.LittleEndianBytes | Sources/Modules/MNIST/Module/MyMNISTManager.cs:59 | `BitConverter.GetBytes`: four bytes, least significant first (inverse of FromLittleEndian by DecodeEncode and EncodeDecode) |
| MnistBytes.FromLittleEndian | Sources/Modules/MNIST/Module/MyMNISTManager.cs:61 | `BitConverter.ToInt32`: four bytes, least significant first, as a signed value |
| MnistBytes.Reverse | Sources/Modules/MNIST/Module/MyMNISTManager.cs:60 | the same elements, with element i moved to position n-1-i |
| MnistBytes.DecodeEncode | Sources/Modules/MNIST/Module/MyMNISTManager.cs:59-61 | converting a value to four bytes and back gives the value |
| MnistBytes.EncodeDecode | Sources/Modules/MNIST/Module/MyMNISTManager.cs:59-61 | converting four bytes to a value and back gives the bytes |
| MnistBytes.ReverseBytes | Sources/Modules/MNIST/Module/MyMNISTManager.cs:57-62 | the result's little-endian bytes are the value's bytes in reverse order |
| MnistBytes.ReverseBytesInvolution | Sources/Modules/MNIST/Module/MyMNISTManager.cs:57-62 | swapping the byte order twice gives back the value |
| MnistBytes.ReadsBigEndianField | Sources/Modules/MNIST/Module/MyMNISTManager.cs:112-120 | reading four header bytes little-endian and swapping yields their big-endian value |
| MnistBytes.ImageFileHeaderExample | Sources/Modules/MNIST/Module/MyMNISTManager.cs:109-115 | the header bytes 00 00 08 03 and 00 00 EA 60 read as 2051 and 60000 |
| MnistImages.Rescaled | Sources/Modules/MNIST/Module/MyMNISTManager.cs:295-301 | the value Normalize leaves in a pixel given the scan's bounds (RescaledInUnitRange, RescaledMonotone) |
| MnistImages.RescaledInUnitRange | Sources/Modules/MNIST/Module/MyMNISTManager.cs:295-301 | when the scan's minimum is below its maximum, every pixel lands in [0, 1], the darkest at 0 and the brightest at 1 |
| MnistImages.RescaledMonotone | Sources/Modules/MNIST/Module/MyMNISTManager.cs:295-301 | normalization keeps the order of pixels |
| MnistImages.Binary | Sources/Modules/MNIST/Module/MyMNISTManager.cs:362-363 | a pixel becomes 1 exactly when it is at least 0.5, and 0 otherwise |
| MnistImages.FlattenRows | Sources/Modules/MNIST/Module/MyMNISTManager.cs:320-324 | a new array with one entry per pixel, pixel (i, j) at position i*height+j |
| MnistImages.ThresholdRows | Sources/Modules/MNIST/Module/MyMNISTManager.cs:357-364 | a new array with one 0/1 entry per pixel, pixel (i, j) thresholded at position i*height+j |
| MnistImages.MnistImage.FromPixels | Sources/Modules/MNIST/Module/MyMNISTManager.cs:305-325 | the label and size are kept; min and max bound every pixel and are attained unless still at their start values; each grid entry is its pixel rescaled by them; the flat array holds the grid row by row |
| MnistImages.MnistImage.ScanRange | Sources/Modules/MNIST/Module/MyMNISTManager.cs:283-293 | min and max bound every pixel, and each is attained by some pixel unless it kept its start value (float.MaxValue, 0) |
| MnistImages.MnistImage.Normalize | Sources/Modules/MNIST/Module/MyMNISTManager.cs:281-303 | min and max are the bounds of the old pixels, and every pixel is its old value rescaled by them (untouched when both are 0) |
| MnistImages.MnistImage.FromStream | Sources/Modules/MNIST/Module/MyMNISTManager.cs:331-353 | pixel (i, j) is stream byte i*height+j divided by 255, min and max are 0 and 255, the label byte is kept, and the flat array holds the grid row by row |
| MnistImages.MnistImage.ToBinary | Sources/Modules/MNIST/Module/MyMNISTManager.cs:355-365 | the flat array is replaced by a new one holding 0 or 1 per pixel, pixel (i, j) thresholded at position i*height+j |
| MnistSelection.CountMatching | Sources/Modules/MNIST/Module/MyMNISTManager.cs:145-151 | the count never exceeds the number of images |
| MnistSelection.CountMatchingZeroIff | Sources/Modules/MNIST/Module/MyMNISTManager.cs:145-151 | the count is zero exactly when no image carries one of the labels |
| MnistSelection.Considered | Sources/Modules/MNIST/Module/MyMNISTManager.cs:140-147 | the images counted are the first min(demand, Count) loaded ones, and none when the demand is not positive |
| MnistSelection.MoveNext | Sources/Modules/MNIST/Module/MyMNISTManager.cs:211 | the enumerator moves onto the next image exactly when one remains; otherwise it parks past the last |
| MnistSelection.Step | Sources/Modules/MNIST/Module/MyMNISTManager.cs:175-253 | one pass keeps both enumerator positions within their sets |
| MnistSelection.Next | Sources/Modules/MNIST/Module/MyMNISTManager.cs:175-253 | the whole call, recursion included, keeps both enumerator positions within their sets |
| MnistSelection.RefusedWithoutSatisfyingImages | Sources/Modules/MNIST/Module/MyMNISTManager.cs:180-197 | a set none of whose considered images passed the filter is refused with an argument error, and nothing moves |
| MnistSelection.ConsumingAdvances | Sources/Modules/MNIST/Module/MyMNISTManager.cs:211-214 | with an image left and demand remaining, the cursor advances by one and the image is counted as served |
| MnistSelection.ExhaustedResets | Sources/Modules/MNIST/Module/MyMNISTManager.cs:237-242 | once the set or its demand is exhausted, ResetToStart rewinds the cursor, zeroes the served count and tries again |
| MnistSelection.ExhaustedSendsBlank | Sources/Modules/MNIST/Module/MyMNISTManager.cs:243-246 | once the set or its demand is exhausted, SendNothing returns the blank image; the enumerator has still moved |
| MnistSelection.UnorderedServesWantedLabels | Sources/Modules/MNIST/Module/MyMNISTManager.cs:224-231 | without a defined order, every image served is the blank one or a loaded image whose label is wanted |
| MnistSelection.OrderedServesExpectedLabel | Sources/Modules/MNIST/Module/MyMNISTManager.cs:216-223 | in defined order, a served non-blank image carries the label the iterator pointed at, and the iterator moves on cyclically |
| MnistSelection.ServedWithinDemand | Sources/Modules/MNIST/Module/MyMNISTManager.cs:211-214 | serving never pushes the served count past the set's demand |
| MnistSelection.MnistManager.constructor | Sources/Modules/MNIST/Module/MyMNISTManager.cs:71-98 | nothing is served, both enumerators stand before their first image, and the blank image is an all-zero 28 by 28 grid with label 0 |
| MnistSelection.MnistManager.SatisfyingImagesLoaded | Sources/Modules/MNIST/Module/MyMNISTManager.cs:137-168 | each set's count is the number of images, among the first demand-many loaded, whose label its filter lists; both counts are returned |
| MnistSelection.MnistManager.GetNextImage | Sources/Modules/MNIST/Module/MyMNISTManager.cs:175-253 | the image or error returned, and the new enumerator positions, served count and iterator, are those of the specification Next |
| MnistSelection.MnistManager.Again | Sources/Modules/MNIST/Module/MyMNISTManager.cs:220 | a recursive call made with fuel left behaves as Next with one unit less |

## Left out

- I/O, GPU and rendering are not modelled: the file-existence checks, `GameSetup` and the game and avatar controllers, CUDA contexts and OpenGL interop resources. Their results are parameters or recorded fields.
- `ToyWorld.Validate` calls `base.Validate` first (ToyWorld.cs:139). The base class is not part of this model, so its checks are not modelled.
- The two `MyLog.INFO` lines of `TWGetInputTask.Init` (ToyWorld.cs:275, 292) are not modelled, because they only report the chosen mode.
- `ToyWorldNode.RenderBinding.PostRender`: `FreeDevice` and `AllocateDevice` on the target block (ToyWorld.cs:244-245) are left out, because they act on GPU memory. The `AlreadyMapped` failure is an assumption about the interop library's `Map()`, whose code is not part of this model.
- The `ToyWorld` constructor's default paths (ToyWorld.cs:129-135) are not modelled, because they depend on the DLL directory. File existence is a flag in `Config`.
- `ToyWorldNode.UpdateTask.Execute`: the 60 FPS busy-wait on the stopwatch (ToyWorld.cs:405-410) is reduced to counting stopwatch restarts, because time is not modelled.
- Floating point: control signals and pixels are `real`. Single-precision rounding is not modelled.
- `MnistImages.MnistImage.Normalize`: when every pixel has the same nonzero value, the source computes 0/0 (NaN). The model keeps the pixel unchanged there.
- `ObjectLayer.Intersect`: `RectangleF.Intersect` comes from a vector-math library that is not part of this model. It is defined as in the libraries that one follows, with strict comparisons, so touching rectangles give the empty rectangle and are not returned (`EdgeTouchIsNoHit`). Rectangles of negative size are not specially treated.
- `ObjectLayer.SimpleObjectLayer.GetAllObjects`: returns a value. The original hands out the live list, so a caller's later changes through that reference (aliasing) are not captured.
- The random branch of `GetNextImage` (MyMNISTManager.cs:199-210) is left out, because it depends on a random number generator.
- The unreachable `default` case of `m_afterLastImage` (MyMNISTManager.cs:247-250) is left out. Both enumeration values are handled.
- `MnistSelection.MnistManager.GetNextImage`: the unbounded recursion is bounded by a `fuel` parameter, and running out is reported as `OutOfFuel`. A call with enough fuel gives the original's result. Endless recursion is not modelled: for example, ResetToStart when no image within the demand carries the wanted label.
- `ReadMnistSet` (MyMNISTManager.cs:100-134) is file I/O and is not modelled. The loaded images are constructor parameters, and its header handling is covered by `ReadsBigEndianField`. As written, it opens the training files for both sets and ignores its file-name arguments (lines 102-103). The model does not reproduce this, since the loaded images are given.
- `MnistImages.MnistImage.FromPixels`: requires the grid to be at least width by height. The original would throw an index exception; that path is not modelled.
- `MnistImages.MnistImage.FromStream`: requires the stream to hold at least width times height pixel bytes. The end-of-stream exception is not modelled, and the label stream is reduced to its single label byte.
- Other files of the repository (the dashboard forms and tests, the LSTM and RBM tasks, the icon attribute) are not modelled.

## Findings

| source | as written | input that shows it | evidently intended | confidence | as-written member | corrected member |
|---|---|---|---|---|---|---|
| BrainSimToyWorld/Module/ToyWorld.cs:156 | the validator accepts a control vector of 84 or more entries, but the keyboard table reads entries up to 87 (ToyWorld.cs:293) | a vector of 84 zero entries: validation passes, and the first executed tick reads `forward` at 87, out of range | accept 13 entries, or 88 and more | not executed | ControlMapper.AcceptedLengthOverruns | ControlMapper.SafeLengthAlwaysMaps |
