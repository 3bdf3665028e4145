# ArUco extrinsic calibration: board loading and camera state

This project models the sequential core of `src/camera.cpp` in the
ArUco-board extrinsic calibration node. The node estimates a camera's
rotation relative to a printed ArUco board. The model has two parts:

- **Board configuration** (`board_config.dfy`, module `ArucoBoard`). This is
  `Camera::Read_ArUco_YAML` after YAML parsing.
  - Each flat `objPoints` list is cut into 3D points, three values per point.
  - Each list becomes one corner group, in the same order.
  - From marker 28 on, corners 0↔1 and 2↔3 are swapped in place.
  - `ids` is copied verbatim.
  - An absent key leaves its output untouched.
  - A list whose length is not a multiple of 3 makes `std::vector::at`
    throw. This appears as the `OutOfRange` outcome, with both outputs
    unchanged.
  - The cut into triples (`Triples`) and its inverse (`Flatten`) are proved
    to be round trips in both directions. The reordering is proved to be
    its own inverse and to permute each group.
- **Camera state** (`camera.dfy`, module `CameraCalibration`). The class
  `Camera` has the fields `image`, `intrinsic` and `tf`.
  - It has the two setters and the transform getter.
  - `ExtrinsicCalibrationStep` is one pass of the calibration loop.
  - Marker detection, correspondence lookup, `solvePnP` and
    `eulerAnglesToRotationMatrix` are uninterpreted function values, passed
    in as a `Vision` record.
  - The pass leaves `tf` alone exactly when the sampled image or intrinsic
    matrix is empty.
  - Otherwise it always overwrites `tf` with the rotation of `rvec`. If no
    correspondence was found, `rvec` is the default zero vector.

Three consequences of the code are worth stating outright:

- A pass with no correspondence does not keep the previous transform. It
  republishes the rotation of the zero vector (src/camera.cpp:144-157).
  `UnmatchedPassCanReplaceTransform` exhibits such a pass replacing an
  earlier, different transform.
- The loader never compares the number of `ids` with the number of corner
  groups (src/camera.cpp:86-89). `IdsLengthUnchecked` runs the loader on a
  configuration with one group and two ids: it returns true and stores both.
- An absent `objPoints` or `ids` key does not clear its output. The output
  keeps its previous value (src/camera.cpp:61, 86).

## Model

| member | source | states |
|---|---|---|
| `ArucoBoard.Triples` | src/camera.cpp:68-74 | a list of length 3k yields k points, point m being (v[3m], v[3m+1], v[3m+2]) |
| `ArucoBoard.FlattenTriples` | src/camera.cpp:68-74 | flattening the points of a list gives back the list |
| `ArucoBoard.TriplesFlatten` | src/camera.cpp:68-74 | cutting a flattened point sequence gives back the points |
| `ArucoBoard.Flatten` | src/camera.cpp:70-73 | a point sequence flattens to three values per point (the inverse the round trips use) |
| `ArucoBoard.Grouped` | src/camera.cpp:63-77 | exactly one point group per input list, group i being the triples of list i |
| `ArucoBoard.GroupCoordinates` | src/camera.cpp:60-76 | the nested loops end without throwing iff every list length is a multiple of 3, and then yield exactly `Grouped` |
| `ArucoBoard.SwapCorners` | src/camera.cpp:81-82 | positions 0↔1 and 2↔3 exchanged, same length, positions ≥ 4 untouched |
| `ArucoBoard.SwapCornersInvolutive` | src/camera.cpp:81-82 | swapping the corners twice restores the group |
| `ArucoBoard.SwapCornersPermutes` | src/camera.cpp:81-82 | the swap is a permutation of the group |
| `ArucoBoard.SwapAll` | src/camera.cpp:79-83 | every group of a tail is corner-swapped, and no group is added or lost |
| `ArucoBoard.Reordered` | src/camera.cpp:79-83 | same number of groups; groups below 28 unchanged; each group from 28 on corner-swapped |
| `ArucoBoard.ReorderedFewGroups` | src/camera.cpp:79 | with at most 28 groups the swap loop changes nothing |
| `ArucoBoard.ReorderedInvolutive` | src/camera.cpp:79-83 | the reordering is its own inverse |
| `ArucoBoard.ReorderedPermutesEachGroup` | src/camera.cpp:79-83 | every group after reordering is a permutation of the group before |
| `ArucoBoard.LoadObjPoints` | src/camera.cpp:63-83 | a successful load stores one group per input list |
| `ArucoBoard.CornerSourceAt` | src/camera.cpp:79-83 | corner m of group i after the swap loop is corner `CornerSource(i, m)` before it |
| `ArucoBoard.LoadedPoint` | src/camera.cpp:63-83 | group i of the load has \|list i\|/3 points, and point m is the input triple at position `CornerSource(i, m)` |
| `ArucoBoard.LoadedLowGroup` | src/camera.cpp:79 | groups at index < 28 keep the input order exactly |
| `ArucoBoard.LoadRoundTrip` | src/camera.cpp:63-83 | swapping back and flattening a loaded group yields the input list |
| `ArucoBoard.BoardConfig.constructor` | src/camera.cpp:33 | a new configuration has no dictionary, no ids and no groups |
| `ArucoBoard.BoardConfig.SwapFarMarkerCorners` | src/camera.cpp:79-83 | the in-place swaps leave `objPoints` equal to `Reordered` of its old value |
| `ArucoBoard.BoardConfig.ReadArUcoYaml` | src/camera.cpp:52-90 | dictionary set to DICT_4X4_100; on a throw both outputs keep their old value; otherwise returns true, `objPoints` is the load of the key or its old value if the key is absent, and `ids` is the key verbatim or its old value if absent |
| `ArucoBoard.IdsLengthUnchecked` | src/camera.cpp:86-89 | the loader, given one corner group and two ids, returns true and stores ids and groups of different lengths |
| `CameraCalibration.Mat.IsEmpty` | src/camera.cpp:126 | for a well-formed matrix, `empty()` holds exactly when it stores no element |
| `CameraCalibration.Matches` | src/camera.cpp:135-143 | definition: the correspondences `getBoardObjectAndImagePoints` returns for the markers `detectMarkers` finds in the image, with the board built from the configuration |
| `CameraCalibration.HasMatches` | src/camera.cpp:145 | definition: both the object-point and the image-point lists are non-empty |
| `CameraCalibration.RotationVector` | src/camera.cpp:144-149 | definition: the solver's `rvec` when there are correspondences, else the default zero vector |
| `CameraCalibration.NextTransform` | src/camera.cpp:126-157 | definition: `tf` after one pass; its properties are the pass lemmas below |
| `CameraCalibration.EmptyInputKeepsTransform` | src/camera.cpp:118-126 | a pass with an empty image or intrinsic leaves `tf` unchanged |
| `CameraCalibration.PresentInputOverwrites` | src/camera.cpp:126-157 | with both inputs present the new `tf` is independent of the old one and equals the rotation of `rvec` |
| `CameraCalibration.PresentInputPublishesRotationMatrix` | src/camera.cpp:3-27 | with both inputs present the published transform is a well-formed, non-empty 3×3 matrix |
| `CameraCalibration.EmptyTransformMeansNoPublish` | src/camera.cpp:126-157 | an empty transform after a pass means the image or intrinsic was empty and the transform was already empty |
| `CameraCalibration.NoMatchPublishesZeroRotation` | src/camera.cpp:141-157 | with both inputs present and no correspondence, `tf` becomes the rotation of the zero vector |
| `CameraCalibration.MatchPublishesSolvedRotation` | src/camera.cpp:141-157 | with correspondences, `tf` becomes the rotation of the solver's `rvec` |
| `CameraCalibration.RepeatedPassIsStable` | src/camera.cpp:116-157 | a second pass on the same inputs republishes the same transform |
| `CameraCalibration.UnmatchedPassCanReplaceTransform` | src/camera.cpp:144-157 | a pass that matches nothing can replace a different earlier transform |
| `CameraCalibration.Camera.constructor` | src/camera.cpp:29-36 | a new camera has an empty image, intrinsic and transform, and the given name and board |
| `CameraCalibration.Camera.SetCameraMatrix` | src/camera.cpp:93-97 | overwrites `intrinsic` only |
| `CameraCalibration.Camera.SetCameraImage` | src/camera.cpp:100-104 | overwrites `image` only |
| `CameraCalibration.Camera.GetTransformationMatrix` | src/camera.cpp:106-112 | returns the current `tf` and changes nothing |
| `CameraCalibration.Camera.ExtrinsicCalibrationStep` | src/camera.cpp:116-162 | changes only `tf`, which becomes `NextTransform` of the old `tf`, the sampled inputs and the board |
| `CameraCalibration.TransformEmptyUntilIntrinsic` | src/camera.cpp:106-126 | a new camera's transform is empty, and stays empty after a pass whose intrinsic is missing |

## Left out

- YAML file loading and node conversion (src/camera.cpp:58, 63, 87) are file I/O and library parsing. The model starts from already-parsed `Option` values. Conversion failures in `as<>` are not modelled.
- `Mat` keeps its elements abstractly. Only `IsEmpty` matters to the pass, and `Valid` ties the element count to the dimensions.
- Coordinates are an opaque type. The loader stores each parsed double into a float (src/camera.cpp:71-73), and this narrowing is not modelled.
- `ArucoBoard.LoadRoundTrip`: its exact equality with the input holds in the program only up to float rounding, that is, exactly only for coordinates a float represents. The same applies to `ArucoBoard.LoadedPoint`.
- Marker detection, `Board::create`, `getBoardObjectAndImagePoints`, `solvePnP` and the dictionary lookup are OpenCV calls. They are uninterpreted function values in `Vision`, or plain constructors.
- OpenCV's own argument checks inside these calls are not modelled. `Board::create` (src/camera.cpp:135) asserts that `ids` and `objPoints` have equal length and that every group has exactly 4 corners. For a configuration that breaks this, such as the one `IdsLengthUnchecked` loads, the failed assertion throws out of the thread function uncaught. That calls `std::terminate`, so the first such pass ends the process and no later pass runs. `ExtrinsicCalibrationStep` publishes a transform instead.
- The drawing calls and the image clone (src/camera.cpp:128, 139, 148) have no effect on state.
- The trigonometry of `eulerAnglesToRotationMatrix` (src/camera.cpp:3-27) is floating-point matrix arithmetic. It is the uninterpreted `Vision.eulerAnglesToRotationMatrix`.
- Threads, mutexes and the `running_` flag (src/camera.cpp:38-49, 116, 164-165) exist for concurrency. The model covers one iteration. The lock-protected reads and writes become plain field accesses, so torn reads and cross-field interleavings are out of scope.
- The destructor and `runThreads` are left out for the same reason.
- `Camera.constructor` takes an already-loaded `BoardConfig` instead of calling the loader on a fixed file path.
- In the program `board_config_` is a by-value member that only the camera owns. In the model `Camera.boardConfig` is a reference. The model assumes the camera is its only holder, and does not capture another holder reloading it between passes.
- The unused 4×4 `extrinsic` matrix (src/camera.cpp:153) has no observable effect.
- The translation vector `tvec` (declared at src/camera.cpp:144, written at src/camera.cpp:147) is never published.
- src/camera_wrapper.cpp is ROS subscription and image conversion. Its one-shot flag latch depends on a header that is not part of this model.
- `ArucoBoard.BoardConfig.ReadArUcoYaml`: when a list of 3k coordinates at index 28 or more has k < 4, `iter_swap` is undefined behaviour. This is a precondition and not a modelled outcome.
