/** The shared camera state of `Camera` (latest image, latest intrinsic matrix,
    latest transform) and one pass of its `extrinsicCalibration` loop.

    The OpenCV capabilities the pass calls (marker detection, board
    correspondence lookup, the PnP solver and the Euler-angle conversion) are
    handed in as function values: the model fixes what the pass does with
    their results, not what they compute. */
module CameraCalibration {
  import opened ArucoBoard

  /** A `cv::Mat`: images, the intrinsic matrix and the published transform,
      stored row by row in `data`. */
  datatype Mat = Mat(rows: nat, cols: nat, data: seq<real>) {
    /** The element store holds exactly `rows * cols` values. */
    predicate Valid() {
      |data| == rows * cols
    }

    /** `cv::Mat::empty()`: the matrix has no elements. */
    predicate IsEmpty()
      ensures Valid() ==> (IsEmpty() <==> data == [])
    {
      rows == 0 || cols == 0
    }
  }

  /** A well-formed 3×3 matrix, the shape `eulerAnglesToRotationMatrix` returns
      as the product `R_z * R_y * R_x` of three 3×3 matrices. */
  type Matrix3 = m: Mat | m.rows == 3 && m.cols == 3 && m.Valid()
    witness Mat(3, 3, [1.0, 0.0, 0.0, 0.0, 1.0, 0.0, 0.0, 0.0, 1.0])

  /** A default-constructed `cv::Mat`. */
  const EMPTY_MAT: Mat := Mat(0, 0, [])

  /** A `cv::Vec3d`: rotation and translation vectors. */
  datatype Vec3 = Vec3(x: real, y: real, z: real)

  /** A default-constructed `cv::Vec3d` is all zeros. */
  const ZERO_VEC: Vec3 := Vec3(0.0, 0.0, 0.0)

  /** A 2D image-plane point (`cv::Point2f`). */
  datatype Point2 = Point2(x: real, y: real)

  /** What `detectMarkers` reports: the corners and the id of each detected marker. */
  datatype Detection = Detection(corners: seq<seq<Point2>>, ids: seq<int>)

  /** The board built by `cv::aruco::Board::create` from the configuration. */
  datatype Board = Board(objPoints: seq<seq<Point3<real>>>, dictionary: Dictionary, ids: seq<int>)

  /** The matched 3D board points and 2D image points. */
  datatype Correspondences = Correspondences(objPoints: seq<Point3<real>>, imgPoints: seq<Point2>)

  /** The rotation and translation vectors `solvePnP` writes. */
  datatype Pose = Pose(rvec: Vec3, tvec: Vec3)

  /** The external capabilities one pass calls. `solvePnP` receives the
      intrinsic matrix; the distortion coefficients are always empty. */
  datatype Vision = Vision(
    detectMarkers: (Mat, Dictionary) -> Detection,
    boardObjectAndImagePoints: (Board, Detection) -> Correspondences,
    solvePnP: (Correspondences, Mat) -> Pose,
    eulerAnglesToRotationMatrix: Vec3 -> Matrix3)

  /** The board `Board::create` builds from the loaded configuration. */
  function BoardOf(config: BoardConfig<real>): Board
    reads config
  {
    Board(config.objPoints, config.dictionary, config.ids)
  }

  /** The correspondences a pass finds in `image`. */
  function Matches(vision: Vision, image: Mat, board: Board): Correspondences {
    vision.boardObjectAndImagePoints(board, vision.detectMarkers(image, board.dictionary))
  }

  predicate HasMatches(c: Correspondences) {
    c.objPoints != [] && c.imgPoints != []
  }

  /** The `rvec` a pass converts: the solver's output when there are
      correspondences, otherwise the untouched default. */
  function RotationVector(vision: Vision, image: Mat, intrinsic: Mat, board: Board): Vec3 {
    var c := Matches(vision, image, board);
    if HasMatches(c) then vision.solvePnP(c, intrinsic).rvec else ZERO_VEC
  }

  /** `tf_` after one pass that sampled `image` and `intrinsic`. */
  function NextTransform(tf: Mat, image: Mat, intrinsic: Mat, board: Board, vision: Vision): Mat {
    if image.IsEmpty() || intrinsic.IsEmpty() then tf
    else vision.eulerAnglesToRotationMatrix(RotationVector(vision, image, intrinsic, board))
  }

  /** A pass whose image or intrinsic is empty leaves `tf_` alone. */
  lemma EmptyInputKeepsTransform(tf: Mat, image: Mat, intrinsic: Mat, board: Board, vision: Vision)
    requires image.IsEmpty() || intrinsic.IsEmpty()
    ensures NextTransform(tf, image, intrinsic, board, vision) == tf
  {
  }

  /** With both inputs present a pass always overwrites `tf_`: the result does
      not depend on the previous transform, and is the conversion of `rvec`. */
  lemma PresentInputOverwrites(tf1: Mat, tf2: Mat, image: Mat, intrinsic: Mat, board: Board, vision: Vision)
    requires !image.IsEmpty() && !intrinsic.IsEmpty()
    ensures NextTransform(tf1, image, intrinsic, board, vision) == NextTransform(tf2, image, intrinsic, board, vision)
    ensures NextTransform(tf1, image, intrinsic, board, vision)
            == vision.eulerAnglesToRotationMatrix(RotationVector(vision, image, intrinsic, board))
  {
  }

  /** With both inputs present the published transform is a well-formed,
      non-empty 3×3 matrix. */
  lemma PresentInputPublishesRotationMatrix(tf: Mat, image: Mat, intrinsic: Mat, board: Board, vision: Vision)
    requires !image.IsEmpty() && !intrinsic.IsEmpty()
    ensures var t := NextTransform(tf, image, intrinsic, board, vision);
            t.rows == 3 && t.cols == 3 && t.Valid() && !t.IsEmpty()
  {
  }

  /** An empty transform after a pass means the pass published nothing: its
      image or intrinsic was empty, and the transform was empty before. */
  lemma EmptyTransformMeansNoPublish(tf: Mat, image: Mat, intrinsic: Mat, board: Board, vision: Vision)
    requires NextTransform(tf, image, intrinsic, board, vision).IsEmpty()
    ensures image.IsEmpty() || intrinsic.IsEmpty()
    ensures tf.IsEmpty()
  {
  }

  /** With both inputs present and no correspondence, the pass publishes the
      rotation of the zero vector. */
  lemma NoMatchPublishesZeroRotation(tf: Mat, image: Mat, intrinsic: Mat, board: Board, vision: Vision)
    requires !image.IsEmpty() && !intrinsic.IsEmpty()
    requires !HasMatches(Matches(vision, image, board))
    ensures NextTransform(tf, image, intrinsic, board, vision) == vision.eulerAnglesToRotationMatrix(ZERO_VEC)
  {
  }

  /** With correspondences, the pass publishes the rotation of the solver's `rvec`. */
  lemma MatchPublishesSolvedRotation(tf: Mat, image: Mat, intrinsic: Mat, board: Board, vision: Vision)
    requires !image.IsEmpty() && !intrinsic.IsEmpty()
    requires HasMatches(Matches(vision, image, board))
    ensures NextTransform(tf, image, intrinsic, board, vision)
            == vision.eulerAnglesToRotationMatrix(vision.solvePnP(Matches(vision, image, board), intrinsic).rvec)
  {
  }

  /** Repeating a pass on the same inputs publishes the same transform again. */
  lemma RepeatedPassIsStable(tf: Mat, image: Mat, intrinsic: Mat, board: Board, vision: Vision)
    ensures var once := NextTransform(tf, image, intrinsic, board, vision);
            NextTransform(once, image, intrinsic, board, vision) == once
  {
  }

  /** A pass with no detected marker can replace an earlier transform: the
      previous `tf_` is not kept when nothing matches. */
  lemma UnmatchedPassCanReplaceTransform()
    ensures var identity := Mat(3, 3, [1.0, 0.0, 0.0, 0.0, 1.0, 0.0, 0.0, 0.0, 1.0]);
            var earlier := Mat(3, 3, [0.0, -1.0, 0.0, 1.0, 0.0, 0.0, 0.0, 0.0, 1.0]);
            var frame := Mat(1, 2, [0.25, 0.75]);
            var k := Mat(3, 3, [600.0, 0.0, 320.0, 0.0, 600.0, 240.0, 0.0, 0.0, 1.0]);
            var vision := Vision(
              (m: Mat, d: Dictionary) => Detection([], []),
              (b: Board, d: Detection) => Correspondences([], []),
              (c: Correspondences, m: Mat) => Pose(ZERO_VEC, ZERO_VEC),
              (v: Vec3) => identity);
            frame.Valid() && k.Valid() && earlier.Valid()
            && !HasMatches(Matches(vision, frame, Board([], Dict4X4_100, [])))
            && NextTransform(earlier, frame, k, Board([], Dict4X4_100, []), vision) == identity != earlier
  {
  }

  class Camera {
    const name: string
    /** The board configuration, loaded before the camera starts calibrating.
        The camera is its only holder: nothing writes it once the camera exists. */
    const boardConfig: BoardConfig<real>
    var image: Mat
    var intrinsic: Mat
    var tf: Mat

    constructor (name: string, boardConfig: BoardConfig<real>)
      ensures this.name == name && this.boardConfig == boardConfig
      ensures image == EMPTY_MAT && intrinsic == EMPTY_MAT && tf == EMPTY_MAT
    {
      this.name := name;
      this.boardConfig := boardConfig;
      image := EMPTY_MAT;
      intrinsic := EMPTY_MAT;
      tf := EMPTY_MAT;
    }

    method SetCameraMatrix(cameraMatrix: Mat)
      modifies this`intrinsic
      ensures intrinsic == cameraMatrix
      ensures image == old(image) && tf == old(tf)
    {
      intrinsic := cameraMatrix;
    }

    method SetCameraImage(inputImage: Mat)
      modifies this`image
      ensures image == inputImage
      ensures intrinsic == old(intrinsic) && tf == old(tf)
    {
      image := inputImage;
    }

    method GetTransformationMatrix() returns (m: Mat)
      ensures m == tf
    {
      m := tf;
    }

    /** One pass of the `while (running_)` body of `extrinsicCalibration`. */
    method ExtrinsicCalibrationStep(vision: Vision)
      modifies this`tf
      ensures image == old(image) && intrinsic == old(intrinsic)
      ensures tf == NextTransform(old(tf), image, intrinsic, BoardOf(boardConfig), vision)
    {
      var inputImage := image;
      var cameraIntrinsic := intrinsic;
      if !inputImage.IsEmpty() && !cameraIntrinsic.IsEmpty() {
        var board := Board(boardConfig.objPoints, boardConfig.dictionary, boardConfig.ids);
        var detection := vision.detectMarkers(inputImage, boardConfig.dictionary);
        var matches := vision.boardObjectAndImagePoints(board, detection);
        var rvec, tvec := ZERO_VEC, ZERO_VEC;
        if matches.objPoints != [] && matches.imgPoints != [] {
          var pose := vision.solvePnP(matches, cameraIntrinsic);
          rvec, tvec := pose.rvec, pose.tvec;
        }
        var rotationMatrix := vision.eulerAnglesToRotationMatrix(rvec);
        tf := rotationMatrix;
      }
    }
  }

  /** A fresh camera reports an empty transform, and still does after a pass
      that has an image but no intrinsic matrix yet. */
  method TransformEmptyUntilIntrinsic(boardConfig: BoardConfig<real>, frame: Mat, vision: Vision)
    returns (before: Mat, after: Mat)
    ensures before.IsEmpty() && after.IsEmpty()
  {
    var camera := new Camera("camera1", boardConfig);
    before := camera.GetTransformationMatrix();
    camera.SetCameraImage(frame);
    camera.ExtrinsicCalibrationStep(vision);
    after := camera.GetTransformationMatrix();
  }
}
