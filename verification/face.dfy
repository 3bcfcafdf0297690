/**
 * `GMLKFaceDetector`: each detected face turned into a map with its box,
 * head angles, optional classification probabilities and tracking id, a
 * fixed ten-key landmark map and a fourteen-key contour map; and the
 * detector options parsed from the call's option map.
 */
module FaceDetector {
  import opened Wrappers
  import opened Document
  import opened Geometry

  /** The error code of a failed detection. */
  const FailureCode := "faceDetectorError"

  // ---------------------------------------------------------------------
  // The native result (`com.google.mlkit.vision.face.Face`)

  /** The `FaceLandmark` types the bridge asks for. */
  datatype LandmarkType =
    | MouthBottom | LeftCheek | LeftEar | LeftEye | MouthLeft
    | NoseBase | RightCheek | RightEar | RightEye | MouthRight

  /** The `FaceContour` types ML Kit reports, in their numbering order. */
  datatype ContourType =
    | FaceOval | LeftEyebrowTop | LeftEyebrowBottom | RightEyebrowTop | RightEyebrowBottom
    | LeftEyeContour | RightEyeContour | UpperLipTop | UpperLipBottom | LowerLipTop | LowerLipBottom
    | NoseBridge | NoseBottom | LeftCheekContour | RightCheekContour

  datatype FaceContour = FaceContour(contourType: ContourType, points: seq<PointF>)

  /**
   * A detected face. `landmarks` holds the landmarks that were found
   * (`getLandmark` returns null for the others); `allContours` is what
   * `getAllContours` returns, and `getContour` looks a type up in it.
   */
  datatype Face = Face(
    boundingBox: Rect,
    headEulerAngleY: real,
    headEulerAngleZ: real,
    smilingProbability: Option<real>,
    leftEyeOpenProbability: Option<real>,
    rightEyeOpenProbability: Option<real>,
    trackingId: Option<int>,
    landmarks: map<LandmarkType, PointF>,
    allContours: seq<FaceContour>)

  /** `face.getContour(type)`: the contour of that type, or null. */
  function GetContour(contours: seq<FaceContour>, t: ContourType): Option<FaceContour>
  {
    if contours == [] then None
    else if contours[0].contourType == t then Some(contours[0])
    else GetContour(contours[1..], t)
  }

  // ---------------------------------------------------------------------
  // Landmarks

  /** The key each landmark is stored under. */
  function LandmarkKey(t: LandmarkType): string
  {
    match t
    case MouthBottom => "bottomMouth"
    case LeftCheek => "leftCheek"
    case LeftEar => "leftEar"
    case LeftEye => "leftEye"
    case MouthLeft => "leftMouth"
    case NoseBase => "noseBase"
    case RightCheek => "rightCheek"
    case RightEar => "rightEar"
    case RightEye => "rightEye"
    case MouthRight => "rightMouth"
  }

  const LandmarkKeys: set<string> :=
    {"bottomMouth", "leftCheek", "leftEar", "leftEye", "leftMouth",
     "noseBase", "rightCheek", "rightEar", "rightEye", "rightMouth"}

  /** `landmarkPosition`: the position as a `double[]`, or null when the landmark was not found. */
  function LandmarkPosition(face: Face, t: LandmarkType): Doc
  {
    if t in face.landmarks then PointFDoc(face.landmarks[t]) else Null
  }

  /**
   * `getLandmarkData`: exactly the ten landmark keys, each holding that
   * landmark's position or null.
   */
  function LandmarkData(face: Face): (m: map<string, Doc>)
    ensures forall t :: LandmarkKey(t) in m && m[LandmarkKey(t)] == LandmarkPosition(face, t)
  {
    map["bottomMouth" := LandmarkPosition(face, MouthBottom)]
       ["leftCheek" := LandmarkPosition(face, LeftCheek)]
       ["leftEar" := LandmarkPosition(face, LeftEar)]
       ["leftEye" := LandmarkPosition(face, LeftEye)]
       ["leftMouth" := LandmarkPosition(face, MouthLeft)]
       ["noseBase" := LandmarkPosition(face, NoseBase)]
       ["rightCheek" := LandmarkPosition(face, RightCheek)]
       ["rightEar" := LandmarkPosition(face, RightEar)]
       ["rightEye" := LandmarkPosition(face, RightEye)]
       ["rightMouth" := LandmarkPosition(face, MouthRight)]
  }

  /** The landmark map has exactly the ten landmark keys. */
  lemma LandmarkKeysExact(face: Face)
    ensures LandmarkData(face).Keys == LandmarkKeys
  {
  }

  /** Each landmark entry is null exactly when that landmark was not found. */
  lemma LandmarkNullIffAbsent(face: Face, t: LandmarkType)
    ensures LandmarkData(face)[LandmarkKey(t)] == Null <==> t !in face.landmarks
  {
    if t in face.landmarks {
      assert LandmarkData(face)[LandmarkKey(t)] == PointFDoc(face.landmarks[t]);
    }
  }

  /** A face with all ten landmarks found has ten non-null landmark entries. */
  lemma AllLandmarksFound(face: Face)
    requires forall t: LandmarkType :: t in face.landmarks
    ensures forall k :: k in LandmarkData(face) ==> LandmarkData(face)[k] != Null
  {
    var m := LandmarkData(face);
    forall k | k in m
      ensures m[k] != Null
    {
      var t :| LandmarkKey(t) == k by {
        assert k in LandmarkKeys;
        if k == "bottomMouth" { assert LandmarkKey(MouthBottom) == k; }
        else if k == "leftCheek" { assert LandmarkKey(LeftCheek) == k; }
        else if k == "leftEar" { assert LandmarkKey(LeftEar) == k; }
        else if k == "leftEye" { assert LandmarkKey(LeftEye) == k; }
        else if k == "leftMouth" { assert LandmarkKey(MouthLeft) == k; }
        else if k == "noseBase" { assert LandmarkKey(NoseBase) == k; }
        else if k == "rightCheek" { assert LandmarkKey(RightCheek) == k; }
        else if k == "rightEar" { assert LandmarkKey(RightEar) == k; }
        else if k == "rightEye" { assert LandmarkKey(RightEye) == k; }
        else { assert LandmarkKey(MouthRight) == k; }
      }
      LandmarkNullIffAbsent(face, t);
    }
  }

  // ---------------------------------------------------------------------
  // Contours

  /** The key each named contour is stored under; the two cheek contours have none. */
  function ContourKey(t: ContourType): Option<string>
  {
    match t
    case FaceOval => Some("face")
    case LeftEyeContour => Some("leftEye")
    case LeftEyebrowBottom => Some("leftEyebrowBottom")
    case LeftEyebrowTop => Some("leftEyebrowTop")
    case LowerLipBottom => Some("lowerLipBottom")
    case LowerLipTop => Some("lowerLipTop")
    case NoseBottom => Some("noseBottom")
    case NoseBridge => Some("noseBridge")
    case RightEyeContour => Some("rightEye")
    case RightEyebrowBottom => Some("rightEyebrowBottom")
    case RightEyebrowTop => Some("rightEyebrowTop")
    case UpperLipBottom => Some("upperLipBottom")
    case UpperLipTop => Some("upperLipTop")
    case LeftCheekContour => None
    case RightCheekContour => None
  }

  const NamedContourKeys: set<string> :=
    {"face", "leftEye", "leftEyebrowBottom", "leftEyebrowTop", "lowerLipBottom", "lowerLipTop",
     "noseBottom", "noseBridge", "rightEye", "rightEyebrowBottom", "rightEyebrowTop",
     "upperLipBottom", "upperLipTop"}

  /** The points of a contour, each a `double[]`, in order. */
  function PointFList(ps: seq<PointF>): (r: seq<Doc>)
    ensures |r| == |ps|
  {
    seq(|ps|, i requires 0 <= i < |ps| => PointFDoc(ps[i]))
  }

  /** `contourPosition`: the contour's points, or null when the contour is absent. */
  function ContourDoc(face: Face, t: ContourType): Doc
  {
    match GetContour(face.allContours, t)
    case None => Null
    case Some(c) => List(PointFList(c.points))
  }

  /** The points of every contour, one contour after the other. */
  function AllPoints(contours: seq<FaceContour>): seq<Doc>
  {
    if contours == [] then []
    else AllPoints(contours[..|contours| - 1]) + PointFList(contours[|contours| - 1].points)
  }

  /** The number of points over all contours. */
  function TotalPoints(contours: seq<FaceContour>): nat
  {
    if contours == [] then 0 else |contours[0].points| + TotalPoints(contours[1..])
  }

  /** `getContourData`: `allPoints` and the thirteen named contours. */
  function ContourDataSpec(face: Face): (m: map<string, Doc>)
    ensures "allPoints" in m && m["allPoints"] == List(AllPoints(face.allContours))
  {
    map["allPoints" := List(AllPoints(face.allContours))]
       ["face" := ContourDoc(face, FaceOval)]
       ["leftEye" := ContourDoc(face, LeftEyeContour)]
       ["leftEyebrowBottom" := ContourDoc(face, LeftEyebrowBottom)]
       ["leftEyebrowTop" := ContourDoc(face, LeftEyebrowTop)]
       ["lowerLipBottom" := ContourDoc(face, LowerLipBottom)]
       ["lowerLipTop" := ContourDoc(face, LowerLipTop)]
       ["noseBottom" := ContourDoc(face, NoseBottom)]
       ["noseBridge" := ContourDoc(face, NoseBridge)]
       ["rightEye" := ContourDoc(face, RightEyeContour)]
       ["rightEyebrowBottom" := ContourDoc(face, RightEyebrowBottom)]
       ["rightEyebrowTop" := ContourDoc(face, RightEyebrowTop)]
       ["upperLipBottom" := ContourDoc(face, UpperLipBottom)]
       ["upperLipTop" := ContourDoc(face, UpperLipTop)]
  }

  /** The contour map has exactly `allPoints` and the thirteen named keys. */
  lemma ContourKeysExact(face: Face)
    ensures ContourDataSpec(face).Keys == NamedContourKeys + {"allPoints"}
  {
  }

  /** Each named contour is stored under its key. */
  lemma ContourEntry(face: Face, t: ContourType)
    requires ContourKey(t).Some?
    ensures ContourKey(t).value in ContourDataSpec(face)
    ensures ContourDataSpec(face)[ContourKey(t).value] == ContourDoc(face, t)
  {
    var m := ContourDataSpec(face);
    match t
    case FaceOval => assert m["face"] == ContourDoc(face, t);
    case LeftEyeContour => assert m["leftEye"] == ContourDoc(face, t);
    case LeftEyebrowBottom => assert m["leftEyebrowBottom"] == ContourDoc(face, t);
    case LeftEyebrowTop => assert m["leftEyebrowTop"] == ContourDoc(face, t);
    case LowerLipBottom => assert m["lowerLipBottom"] == ContourDoc(face, t);
    case LowerLipTop => assert m["lowerLipTop"] == ContourDoc(face, t);
    case NoseBottom => assert m["noseBottom"] == ContourDoc(face, t);
    case NoseBridge => assert m["noseBridge"] == ContourDoc(face, t);
    case RightEyeContour => assert m["rightEye"] == ContourDoc(face, t);
    case RightEyebrowBottom => assert m["rightEyebrowBottom"] == ContourDoc(face, t);
    case RightEyebrowTop => assert m["rightEyebrowTop"] == ContourDoc(face, t);
    case UpperLipBottom => assert m["upperLipBottom"] == ContourDoc(face, t);
    case UpperLipTop => assert m["upperLipTop"] == ContourDoc(face, t);
  }

  /** A named contour's entry is null exactly when the contour is absent, and otherwise lists its points in order. */
  lemma ContourNullIffAbsent(face: Face, t: ContourType)
    requires ContourKey(t).Some?
    ensures var d := ContourDataSpec(face)[ContourKey(t).value];
      && (d == Null <==> GetContour(face.allContours, t).None?)
      && (GetContour(face.allContours, t).Some? ==>
            && d.List? && |d.items| == |GetContour(face.allContours, t).value.points|
            && forall j :: 0 <= j < |d.items| ==>
                 d.items[j] == PointFDoc(GetContour(face.allContours, t).value.points[j]))
  {
    ContourEntry(face, t);
  }

  /** `contourPosition`: the index loop over the contour's points. */
  method ContourPosition(face: Face, t: ContourType) returns (d: Doc)
    ensures d == ContourDoc(face, t)
    ensures d == Null <==> GetContour(face.allContours, t).None?
  {
    var contour := GetContour(face.allContours, t);
    if contour.Some? {
      var contourPoints := contour.value.points;
      var result: seq<Doc> := [];
      var i := 0;
      while i < |contourPoints|
        invariant 0 <= i <= |contourPoints| && |result| == i
        invariant forall j :: 0 <= j < i ==> result[j] == PointFDoc(contourPoints[j])
      {
        result := result + [PointFDoc(contourPoints[i])];
        i := i + 1;
      }
      d := List(result);
    } else {
      d := Null;
    }
  }

  /** `allContourPoints`: the nested loop over every contour's points. */
  method AllContourPoints(face: Face) returns (d: Doc)
    ensures d == List(AllPoints(face.allContours))
  {
    var contours := face.allContours;
    var result: seq<Doc> := [];
    var i := 0;
    while i < |contours|
      invariant 0 <= i <= |contours|
      invariant result == AllPoints(contours[..i])
    {
      var contourPoints := contours[i].points;
      var j := 0;
      while j < |contourPoints|
        invariant 0 <= j <= |contourPoints|
        invariant result == AllPoints(contours[..i]) + PointFList(contourPoints[..j])
      {
        assert PointFList(contourPoints[..j + 1]) == PointFList(contourPoints[..j]) + [PointFDoc(contourPoints[j])];
        result := result + [PointFDoc(contourPoints[j])];
        j := j + 1;
      }
      assert contourPoints[..j] == contourPoints;
      assert contours[..i + 1][..i] == contours[..i];
      i := i + 1;
    }
    assert contours[..i] == contours;
    d := List(result);
  }

  /** `getContourData`, put by put. */
  method ContourData(face: Face) returns (contours: map<string, Doc>)
    ensures contours == ContourDataSpec(face)
  {
    var allPoints := AllContourPoints(face);
    contours := map["allPoints" := allPoints];
    var d := ContourPosition(face, FaceOval);
    contours := contours["face" := d];
    d := ContourPosition(face, LeftEyeContour);
    contours := contours["leftEye" := d];
    d := ContourPosition(face, LeftEyebrowBottom);
    contours := contours["leftEyebrowBottom" := d];
    d := ContourPosition(face, LeftEyebrowTop);
    contours := contours["leftEyebrowTop" := d];
    d := ContourPosition(face, LowerLipBottom);
    contours := contours["lowerLipBottom" := d];
    d := ContourPosition(face, LowerLipTop);
    contours := contours["lowerLipTop" := d];
    d := ContourPosition(face, NoseBottom);
    contours := contours["noseBottom" := d];
    d := ContourPosition(face, NoseBridge);
    contours := contours["noseBridge" := d];
    d := ContourPosition(face, RightEyeContour);
    contours := contours["rightEye" := d];
    d := ContourPosition(face, RightEyebrowBottom);
    contours := contours["rightEyebrowBottom" := d];
    d := ContourPosition(face, RightEyebrowTop);
    contours := contours["rightEyebrowTop" := d];
    d := ContourPosition(face, UpperLipBottom);
    contours := contours["upperLipBottom" := d];
    d := ContourPosition(face, UpperLipTop);
    contours := contours["upperLipTop" := d];
  }

  /** `allPoints` of two runs of contours is the `allPoints` of the first followed by that of the second. */
  lemma {:induction false} AllPointsAppend(a: seq<FaceContour>, b: seq<FaceContour>)
    ensures AllPoints(a + b) == AllPoints(a) + AllPoints(b)
    decreases |b|
  {
    if b == [] {
      assert a + b == a;
    } else {
      var last := b[|b| - 1];
      var b' := b[..|b| - 1];
      assert (a + b)[..|a + b| - 1] == a + b';
      assert (a + b)[|a + b| - 1] == last;
      AllPointsAppend(a, b');
      assert b[..|b| - 1] == b';
    }
  }

  /** `allPoints` holds as many points as all contours together. */
  lemma {:induction false} AllPointsLength(contours: seq<FaceContour>)
    ensures |AllPoints(contours)| == TotalPoints(contours)
  {
    if contours != [] {
      AllPointsAppend([contours[0]], contours[1..]);
      assert [contours[0]] + contours[1..] == contours;
      assert [contours[0]][..0] == [];
      AllPointsLength(contours[1..]);
    }
  }

  /** Every contour's points occur in `allPoints`, in order, right after those of the contours before it. */
  lemma AllPointsOrder(contours: seq<FaceContour>, i: nat, j: nat)
    requires i < |contours| && j < |contours[i].points|
    ensures var at := TotalPoints(contours[..i]) + j;
      at < |AllPoints(contours)| && AllPoints(contours)[at] == PointFDoc(contours[i].points[j])
  {
    var before, rest := contours[..i], contours[i..];
    assert contours == before + rest;
    AllPointsAppend(before, rest);
    assert rest == [contours[i]] + rest[1..];
    AllPointsAppend([contours[i]], rest[1..]);
    assert [contours[i]][..0] == [];
    AllPointsLength(before);
  }

  // ---------------------------------------------------------------------
  // One face

  const FaceAlwaysKeys: set<string> := {"headEulerAngleY", "headEulerAngleZ", "landmarks", "contours"}
  const FaceOptionalKeys: set<string> :=
    {"smilingProbability", "leftEyeOpenProbability", "rightEyeOpenProbability", "trackingId"}

  /** `if (value != null) faceData.put(key, value)` for a float value. */
  function PutIfPresent(m: map<string, Doc>, key: string, v: Option<real>): map<string, Doc>
  {
    if v.Some? then m[key := Double(v.value)] else m
  }

  /** The map written for one face. */
  function FaceFields(face: Face): (m: map<string, Doc>)
  {
    var m := BoundsFields(face.boundingBox);
    var m := m["headEulerAngleY" := Double(face.headEulerAngleY)]["headEulerAngleZ" := Double(face.headEulerAngleZ)];
    var m := PutIfPresent(m, "smilingProbability", face.smilingProbability);
    var m := PutIfPresent(m, "leftEyeOpenProbability", face.leftEyeOpenProbability);
    var m := PutIfPresent(m, "rightEyeOpenProbability", face.rightEyeOpenProbability);
    var m := if face.trackingId.Some? then m["trackingId" := Int(face.trackingId.value)] else m;
    m["landmarks" := Obj(LandmarkData(face))]["contours" := Obj(ContourDataSpec(face))]
  }

  /** The success document: one map per face. */
  function FaceListDoc(faces: seq<Face>): Doc
  {
    List(seq(|faces|, i requires 0 <= i < |faces| => Obj(FaceFields(faces[i]))))
  }

  /** The box, both head angles, `landmarks` and `contours` are always present. */
  lemma FaceAlwaysPresent(face: Face)
    ensures var m := FaceFields(face);
      && BoundsKeys + FaceAlwaysKeys <= m.Keys
      && (forall k :: k in BoundsKeys ==> m[k] == BoundsFields(face.boundingBox)[k])
      && m["headEulerAngleY"] == Double(face.headEulerAngleY)
      && m["headEulerAngleZ"] == Double(face.headEulerAngleZ)
      && m["landmarks"] == Obj(LandmarkData(face))
      && m["contours"] == Obj(ContourDataSpec(face))
  {
    assert BoundsKeys !! FaceAlwaysKeys && BoundsKeys !! FaceOptionalKeys;
  }

  /**
   * Each classification probability and the tracking id is present exactly
   * when the native value is not null, and then holds that value.
   */
  lemma FaceOptionalPresence(face: Face)
    ensures var m := FaceFields(face);
      && ("smilingProbability" in m <==> face.smilingProbability.Some?)
      && ("leftEyeOpenProbability" in m <==> face.leftEyeOpenProbability.Some?)
      && ("rightEyeOpenProbability" in m <==> face.rightEyeOpenProbability.Some?)
      && ("trackingId" in m <==> face.trackingId.Some?)
      && (face.smilingProbability.Some? ==> m["smilingProbability"] == Double(face.smilingProbability.value))
      && (face.leftEyeOpenProbability.Some? ==> m["leftEyeOpenProbability"] == Double(face.leftEyeOpenProbability.value))
      && (face.rightEyeOpenProbability.Some? ==> m["rightEyeOpenProbability"] == Double(face.rightEyeOpenProbability.value))
      && (face.trackingId.Some? ==> m["trackingId"] == Int(face.trackingId.value))
  {
    assert BoundsKeys !! FaceAlwaysKeys && BoundsKeys !! FaceOptionalKeys;
  }

  /** No other key is written for a face. */
  lemma FaceKeysBounded(face: Face)
    ensures FaceFields(face).Keys <= BoundsKeys + FaceAlwaysKeys + FaceOptionalKeys
  {
  }

  /** One face's map, put by put. */
  method TranscodeFace(face: Face) returns (faceData: map<string, Doc>)
    ensures faceData == FaceFields(face)
  {
    var box := face.boundingBox;
    faceData := map[];
    faceData := faceData["left" := Double(box.left as real)];
    faceData := faceData["top" := Double(box.top as real)];
    faceData := faceData["width" := Double(box.Width() as real)];
    faceData := faceData["height" := Double(box.Height() as real)];
    faceData := faceData["headEulerAngleY" := Double(face.headEulerAngleY)];
    faceData := faceData["headEulerAngleZ" := Double(face.headEulerAngleZ)];
    if face.smilingProbability.Some? {
      faceData := faceData["smilingProbability" := Double(face.smilingProbability.value)];
    }
    if face.leftEyeOpenProbability.Some? {
      faceData := faceData["leftEyeOpenProbability" := Double(face.leftEyeOpenProbability.value)];
    }
    if face.rightEyeOpenProbability.Some? {
      faceData := faceData["rightEyeOpenProbability" := Double(face.rightEyeOpenProbability.value)];
    }
    if face.trackingId.Some? {
      faceData := faceData["trackingId" := Int(face.trackingId.value)];
    }
    faceData := faceData["landmarks" := Obj(LandmarkData(face))];
    var contours := ContourData(face);
    faceData := faceData["contours" := Obj(contours)];
  }

  /** `onSuccess`: one map per face, appended in order. */
  method TranscodeFaces(foundFaces: seq<Face>) returns (faces: Doc)
    ensures faces == FaceListDoc(foundFaces)
    ensures faces.List? && |faces.items| == |foundFaces|
    ensures forall i :: 0 <= i < |foundFaces| ==> faces.items[i] == Obj(FaceFields(foundFaces[i]))
  {
    var maps: seq<Doc> := [];
    var i := 0;
    while i < |foundFaces|
      invariant 0 <= i <= |foundFaces| && |maps| == i
      invariant forall j :: 0 <= j < i ==> maps[j] == Obj(FaceFields(foundFaces[j]))
    {
      var faceData := TranscodeFace(foundFaces[i]);
      maps := maps + [Obj(faceData)];
      i := i + 1;
    }
    faces := List(maps);
  }

  // ---------------------------------------------------------------------
  // Options (`parseOptions`)

  /** A `*_MODE_ALL` / `*_MODE_NONE` choice of `FaceDetectorOptions`. */
  datatype FeatureMode = ModeAll | ModeNone

  datatype PerformanceMode = Fast | Accurate

  /** What the `FaceDetectorOptions.Builder` is given. */
  datatype FaceDetectorOptions = FaceDetectorOptions(
    classificationMode: FeatureMode,
    landmarkMode: FeatureMode,
    contourMode: FeatureMode,
    minFaceSize: real,
    performanceMode: PerformanceMode,
    trackingEnabled: bool)

  /** `(boolean) options.get(key)`: null unboxes to a NullPointerException, another type fails the cast. */
  function GetBool(options: map<string, Doc>, key: string): (r: Result<bool, JavaException>)
    ensures r.Ok? <==> key in options && options[key].Bool?
    ensures r.Ok? ==> r.value == options[key].b
  {
    if key !in options || options[key] == Null then Err(NullPointerException)
    else if options[key].Bool? then Ok(options[key].b)
    else Err(ClassCastException)
  }

  /** `(double) options.get(key)`: only a `Double` is accepted. */
  function GetDouble(options: map<string, Doc>, key: string): (r: Result<real, JavaException>)
    ensures r.Ok? <==> key in options && options[key].Double?
  {
    if key !in options || options[key] == Null then Err(NullPointerException)
    else if options[key].Double? then Ok(options[key].d)
    else Err(ClassCastException)
  }

  /** `switch ((String) options.get(key))`: a null string makes the switch throw. */
  function GetSwitchString(options: map<string, Doc>, key: string): (r: Result<string, JavaException>)
    ensures r.Ok? <==> key in options && options[key].Str?
  {
    if key !in options || options[key] == Null then Err(NullPointerException)
    else if options[key].Str? then Ok(options[key].s)
    else Err(ClassCastException)
  }

  function FeatureModeOf(enabled: bool): FeatureMode
  {
    if enabled then ModeAll else ModeNone
  }

  /** Every option `parseOptions` reads is there with the type it casts to. */
  predicate WellTypedOptions(options: map<string, Doc>)
  {
    && (forall k :: k in {"enableClassification", "enableLandmarks", "enableContours", "enableTracking"} ==>
          k in options && options[k].Bool?)
    && "mode" in options && options["mode"].Str?
    && "minFaceSize" in options && options["minFaceSize"].Double?
  }

  /**
   * `parseOptions`, reading the options in the source's order: the three
   * feature flags, the mode, the minimum face size, then tracking.
   */
  function ParseOptions(options: map<string, Doc>): (r: Result<FaceDetectorOptions, JavaException>)
    ensures r.Ok? ==> WellTypedOptions(options)
    ensures r.Ok? ==>
      && r.value.classificationMode == FeatureModeOf(options["enableClassification"].b)
      && r.value.landmarkMode == FeatureModeOf(options["enableLandmarks"].b)
      && r.value.contourMode == FeatureModeOf(options["enableContours"].b)
      && r.value.minFaceSize == options["minFaceSize"].d
      && (r.value.trackingEnabled <==> options["enableTracking"] == Bool(true))
      && (r.value.performanceMode == Accurate <==> options["mode"] == Str("accurate"))
      && (r.value.performanceMode == Fast <==> options["mode"] == Str("fast"))
    ensures WellTypedOptions(options) ==>
      (r.Ok? <==> options["mode"].s == "accurate" || options["mode"].s == "fast")
    ensures WellTypedOptions(options) && r.Err? ==>
      r.error == IllegalArgumentException(NotAMode(options["mode"].s))
  {
    var classification :- GetBool(options, "enableClassification");
    var landmark :- GetBool(options, "enableLandmarks");
    var contours :- GetBool(options, "enableContours");
    var modeName :- GetSwitchString(options, "mode");
    var mode :- if modeName == "accurate" then Ok(Accurate)
                else if modeName == "fast" then Ok(Fast)
                else Err(IllegalArgumentException(NotAMode(modeName)));
    var minFaceSize :- GetDouble(options, "minFaceSize");
    var tracking :- GetBool(options, "enableTracking");
    Ok(FaceDetectorOptions(
      FeatureModeOf(classification), FeatureModeOf(landmark), FeatureModeOf(contours),
      minFaceSize, mode, tracking))
  }
}
