/**
 * Image ingestion of `MlVisionHandler`: the `dataToVisionImage` step that
 * turns the call's image description into the `InputImage` ML Kit is
 * given, and `getImageExifOrientation`. Reading the file is outside the
 * model: what the file system answers for the path is a `FileProbe`.
 */
module ImageIngestion {
  import opened Wrappers
  import opened Document

  /** `ExifInterface.ORIENTATION_*` values of the orientation tag. */
  const OrientationNormal := 1
  const OrientationRotate180 := 3
  const OrientationRotate90 := 6
  const OrientationRotate270 := 8

  /** `ImageFormat.NV21`, the format the bytes path always states, and `ImageFormat.YV12`. */
  const FormatNv21 := 17
  const FormatYv12 := 842094169

  predicate IsRightAngle(degrees: int)
  {
    degrees == 0 || degrees == 90 || degrees == 180 || degrees == 270
  }

  // ---------------------------------------------------------------------
  // Orientation

  /** The switch of `getImageExifOrientation`: three tag values turn the image, every other value reads as upright. */
  function RotationOf(orientation: int): (degrees: int)
    ensures IsRightAngle(degrees)
    ensures degrees == 90 <==> orientation == OrientationRotate90
    ensures degrees == 180 <==> orientation == OrientationRotate180
    ensures degrees == 270 <==> orientation == OrientationRotate270
    ensures degrees == 0 <==>
      orientation != OrientationRotate90 && orientation != OrientationRotate180 && orientation != OrientationRotate270
  {
    if orientation == OrientationRotate90 then 90
    else if orientation == OrientationRotate180 then 180
    else if orientation == OrientationRotate270 then 270
    else 0
  }

  /**
   * What `new ExifInterface(path)` gives: the file cannot be opened (an
   * `IOException` with its message), or it can and the orientation tag is
   * read as an int, `None` when it is absent or not a number.
   */
  datatype ExifRead = Unopenable(message: JStr) | Opened(orientationTag: Option<int>)

  /** The file at the path, as the calls on it answer. */
  datatype FileProbe = FileProbe(
    exif: ExifRead,
    openFailure: Option<JStr>,  // `InputImage.fromFilePath` throwing an IOException
    decodable: bool)            // `BitmapFactory.decodeFile` returning a bitmap, not null

  /**
   * `getImageExifOrientation`: the rotation in degrees, or the message of
   * the IOException. A missing tag defaults to `ORIENTATION_NORMAL`.
   */
  function GetImageExifOrientation(exif: ExifRead): (r: Result<int, JStr>)
    ensures r.Err? <==> exif.Unopenable?
    ensures r.Err? ==> r.error == exif.message
    ensures r.Ok? ==> IsRightAngle(r.value)
    ensures exif == Opened(None) ==> r == Ok(0)
    ensures exif.Opened? && exif.orientationTag.Some? ==> r == Ok(RotationOf(exif.orientationTag.value))
  {
    match exif
    case Unopenable(message) => Err(message)
    case Opened(tag) =>
      var orientation := if tag.Some? then tag.value else OrientationNormal;
      Ok(RotationOf(orientation))
  }

  // ---------------------------------------------------------------------
  // Images

  /** The `InputImage` handed to ML Kit. */
  datatype InputImage =
    | FileImage(path: string)                        // `InputImage.fromFilePath`
    | RotatedBitmap(path: string, turnedBy: int)     // the decoded file turned by `turnedBy`, then `fromBitmap(_, 0)`
    | ByteArrayImage(data: seq<bv8>, width: int, height: int, rotationDegrees: int, format: int)

  /** The rotation ML Kit is told the image has: baked into a bitmap, it is 0. */
  function StatedRotation(image: InputImage): int
  {
    if image.ByteArrayImage? then image.rotationDegrees else 0
  }

  /** Why ingestion ended without an image: a checked `IOException`, or an unchecked exception. */
  datatype IngestFailure = IOFailure(message: JStr) | Raised(exception: JavaException)

  function Raise<T>(r: Result<T, JavaException>): (lifted: Result<T, IngestFailure>)
    ensures r.Ok? ==> lifted == Ok(r.value)
    ensures r.Err? ==> lifted == Err(Raised(r.error))
  {
    match r
    case Ok(v) => Ok(v)
    case Err(e) => Err(Raised(e))
  }

  /**
   * `Double.intValue()`: truncation toward zero, saturating at the ends of
   * the `int` range.
   */
  function IntValue(d: real): (n: int)
    ensures InIntRange(n)
    ensures d >= IntMax as real ==> n == IntMax
    ensures d <= IntMin as real ==> n == IntMin
    ensures 0.0 <= d < IntMax as real ==> n as real <= d < n as real + 1.0
    ensures IntMin as real < d < 0.0 ==> n as real - 1.0 < d <= n as real
  {
    if d >= IntMax as real then IntMax
    else if d <= IntMin as real then IntMin
    else if d >= 0.0 then d.Floor
    else -((-d).Floor)
  }

  /**
   * `InputImage.fromByteArray`: a null array is dereferenced, a rotation
   * other than a right angle or a format other than NV21 or YV12 is refused
   * with an `IllegalArgumentException`.
   */
  function FromByteArray(data: Option<seq<bv8>>, width: int, height: int, rotation: int, format: int)
    : (r: Result<InputImage, JavaException>)
    ensures r.Ok? <==> data.Some? && IsRightAngle(rotation) && (format == FormatNv21 || format == FormatYv12)
    ensures r.Ok? ==> r.value == ByteArrayImage(data.value, width, height, rotation, format)
    ensures r.Err? ==> r.error == (if data.None? then NullPointerException else IllegalArgumentException(RejectedImage))
  {
    if data.None? then Err(NullPointerException)
    else if !IsRightAngle(rotation) || (format != FormatNv21 && format != FormatYv12) then
      Err(IllegalArgumentException(RejectedImage))
    else Ok(ByteArrayImage(data.value, width, height, rotation, format))
  }

  /**
   * The `"file"` branch: upright files are referenced by path; turned ones
   * are decoded, rotated and handed over as a bitmap with rotation 0.
   */
  function FileImageOf(path: JStr, file: FileProbe): (r: Result<Option<InputImage>, IngestFailure>)
    ensures r.Ok? ==> r.value.Some? && path.Some?
    ensures r.Ok? ==> var degrees := GetImageExifOrientation(file.exif);
      && degrees.Ok?
      && (degrees.value == 0 ==> r.value.value == FileImage(path.value) && file.openFailure.None?)
      && (degrees.value != 0 ==> r.value.value == RotatedBitmap(path.value, degrees.value) && file.decodable)
    ensures path.None? ==> r == Err(Raised(NullPointerException))
    ensures path.Some? && file.exif.Unopenable? ==> r == Err(IOFailure(file.exif.message))
    ensures path.Some? && GetImageExifOrientation(file.exif) == Ok(0) && file.openFailure.Some? ==>
      r == Err(IOFailure(file.openFailure.value))
    ensures path.Some? && GetImageExifOrientation(file.exif).Ok? && GetImageExifOrientation(file.exif).value != 0
            && !file.decodable ==>
      r == Err(Raised(NullPointerException))
  {
    if path.None? then Err(Raised(NullPointerException))
    else
      match GetImageExifOrientation(file.exif)
      case Err(message) => Err(IOFailure(message))
      case Ok(rotation) =>
        if rotation == 0 then
          if file.openFailure.Some? then Err(IOFailure(file.openFailure.value))
          else Ok(Some(FileImage(path.value)))
        else if !file.decodable then Err(Raised(NullPointerException))  // `bitmap.getWidth()` on null
        else Ok(Some(RotatedBitmap(path.value, rotation)))
  }

  /** The metadata of the `"bytes"` branch is present with the types it is cast to. */
  predicate WellTypedMetadata(imageData: map<string, Doc>)
  {
    && Get(imageData, "metadata").Obj?
    && Get(imageData, "bytes").Bytes?
    && Get(Get(imageData, "metadata").fields, "width").Double?
    && Get(Get(imageData, "metadata").fields, "height").Double?
    && Get(Get(imageData, "metadata").fields, "rotation").Int?
    && InIntRange(Get(Get(imageData, "metadata").fields, "rotation").i)
  }

  /**
   * The `"bytes"` branch: metadata and bytes are cast, width and height
   * truncated to ints, and the array given to ML Kit as NV21; an
   * `IllegalArgumentException` from ML Kit is swallowed and gives no image.
   */
  function BytesImageOf(imageData: map<string, Doc>): (r: Result<Option<InputImage>, IngestFailure>)
    ensures r.Ok? <==> WellTypedMetadata(imageData)
    ensures r.Err? ==> r.error == Raised(NullPointerException) || r.error == Raised(ClassCastException)
  {
    var metadata :- Raise(CastMap(Get(imageData, "metadata")));
    var bytes :- Raise(CastBytes(Get(imageData, "bytes")));
    if metadata.None? then Err(Raised(NullPointerException))
    else
      var width :- Raise(CastDouble(Get(metadata.value, "width")));
      if width.None? then Err(Raised(NullPointerException))
      else
        var height :- Raise(CastDouble(Get(metadata.value, "height")));
        if height.None? then Err(Raised(NullPointerException))
        else
          var rotation :- Raise(UnboxInteger(Get(metadata.value, "rotation")));
          match FromByteArray(bytes, IntValue(width.value), IntValue(height.value), rotation, FormatNv21)
          case Ok(image) => Ok(Some(image))
          case Err(IllegalArgumentException(_)) => Ok(None)
          case Err(e) => Err(Raised(e))
  }

  /**
   * `dataToVisionImage`: chooses the branch by `type`; a null type fails
   * the switch, an unknown one is refused.
   */
  function DataToVisionImage(imageData: map<string, Doc>, file: FileProbe): (r: Result<Option<InputImage>, IngestFailure>)
    ensures Get(imageData, "type") == Null ==> r == Err(Raised(NullPointerException))
    ensures Get(imageData, "type").Str? && Get(imageData, "type").s != "file" && Get(imageData, "type").s != "bytes" ==>
      r == Err(Raised(IllegalArgumentException(NoImageType(Get(imageData, "type").s))))
    ensures !Get(imageData, "type").Str? && Get(imageData, "type") != Null ==> r == Err(Raised(ClassCastException))
  {
    var imageType :- Raise(CastString(Get(imageData, "type")));
    if imageType.None? then Err(Raised(NullPointerException))
    else if imageType.value == "file" then
      var path :- Raise(CastString(Get(imageData, "path")));
      FileImageOf(path, file)
    else if imageType.value == "bytes" then
      BytesImageOf(imageData)
    else Err(Raised(IllegalArgumentException(NoImageType(imageType.value))))
  }

  // ---------------------------------------------------------------------
  // Properties

  /** Every image that reaches ML Kit is stated at a right angle; a turned file is turned by a right angle too. */
  lemma IngestedImagesAreRightAngled(imageData: map<string, Doc>, file: FileProbe)
    ensures var r := DataToVisionImage(imageData, file);
      r.Ok? && r.value.Some? ==>
        && IsRightAngle(StatedRotation(r.value.value))
        && (r.value.value.RotatedBitmap? ==> IsRightAngle(r.value.value.turnedBy) && r.value.value.turnedBy != 0)
  {
  }

  /** An IOException can only come from the file branch; a null image only from the bytes branch. */
  lemma FailureOrigins(imageData: map<string, Doc>, file: FileProbe)
    ensures var r := DataToVisionImage(imageData, file);
      && (r.Err? && r.error.IOFailure? ==> Get(imageData, "type") == Str("file"))
      && (r == Ok(None) ==> Get(imageData, "type") == Str("bytes"))
      && (r.Ok? && Get(imageData, "type") == Str("file") ==> r.value.Some?)
  {
  }

  /**
   * With well-typed metadata the bytes branch hands over the array with
   * the truncated size, the given rotation and NV21 exactly when the
   * rotation is a right angle, and gives no image otherwise.
   */
  lemma BytesBranch(imageData: map<string, Doc>, file: FileProbe)
    requires Get(imageData, "type") == Str("bytes") && WellTypedMetadata(imageData)
    ensures var metadata := Get(imageData, "metadata").fields;
      var rotation := Get(metadata, "rotation").i;
      var r := DataToVisionImage(imageData, file);
      && (IsRightAngle(rotation) ==>
            r == Ok(Some(ByteArrayImage(Get(imageData, "bytes").data,
                                        IntValue(Get(metadata, "width").d), IntValue(Get(metadata, "height").d),
                                        rotation, FormatNv21))))
      && (!IsRightAngle(rotation) ==> r == Ok(None))
  {
  }

  /** Without metadata the bytes branch dereferences null rather than reporting a decode error. */
  lemma BytesWithoutMetadata(imageData: map<string, Doc>, file: FileProbe)
    requires Get(imageData, "type") == Str("bytes") && Get(imageData, "metadata") == Null
    requires Get(imageData, "bytes") == Null || Get(imageData, "bytes").Bytes?
    ensures DataToVisionImage(imageData, file) == Err(Raised(NullPointerException))
  {
  }

  /**
   * With the metadata map and the array present, the first of `width`,
   * `height` and `rotation` that is missing throws a NullPointerException
   * and the first that has the wrong type a ClassCastException.
   */
  lemma BytesMalformedMetadata(imageData: map<string, Doc>, file: FileProbe)
    requires Get(imageData, "type") == Str("bytes")
    requires Get(imageData, "metadata").Obj? && Get(imageData, "bytes").Bytes?
    ensures var metadata := Get(imageData, "metadata").fields;
      var width := Get(metadata, "width");
      var height := Get(metadata, "height");
      var rotation := Get(metadata, "rotation");
      var r := DataToVisionImage(imageData, file);
      && (width == Null ==> r == Err(Raised(NullPointerException)))
      && (width != Null && !width.Double? ==> r == Err(Raised(ClassCastException)))
      && (width.Double? && height == Null ==> r == Err(Raised(NullPointerException)))
      && (width.Double? && height != Null && !height.Double? ==> r == Err(Raised(ClassCastException)))
      && (width.Double? && height.Double? && rotation == Null ==> r == Err(Raised(NullPointerException)))
      && (width.Double? && height.Double? && rotation != Null && !(rotation.Int? && InIntRange(rotation.i)) ==>
            r == Err(Raised(ClassCastException)))
  {
  }

  /**
   * The file branch: an upright file (orientation tag absent or not one of
   * the three turning values) is referenced by path, a turned one becomes a
   * bitmap turned by the tag's angle.
   */
  lemma FileBranch(imageData: map<string, Doc>, file: FileProbe, path: string)
    requires Get(imageData, "type") == Str("file") && Get(imageData, "path") == Str(path)
    requires file.exif.Opened? && file.openFailure.None? && file.decodable
    ensures var tag := if file.exif.orientationTag.Some? then file.exif.orientationTag.value else OrientationNormal;
      var r := DataToVisionImage(imageData, file);
      && (RotationOf(tag) == 0 ==> r == Ok(Some(FileImage(path))))
      && (RotationOf(tag) != 0 ==> r == Ok(Some(RotatedBitmap(path, RotationOf(tag)))))
  {
  }
}
