# ML Vision bridge, Android side — a Dafny model

This project models the Android half of the `google_ml_vision` Flutter
plugin: the `MlVisionHandler` that receives method calls from Dart, keeps
one ML Kit detector per handle, turns the call's image description into an
ML Kit `InputImage`, and the four detectors (barcode scanner, face
detector, image labeler, text recognizer) that turn ML Kit's results into
the maps and lists sent back over the channel.

Modules, one per source file plus two shared ones:

- `Wrappers` — `Option` and `Result`.
- `Document` (`document.dfy`) — the values the channel carries (`Doc`),
  nullable Java strings, Java's cast and unboxing rules on them, the
  exceptions that can escape, and the four kinds of reply.
- `Geometry` (`geometry.dfy`) — bounding boxes and corner points, shared by
  the barcode scanner and the text recognizer, with decoders proving the
  entries lose nothing.
- `BarcodeDetector`, `FaceDetector`, `TextRecognizer`, `ImageLabeler` —
  the result transcoders. Their loops are methods proved equal to a
  specification function, and lemmas state the shape of the document: which
  keys are present, when an entry is null, counts and order.
- `ImageIngestion` (`image.dfy`) — `dataToVisionImage` and
  `getImageExifOrientation`.
- `VisionHandler` (`handler.dfy`) — routing, detector creation, and the
  registry as a class `MlVisionHandler` whose `detectors` map the methods
  update.

Whatever lies outside the process is a parameter. That covers what the
EXIF reader, the file loader and the bitmap decoder answer for the path
(`FileProbe`), how ML Kit's task completed (`Completion`), and whether a
detector's `close()` threw (`closeFailure`).

A `Completion` is always of the result type of the detector that runs
(`CompletionFits`): each detector's success listener is typed by its own
ML Kit client, so a barcode detector only ever transcodes barcodes.

In the bytes branch, a missing or mistyped `metadata`, `width`, `height` or
`rotation` throws a `NullPointerException` or a `ClassCastException`. An
`IllegalArgumentException` from `InputImage.fromByteArray` is logged and
swallowed, and the detector is handed a null image (`BytesImageOf`,
`BytesBranch`, `BytesWithoutMetadata`, `BytesMalformedMetadata`). Closing a detector whose `close()` throws replies
with the code `<simple class name>IOError`, for example
`GMLKFaceDetectorIOError` (`CloseErrorCode`). `addDetector`'s duplicate
check cannot fire from `handleDetection`, because it is reached only when
the handle is free. `AddDetector` still models it.

## Model

Source paths are relative to the repository root.

| member | source | states |
|---|---|---|
| Document.UnboxInteger | android/src/main/java/com/brianmtully/flutter/plugins/googlemlvision/GoogleMlVisionHandler.java:177-180 | reading `Integer handle` and using it as an `int` succeeds exactly for an in-range integer and gives it; null throws NullPointerException, any other value ClassCastException |
| Geometry.BoundsFields | android/src/main/java/com/brianmtully/flutter/plugins/googlemlvision/GMLKTextRecognizer.java:101-106 | a box becomes exactly the four keys `left`, `top`, `width`, `height`, all doubles |
| Geometry.PutBounds | android/src/main/java/com/brianmtully/flutter/plugins/googlemlvision/GMLKBarcodeDetector.java:45-51 | a null box leaves the map as it was; otherwise the four box keys are added with the box's values and every other entry is kept |
| Geometry.BoundsRoundTrip | android/src/main/java/com/brianmtully/flutter/plugins/googlemlvision/GMLKTextRecognizer.java:101-106 | the four entries read back as the same box: left, top, width and height determine it |
| Geometry.CornerPointList | android/src/main/java/com/brianmtully/flutter/plugins/googlemlvision/GMLKTextRecognizer.java:108-114 | the loop builds one `[x, y]` double array per corner point, in order, and an empty list when the array is null |
| Geometry.PointsRoundTrip | android/src/main/java/com/brianmtully/flutter/plugins/googlemlvision/GMLKBarcodeDetector.java:53-59 | the `points` list reads back as the corner points, or as no points when the array was null |
| BarcodeDetector.PayloadKey | android/src/main/java/com/brianmtully/flutter/plugins/googlemlvision/GMLKBarcodeDetector.java:67-216 | the nine value types with a payload map to their key, and the key is one of the nine payload keys |
| BarcodeDetector.EmailFields | android/src/main/java/com/brianmtully/flutter/plugins/googlemlvision/GMLKBarcodeDetector.java:68-77 | an email payload has exactly `type`, `address`, `body`, `subject` |
| BarcodeDetector.PhoneFields | android/src/main/java/com/brianmtully/flutter/plugins/googlemlvision/GMLKBarcodeDetector.java:78-85 | a phone payload has exactly `number`, `type` |
| BarcodeDetector.SmsFields | android/src/main/java/com/brianmtully/flutter/plugins/googlemlvision/GMLKBarcodeDetector.java:86-93 | an SMS payload has exactly `message`, `phoneNumber` |
| BarcodeDetector.UrlFields | android/src/main/java/com/brianmtully/flutter/plugins/googlemlvision/GMLKBarcodeDetector.java:94-101 | a URL payload has exactly `title`, `url` |
| BarcodeDetector.WifiFields | android/src/main/java/com/brianmtully/flutter/plugins/googlemlvision/GMLKBarcodeDetector.java:102-110 | a Wi-Fi payload has exactly `ssid`, `password`, `encryptionType` |
| BarcodeDetector.GeoFields | android/src/main/java/com/brianmtully/flutter/plugins/googlemlvision/GMLKBarcodeDetector.java:111-118 | a geo payload has exactly `latitude` and `longitude`, holding the two coordinates |
| BarcodeDetector.AddressFields | android/src/main/java/com/brianmtully/flutter/plugins/googlemlvision/GMLKBarcodeDetector.java:122-131 | `type` is always there; `addressLines` is there exactly when the lines array is not null, and then lists them, nulls included |
| BarcodeDetector.NameFields | android/src/main/java/com/brianmtully/flutter/plugins/googlemlvision/GMLKBarcodeDetector.java:146-157 | a null name gives an empty map, never a null; a name gives exactly its seven keys |
| BarcodeDetector.ContactInfoFields | android/src/main/java/com/brianmtully/flutter/plugins/googlemlvision/GMLKBarcodeDetector.java:119-176 | one map per address, email and phone, in order; `name` is the name map; `urls` exactly when the URL array is not null; no other keys |
| BarcodeDetector.ContactInfoPayload | android/src/main/java/com/brianmtully/flutter/plugins/googlemlvision/GMLKBarcodeDetector.java:119-176 | the three loops and the puts build exactly `ContactInfoFields` |
| BarcodeDetector.CalendarFields | android/src/main/java/com/brianmtully/flutter/plugins/googlemlvision/GMLKBarcodeDetector.java:177-194 | five keys always; `start` and `end` exactly when their date-time is not null, holding its raw value |
| BarcodeDetector.DriverLicenseShape | android/src/main/java/com/brianmtully/flutter/plugins/googlemlvision/GMLKBarcodeDetector.java:195-215 | the driver-license payload has exactly its fourteen keys, and the issue date is stored under `issuingDate` |
| BarcodeDetector.PutPayload | android/src/main/java/com/brianmtully/flutter/plugins/googlemlvision/GMLKBarcodeDetector.java:66-216 | the switch adds the value type's payload key, or nothing, and keeps every other entry |
| BarcodeDetector.BarcodeFields | android/src/main/java/com/brianmtully/flutter/plugins/googlemlvision/GMLKBarcodeDetector.java:43-216 | the keys of one barcode's map are the box keys when there is a box, the five scalar keys, and the payload key of its value type |
| BarcodeDetector.TranscodeBarcode | android/src/main/java/com/brianmtully/flutter/plugins/googlemlvision/GMLKBarcodeDetector.java:43-218 | the loop body builds exactly `BarcodeFields` |
| BarcodeDetector.TranscodeBarcodes | android/src/main/java/com/brianmtully/flutter/plugins/googlemlvision/GMLKBarcodeDetector.java:39-220 | one map per native barcode, as many as there are, in order |
| BarcodeDetector.KeyGroupsDisjoint | android/src/main/java/com/brianmtully/flutter/plugins/googlemlvision/GMLKBarcodeDetector.java:45-216 | box keys, scalar keys and payload keys never collide, so no put overwrites another group |
| BarcodeDetector.BarcodeBoundsPresence | android/src/main/java/com/brianmtully/flutter/plugins/googlemlvision/GMLKBarcodeDetector.java:45-51 | each box key is present exactly when the bounding box is not null, with the box's value |
| BarcodeDetector.BarcodeAlwaysPresent | android/src/main/java/com/brianmtully/flutter/plugins/googlemlvision/GMLKBarcodeDetector.java:53-64 | `points`, `rawValue`, `displayValue`, `format`, `valueType` are always present with the barcode's values, null strings as explicit nulls |
| BarcodeDetector.BarcodePayloadSelection | android/src/main/java/com/brianmtully/flutter/plugins/googlemlvision/GMLKBarcodeDetector.java:66-216 | a payload key is present exactly when it is the value type's key; no key outside the three groups appears |
| BarcodeDetector.GeoBarcodeShape | android/src/main/java/com/brianmtully/flutter/plugins/googlemlvision/GMLKBarcodeDetector.java:111-118 | a geo barcode carries `geoPoint` with both coordinates and no other payload |
| BarcodeDetector.UnknownValueTypeHasNoPayload | android/src/main/java/com/brianmtully/flutter/plugins/googlemlvision/GMLKBarcodeDetector.java:67-216 | a value type outside the nine cases, such as ISBN, product, text or unknown, adds no payload key |
| BarcodeDetector.AtMostOnePayload | android/src/main/java/com/brianmtully/flutter/plugins/googlemlvision/GMLKBarcodeDetector.java:66-216 | two different payload keys are never both present |
| BarcodeDetector.ParseOptions | android/src/main/java/com/brianmtully/flutter/plugins/googlemlvision/GMLKBarcodeDetector.java:232-237 | the scanner is configured with `barcodeFormats` exactly when it is an in-range integer; null throws NullPointerException, another type ClassCastException |
| FaceDetector.LandmarkData | android/src/main/java/com/brianmtully/flutter/plugins/googlemlvision/GMLKFaceDetector.java:89-104 | every landmark type has its key, holding that landmark's position |
| FaceDetector.LandmarkKeysExact | android/src/main/java/com/brianmtully/flutter/plugins/googlemlvision/GMLKFaceDetector.java:89-104 | the landmark map has exactly the ten landmark keys |
| FaceDetector.LandmarkNullIffAbsent | android/src/main/java/com/brianmtully/flutter/plugins/googlemlvision/GMLKFaceDetector.java:134-142 | a landmark entry is null exactly when the face has no such landmark |
| FaceDetector.AllLandmarksFound | android/src/main/java/com/brianmtully/flutter/plugins/googlemlvision/GMLKFaceDetector.java:134-142 | a face with all ten landmarks has no null landmark entry |
| FaceDetector.ContourDataSpec | android/src/main/java/com/brianmtully/flutter/plugins/googlemlvision/GMLKFaceDetector.java:106-132 | `allPoints` holds the points of all contours |
| FaceDetector.ContourKeysExact | android/src/main/java/com/brianmtully/flutter/plugins/googlemlvision/GMLKFaceDetector.java:106-132 | the contour map has exactly `allPoints` and the thirteen named contour keys; the cheek contours have no key of their own |
| FaceDetector.ContourEntry | android/src/main/java/com/brianmtully/flutter/plugins/googlemlvision/GMLKFaceDetector.java:110-129 | each named contour is stored under its own key |
| FaceDetector.ContourNullIffAbsent | android/src/main/java/com/brianmtully/flutter/plugins/googlemlvision/GMLKFaceDetector.java:144-158 | a named contour's entry is null exactly when the face lacks that contour, and otherwise is a list whose j-th entry is the contour's j-th point |
| FaceDetector.ContourPosition | android/src/main/java/com/brianmtully/flutter/plugins/googlemlvision/GMLKFaceDetector.java:144-158 | the index loop gives the contour's point list, and null exactly when the contour is absent |
| FaceDetector.AllContourPoints | android/src/main/java/com/brianmtully/flutter/plugins/googlemlvision/GMLKFaceDetector.java:160-171 | the nested loops give every contour's points, contour after contour |
| FaceDetector.ContourData | android/src/main/java/com/brianmtully/flutter/plugins/googlemlvision/GMLKFaceDetector.java:106-132 | the fourteen puts build exactly the contour map |
| FaceDetector.AllPointsAppend | android/src/main/java/com/brianmtully/flutter/plugins/googlemlvision/GMLKFaceDetector.java:160-171 | the points of two runs of contours are the points of the first followed by those of the second |
| FaceDetector.AllPointsLength | android/src/main/java/com/brianmtully/flutter/plugins/googlemlvision/GMLKFaceDetector.java:160-171 | `allPoints` has as many points as all contours together |
| FaceDetector.AllPointsOrder | android/src/main/java/com/brianmtully/flutter/plugins/googlemlvision/GMLKFaceDetector.java:160-171 | point j of contour i sits in `allPoints` right after the points of the contours before i |
| FaceDetector.FaceAlwaysPresent | android/src/main/java/com/brianmtully/flutter/plugins/googlemlvision/GMLKFaceDetector.java:45-72 | the box, both head angles, `landmarks` and `contours` are always present with the face's values |
| FaceDetector.FaceOptionalPresence | android/src/main/java/com/brianmtully/flutter/plugins/googlemlvision/GMLKFaceDetector.java:52-68 | the three probabilities and `trackingId` are present exactly when ML Kit reported them, never as nulls |
| FaceDetector.FaceKeysBounded | android/src/main/java/com/brianmtully/flutter/plugins/googlemlvision/GMLKFaceDetector.java:43-72 | no other key is written for a face |
| FaceDetector.TranscodeFace | android/src/main/java/com/brianmtully/flutter/plugins/googlemlvision/GMLKFaceDetector.java:43-73 | the loop body builds exactly the face's map |
| FaceDetector.TranscodeFaces | android/src/main/java/com/brianmtully/flutter/plugins/googlemlvision/GMLKFaceDetector.java:40-77 | one map per face, as many as there are, in order |
| FaceDetector.GetBool | android/src/main/java/com/brianmtully/flutter/plugins/googlemlvision/GMLKFaceDetector.java:176 | `(boolean) options.get(key)` succeeds exactly on a boolean entry and gives it |
| FaceDetector.ParseOptions | android/src/main/java/com/brianmtully/flutter/plugins/googlemlvision/GMLKFaceDetector.java:174-215 | each flag selects its `_ALL` mode; tracking is on exactly when `enableTracking` is true; `accurate` and `fast` select their performance mode; well-typed options fail exactly when the mode is neither, and then with IllegalArgumentException naming it |
| TextRecognizer.DataFields | android/src/main/java/com/brianmtully/flutter/plugins/googlemlvision/GMLKTextRecognizer.java:94-124 | `points` (empty when null), a one-element `recognizedLanguages` list holding `{languageCode: language}`, and `text` are always written |
| TextRecognizer.DataBoundsPresence | android/src/main/java/com/brianmtully/flutter/plugins/googlemlvision/GMLKTextRecognizer.java:101-106 | the box keys are present exactly when the box is not null; nothing else is written |
| TextRecognizer.AddData | android/src/main/java/com/brianmtully/flutter/plugins/googlemlvision/GMLKTextRecognizer.java:94-124 | the map afterwards is the given map overridden by exactly those entries |
| TextRecognizer.TranscodeLine | android/src/main/java/com/brianmtully/flutter/plugins/googlemlvision/GMLKTextRecognizer.java:54-75 | a line's data plus one element map per element, in order |
| TextRecognizer.TranscodeBlock | android/src/main/java/com/brianmtully/flutter/plugins/googlemlvision/GMLKTextRecognizer.java:44-78 | a block's data plus one line map per line, in order |
| TextRecognizer.TranscodeText | android/src/main/java/com/brianmtully/flutter/plugins/googlemlvision/GMLKTextRecognizer.java:38-82 | `text` plus one block map per block, in order |
| TextRecognizer.TextStructure | android/src/main/java/com/brianmtully/flutter/plugins/googlemlvision/GMLKTextRecognizer.java:38-82 | the document has exactly `text` and `blocks`; block, line and element maps match the native counts and order at every level |
| TextRecognizer.TextAtEveryLevel | android/src/main/java/com/brianmtully/flutter/plugins/googlemlvision/GMLKTextRecognizer.java:45-70 | every block, line and element map carries its own native text |
| TextRecognizer.ElementAlwaysHasPointsAndLanguage | android/src/main/java/com/brianmtully/flutter/plugins/googlemlvision/GMLKTextRecognizer.java:108-122 | an element always has a `points` list, empty for null corners, and the one-language list, whatever is null natively |
| ImageLabeler.DecimalString | android/src/main/java/com/brianmtully/flutter/plugins/googlemlvision/GMLKImageLabeler.java:42 | `String.valueOf(int)` is non-empty and starts with a minus sign exactly for negative numbers |
| ImageLabeler.DigitsRoundTrip | android/src/main/java/com/brianmtully/flutter/plugins/googlemlvision/GMLKImageLabeler.java:42 | the digits of a natural number read back as that number |
| ImageLabeler.DecimalRoundTrip | android/src/main/java/com/brianmtully/flutter/plugins/googlemlvision/GMLKImageLabeler.java:42 | an `entityId` reads back as the label's index |
| ImageLabeler.DecimalInjective | android/src/main/java/com/brianmtully/flutter/plugins/googlemlvision/GMLKImageLabeler.java:42 | different indices give different `entityId`s |
| ImageLabeler.LabelFields | android/src/main/java/com/brianmtully/flutter/plugins/googlemlvision/GMLKImageLabeler.java:40-43 | a label map has exactly `confidence`, `entityId`, `text` |
| ImageLabeler.TranscodeLabels | android/src/main/java/com/brianmtully/flutter/plugins/googlemlvision/GMLKImageLabeler.java:37-48 | the loop builds one label map per native label, in order |
| ImageLabeler.LabelListShape | android/src/main/java/com/brianmtully/flutter/plugins/googlemlvision/GMLKImageLabeler.java:37-48 | as many maps as labels, each with the label's confidence and text and an `entityId` that reads back as its index |
| ImageIngestion.RotationOf | android/src/main/java/com/brianmtully/flutter/plugins/googlemlvision/GoogleMlVisionHandler.java:157-166 | the result is a right angle; 90, 180 and 270 come exactly from the three rotation tags; every other tag value gives 0 |
| ImageIngestion.GetImageExifOrientation | android/src/main/java/com/brianmtully/flutter/plugins/googlemlvision/GoogleMlVisionHandler.java:152-167 | an unreadable file gives its IOException; a missing tag counts as upright, 0; otherwise the tag's rotation |
| ImageIngestion.IntValue | android/src/main/java/com/brianmtully/flutter/plugins/googlemlvision/GoogleMlVisionHandler.java:135-139 | `Double.intValue()` truncates toward zero inside the int range and saturates at its ends |
| ImageIngestion.FromByteArray | android/src/main/java/com/brianmtully/flutter/plugins/googlemlvision/GoogleMlVisionHandler.java:141 | the array becomes an image exactly when it is not null, the rotation is a right angle and the format is NV21 or YV12; otherwise NullPointerException or IllegalArgumentException |
| ImageIngestion.FileImageOf | android/src/main/java/com/brianmtully/flutter/plugins/googlemlvision/GoogleMlVisionHandler.java:111-127 | an upright file is referenced by path once it opens, and an upright file that fails to open gives that IOException; a turned one becomes a bitmap turned by the tag's angle once it decodes, and one that does not decode throws a NullPointerException; unreadable EXIF gives its IOException; a null path throws a NullPointerException |
| ImageIngestion.BytesImageOf | android/src/main/java/com/brianmtully/flutter/plugins/googlemlvision/GoogleMlVisionHandler.java:128-146 | the bytes branch succeeds exactly when the metadata map, the array, `width`, `height` and `rotation` are present with the types they are cast to, and otherwise throws a NullPointerException or a ClassCastException, never an IOException |
| ImageIngestion.DataToVisionImage | android/src/main/java/com/brianmtully/flutter/plugins/googlemlvision/GoogleMlVisionHandler.java:106-150 | a null `type` throws NullPointerException, a non-string type ClassCastException, any type other than `file` and `bytes` IllegalArgumentException naming it |
| ImageIngestion.IngestedImagesAreRightAngled | android/src/main/java/com/brianmtully/flutter/plugins/googlemlvision/GoogleMlVisionHandler.java:106-150 | every image handed on is stated at a right angle, and a turned file is turned by 90, 180 or 270 degrees |
| ImageIngestion.FailureOrigins | android/src/main/java/com/brianmtully/flutter/plugins/googlemlvision/GoogleMlVisionHandler.java:106-150 | IOExceptions come only from the file branch; a null image comes only from the bytes branch |
| ImageIngestion.BytesBranch | android/src/main/java/com/brianmtully/flutter/plugins/googlemlvision/GoogleMlVisionHandler.java:128-146 | with well-typed metadata the bytes give an NV21 image of the truncated size when the rotation is a right angle, and a null image otherwise |
| ImageIngestion.BytesWithoutMetadata | android/src/main/java/com/brianmtully/flutter/plugins/googlemlvision/GoogleMlVisionHandler.java:129-136 | bytes without metadata throw NullPointerException rather than replying with an error |
| ImageIngestion.BytesMalformedMetadata | android/src/main/java/com/brianmtully/flutter/plugins/googlemlvision/GoogleMlVisionHandler.java:135-141 | with metadata present, the first of `width`, `height`, `rotation` that is missing throws NullPointerException and the first of the wrong type throws ClassCastException |
| ImageIngestion.FileBranch | android/src/main/java/com/brianmtully/flutter/plugins/googlemlvision/GoogleMlVisionHandler.java:111-127 | a readable file is referenced by path when its tag is upright, and becomes a bitmap turned by the tag's angle otherwise |
| VisionHandler.NamesDistinct | android/src/main/java/com/brianmtully/flutter/plugins/googlemlvision/GoogleMlVisionHandler.java:32-47 | the eight routed method names are pairwise different |
| VisionHandler.RouteOf | android/src/main/java/com/brianmtully/flutter/plugins/googlemlvision/GoogleMlVisionHandler.java:31-48 | a name is routed to detection or to close for a detector exactly when it is that detector's detection or close name; every other name is unrouted |
| VisionHandler.BeforeHash | android/src/main/java/com/brianmtully/flutter/plugins/googlemlvision/GoogleMlVisionHandler.java:63 | the result is a prefix of the name without `#`, followed in the name by `#` unless it is the whole name |
| VisionHandler.KindOfPrefix | android/src/main/java/com/brianmtully/flutter/plugins/googlemlvision/GoogleMlVisionHandler.java:63-76 | a prefix selects a detector exactly when it is that detector's class prefix |
| VisionHandler.BeforeHashOfJoin | android/src/main/java/com/brianmtully/flutter/plugins/googlemlvision/GoogleMlVisionHandler.java:63 | the part before the first `#` is unaffected by what follows it |
| VisionHandler.DetectPrefixSelectsKind | android/src/main/java/com/brianmtully/flutter/plugins/googlemlvision/GoogleMlVisionHandler.java:63-76 | the prefix of each detection name creates the detector the name was routed for |
| VisionHandler.CreateClient | android/src/main/java/com/brianmtully/flutter/plugins/googlemlvision/GoogleMlVisionHandler.java:61-80 | the detector built matches the prefix; the labeler and the recognizer ignore the options, even null ones; barcode and face throw NullPointerException on null options and otherwise succeed exactly when their `parseOptions` does |
| VisionHandler.DetectionReply | android/src/main/java/com/brianmtully/flutter/plugins/googlemlvision/GoogleMlVisionHandler.java:82 | the detector that runs sends the one reply: a failed task gives an error with that detector's failure code and the message; a completed one gives success with the result transcoded by the detector's own transcoder |
| VisionHandler.BarcodeDetectionReply | android/src/main/java/com/brianmtully/flutter/plugins/googlemlvision/GMLKBarcodeDetector.java:33-230 | a barcode detector's success listener replies with the barcode list; its failure listener with `barcodeDetectorError` and the message |
| VisionHandler.FaceDetectionReply | android/src/main/java/com/brianmtully/flutter/plugins/googlemlvision/GMLKFaceDetector.java:34-87 | a face detector's success listener replies with the face list; its failure listener with `faceDetectorError` and the message |
| VisionHandler.LabelerDetectionReply | android/src/main/java/com/brianmtully/flutter/plugins/googlemlvision/GMLKImageLabeler.java:31-58 | an image labeler's success listener replies with the label list; its failure listener with `imageLabelerError` and the message |
| VisionHandler.TextDetectionReply | android/src/main/java/com/brianmtully/flutter/plugins/googlemlvision/GMLKTextRecognizer.java:32-92 | a text recognizer's success listener replies with the text map; its failure listener with `textRecognizerError` and the message |
| VisionHandler.CloseReply | android/src/main/java/com/brianmtully/flutter/plugins/googlemlvision/GoogleMlVisionHandler.java:94-99 | success with null exactly when `close()` did not throw; otherwise the `<class>IOError` code with the message |
| VisionHandler.Detector.HandleDetection | android/src/main/java/com/brianmtully/flutter/plugins/googlemlvision/Detector.java:12 | runs the transcoder of the detector's own client on the result its task delivers and replies as `DetectionReply` for the detector's kind |
| VisionHandler.Prepare | android/src/main/java/com/brianmtully/flutter/plugins/googlemlvision/GoogleMlVisionHandler.java:50-61 | an IOException from the image gives the `MLVisionDetectorIOError` reply; other early failures are thrown exceptions; otherwise the options map, the image and the unboxed handle are the ones read |
| VisionHandler.MlVisionHandler.GetDetector | android/src/main/java/com/brianmtully/flutter/plugins/googlemlvision/GoogleMlVisionHandler.java:177-180 | a handle that does not unbox throws; otherwise the result is the registered detector, or none exactly when the handle is free |
| VisionHandler.MlVisionHandler.AddDetector | android/src/main/java/com/brianmtully/flutter/plugins/googlemlvision/GoogleMlVisionHandler.java:169-175 | a taken handle throws IllegalArgumentException and leaves the registry; a free one gets the detector and nothing else changes |
| VisionHandler.MlVisionHandler.CloseDetector | android/src/main/java/com/brianmtully/flutter/plugins/googlemlvision/GoogleMlVisionHandler.java:85-104 | an unknown handle throws and leaves the registry; a known one is removed whether or not `close()` threw, and the reply is `CloseReply` for its class |
| VisionHandler.MlVisionHandler.HandleDetection | android/src/main/java/com/brianmtully/flutter/plugins/googlemlvision/GoogleMlVisionHandler.java:50-83 | early failures leave the registry; a registered detector is reused, its own kind and options used, not the call's; otherwise a fresh detector from the prefix and options is registered under the handle, or its constructor's exception is thrown and nothing is registered |
| VisionHandler.MlVisionHandler.OnMethodCall | android/src/main/java/com/brianmtully/flutter/plugins/googlemlvision/GoogleMlVisionHandler.java:31-48 | a detection name replies and registers exactly as `handleDetection` does on the call, a close name replies and removes exactly as `closeDetector` does, and unrouted names reply not-implemented and change nothing; hence a detection never drops or replaces a detector and adds at most the call's handle, with a fresh detector of the routed kind; a close never adds one and removes at most the call's handle |
| VisionHandler.ErrorCodesDistinct | android/src/main/java/com/brianmtully/flutter/plugins/googlemlvision/GoogleMlVisionHandler.java:58-98 | failure codes, close-error codes and the image IOException code are pairwise different, so a code names the detector and the failing step |

## Left out

- ML Kit's recognition itself is not modelled. The outcome of a task is the `Completion` parameter. Nothing ties it to the image handed over, including a null image from the bytes branch.
- Asynchrony is not modelled. The listeners run on ML Kit's threads; the model computes the one reply they send. Concurrent calls on the same handle are outside the model.
- `GoogleMlVisionPlugin` is not part of this model. It registers the channel and builds the handler.
- Logging (`Log.e` in the bytes branch) is not modelled.
- Exception messages are replaced by the `Reason` datatype. `getLocalizedMessage()` is a parameter (`JStr`).
- Float and double values are `real` and are only copied. Float-to-double widening is exact.
- FaceDetector.ParseOptions: keeps `minFaceSize` as the double; the `(float)` narrowing is not modelled.
- Geometry.BoundsFields: `width()` and `height()` are exact differences; 32-bit overflow of `right - left` is not modelled.
- The rotated bitmap's pixels are not modelled. `RotatedBitmap` records the path and the angle it is turned by.
- ImageIngestion.FromByteArray: ML Kit's own code is not visible. The model takes its documented checks: a null array, rotation and format. Checks on the array's length against width and height are not modelled.
- ImageIngestion.GetImageExifOrientation: a tag that is not a number is folded into "absent", as `getAttributeInt` returns the default for both.
- `call.arguments()` is taken to be a map. A call whose arguments are not a map is not modelled.
- A Dart integer arrives as an `Integer` when it fits in 32 bits and as a `Long` otherwise. `Doc.Int` stands for both and `InIntRange` tells them apart.
- BarcodeDetector.TranscodeBarcodes: requires that ML Kit fills in the payload matching the value type (`PayloadPresent`); the NullPointerException a missing payload would cause is not modelled.
- FaceDetector.GetContour: `face.getContour(type)` is modelled as the first contour of that type in `getAllContours()`.
- `split("#")` is modelled only for names with a non-empty part before `#`, which is all `handleDetection` sees.
- Java `assert` statements are no-ops at run time on Android and are modelled as such.
- VisionHandler.MlVisionHandler.HandleDetection: requires a detection name. In the source only `onMethodCall` calls it, and only for those names. With an unknown prefix a null detector would be registered.
