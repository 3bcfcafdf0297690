/**
 * `MlVisionHandler`: routes the method calls of the `plugins.flutter.brianmtully.com/google_ml_vision`
 * channel, keeps the detectors in a registry keyed by the handle the Dart
 * side chose, creates a detector on the first detection for a handle, and
 * removes it on `#close`.
 */
module VisionHandler {
  import opened Wrappers
  import opened Document
  import opened ImageIngestion
  import BarcodeDetector
  import FaceDetector
  import ImageLabeler
  import TextRecognizer

  /** The code of the reply when reading the image throws an IOException. */
  const IOErrorCode := "MLVisionDetectorIOError"

  datatype DetectorKind = BarcodeKind | FaceKind | LabelerKind | TextKind

  /** The part of a method name before `#`, which picks the detector class. */
  function KindName(kind: DetectorKind): string
  {
    match kind
    case BarcodeKind => "BarcodeDetector"
    case FaceKind => "FaceDetector"
    case LabelerKind => "ImageLabeler"
    case TextKind => "TextRecognizer"
  }

  function DetectMethod(kind: DetectorKind): string
  {
    KindName(kind) + (if kind == BarcodeKind then "#detectInImage" else "#processImage")
  }

  function CloseMethod(kind: DetectorKind): string
  {
    KindName(kind) + "#close"
  }

  /** The simple name of the Java class implementing each detector. */
  function ClassName(kind: DetectorKind): string
  {
    match kind
    case BarcodeKind => "GMLKBarcodeDetector"
    case FaceKind => "GMLKFaceDetector"
    case LabelerKind => "GMLKImageLabeler"
    case TextKind => "GMLKTextRecognizer"
  }

  /** `String.format("%sIOError", detector.getClass().getSimpleName())`. */
  function CloseErrorCode(kind: DetectorKind): string
  {
    ClassName(kind) + "IOError"
  }

  /** The code each detector's failure listener replies with. */
  function FailureCode(kind: DetectorKind): string
  {
    match kind
    case BarcodeKind => BarcodeDetector.FailureCode
    case FaceKind => FaceDetector.FailureCode
    case LabelerKind => ImageLabeler.FailureCode
    case TextKind => TextRecognizer.FailureCode
  }

  // ---------------------------------------------------------------------
  // Routing (`onMethodCall`)

  /** No two of the eight routed names coincide. */
  lemma NamesDistinct()
    ensures forall k1, k2 :: DetectMethod(k1) != CloseMethod(k2)
    ensures forall k1, k2 :: k1 != k2 ==> DetectMethod(k1) != DetectMethod(k2) && CloseMethod(k1) != CloseMethod(k2)
  {
    forall k1, k2
      ensures DetectMethod(k1) != CloseMethod(k2)
      ensures k1 != k2 ==> DetectMethod(k1) != DetectMethod(k2) && CloseMethod(k1) != CloseMethod(k2)
    {
      if k1 == k2 {
        assert |DetectMethod(k1)| != |CloseMethod(k2)|;
      } else {
        assert DetectMethod(k1)[0] != CloseMethod(k2)[0];
        assert DetectMethod(k1)[0] != DetectMethod(k2)[0];
        assert CloseMethod(k1)[0] != CloseMethod(k2)[0];
      }
    }
  }

  datatype Route = Detect(kind: DetectorKind) | CloseRoute(kind: DetectorKind) | Unrouted

  /** The switch of `onMethodCall`: four detection names, four close names, and nothing else. */
  function RouteOf(methodName: string): (r: Route)
    ensures forall k :: r == Detect(k) <==> methodName == DetectMethod(k)
    ensures forall k :: r == CloseRoute(k) <==> methodName == CloseMethod(k)
    ensures r == Unrouted <==> forall k :: methodName != DetectMethod(k) && methodName != CloseMethod(k)
  {
    NamesDistinct();
    if methodName == DetectMethod(BarcodeKind) then Detect(BarcodeKind)
    else if methodName == DetectMethod(FaceKind) then Detect(FaceKind)
    else if methodName == DetectMethod(LabelerKind) then Detect(LabelerKind)
    else if methodName == DetectMethod(TextKind) then Detect(TextKind)
    else if methodName == CloseMethod(BarcodeKind) then CloseRoute(BarcodeKind)
    else if methodName == CloseMethod(FaceKind) then CloseRoute(FaceKind)
    else if methodName == CloseMethod(LabelerKind) then CloseRoute(LabelerKind)
    else if methodName == CloseMethod(TextKind) then CloseRoute(TextKind)
    else Unrouted
  }

  /** `s.split("#")[0]` for a name with a non-empty part before its first `#`: that part. */
  function BeforeHash(s: string): (p: string)
    ensures p <= s && '#' !in p
    ensures |p| < |s| ==> s[|p|] == '#'
    decreases |s|
  {
    if |s| == 0 || s[0] == '#' then "" else [s[0]] + BeforeHash(s[1..])
  }

  /** The switch of `handleDetection` over the class prefix. */
  function KindOfPrefix(prefix: string): (r: Option<DetectorKind>)
    ensures forall k :: r == Some(k) <==> prefix == KindName(k)
  {
    if prefix == "BarcodeDetector" then Some(BarcodeKind)
    else if prefix == "FaceDetector" then Some(FaceKind)
    else if prefix == "ImageLabeler" then Some(LabelerKind)
    else if prefix == "TextRecognizer" then Some(TextKind)
    else None
  }

  /** Whatever follows the first `#` does not change the part before it. */
  lemma {:induction false} BeforeHashOfJoin(prefix: string, rest: string)
    requires '#' !in prefix
    ensures BeforeHash(prefix + "#" + rest) == prefix
    decreases |prefix|
  {
    var s := prefix + "#" + rest;
    if prefix != [] {
      assert s[0] == prefix[0] && prefix[0] in prefix;
      assert s[1..] == prefix[1..] + "#" + rest;
      BeforeHashOfJoin(prefix[1..], rest);
      assert [prefix[0]] + prefix[1..] == prefix;
    }
  }

  /** The prefix of each detection name selects the detector the name is routed for. */
  lemma DetectPrefixSelectsKind(kind: DetectorKind)
    ensures KindOfPrefix(BeforeHash(DetectMethod(kind))) == Some(kind)
  {
    var suffix := if kind == BarcodeKind then "detectInImage" else "processImage";
    assert DetectMethod(kind) == KindName(kind) + "#" + suffix;
    BeforeHashOfJoin(KindName(kind), suffix);
  }

  // ---------------------------------------------------------------------
  // Detectors

  /** The ML Kit client a detector was built with: its constructor's reading of the options. */
  datatype ClientConfig =
    | BarcodeClient(barcodeFormats: int)
    | FaceClient(faceOptions: FaceDetector.FaceDetectorOptions)
    | LabelerClient   // always `ImageLabelerOptions.DEFAULT_OPTIONS`
    | TextClient      // always `TextRecognition.getClient()`

  function KindOfClient(client: ClientConfig): DetectorKind
  {
    match client
    case BarcodeClient(_) => BarcodeKind
    case FaceClient(_) => FaceKind
    case LabelerClient => LabelerKind
    case TextClient => TextKind
  }

  /**
   * The four detector constructors: barcode and face detectors read the
   * options (a null map is dereferenced), the labeler and the recognizer
   * ignore them.
   */
  function CreateClient(kind: DetectorKind, options: Option<map<string, Doc>>): (r: Result<ClientConfig, JavaException>)
    ensures r.Ok? ==> KindOfClient(r.value) == kind
    ensures kind == LabelerKind ==> r == Ok(LabelerClient)
    ensures kind == TextKind ==> r == Ok(TextClient)
    ensures (kind == BarcodeKind || kind == FaceKind) && options.None? ==> r == Err(NullPointerException)
    ensures kind == BarcodeKind && options.Some? ==>
      var parsed := BarcodeDetector.ParseOptions(options.value);
      && (r.Ok? <==> parsed.Ok?)
      && (r.Ok? ==> r.value == BarcodeClient(parsed.value))
    ensures kind == FaceKind && options.Some? ==>
      var parsed := FaceDetector.ParseOptions(options.value);
      && (r.Ok? <==> parsed.Ok?)
      && (r.Ok? ==> r.value == FaceClient(parsed.value))
  {
    match kind
    case BarcodeKind =>
      if options.None? then Err(NullPointerException)
      else
        var formats :- BarcodeDetector.ParseOptions(options.value);
        Ok(BarcodeClient(formats))
    case FaceKind =>
      if options.None? then Err(NullPointerException)
      else
        var faceOptions :- FaceDetector.ParseOptions(options.value);
        Ok(FaceClient(faceOptions))
    case LabelerKind => Ok(LabelerClient)
    case TextKind => Ok(TextClient)
  }

  /** What ML Kit's `process` task delivered to the success listener. */
  datatype NativeResult =
    | Barcodes(barcodes: seq<BarcodeDetector.Barcode>)
    | Faces(faces: seq<FaceDetector.Face>)
    | Labels(labels: seq<ImageLabeler.ImageLabel>)
    | Recognized(text: TextRecognizer.Text)

  /** How the task completed: success with a result, or failure with the exception's message. */
  datatype Completion = Completed(result: NativeResult) | Failed(message: JStr)

  /** ML Kit fills in the payload that matches each barcode's value type. */
  predicate WellFormedCompletion(completion: Completion)
  {
    completion.Completed? && completion.result.Barcodes? ==>
      forall i :: 0 <= i < |completion.result.barcodes| ==>
        BarcodeDetector.PayloadPresent(completion.result.barcodes[i])
  }

  /** The detector whose client can deliver this result. */
  function ResultKind(result: NativeResult): DetectorKind
  {
    match result
    case Barcodes(_) => BarcodeKind
    case Faces(_) => FaceKind
    case Labels(_) => LabelerKind
    case Recognized(_) => TextKind
  }

  /**
   * A detector's task completes with its own client's result type: each
   * success listener is typed by the client it was registered on.
   */
  predicate CompletionFits(kind: DetectorKind, completion: Completion)
  {
    completion.Completed? ==> ResultKind(completion.result) == kind
  }

  function ResultDoc(result: NativeResult): Doc
    requires WellFormedCompletion(Completed(result))
  {
    match result
    case Barcodes(bs) => BarcodeDetector.BarcodeListDoc(bs)
    case Faces(fs) => FaceDetector.FaceListDoc(fs)
    case Labels(ls) => ImageLabeler.LabelListDoc(ls)
    case Recognized(t) => TextRecognizer.TextDoc(t)
  }

  /**
   * The one reply a detection ends with: the failure listener of the
   * detector's kind, or its success listener transcoding its own result.
   */
  function DetectionReply(kind: DetectorKind, completion: Completion): (reply: Reply)
    requires WellFormedCompletion(completion)
    requires CompletionFits(kind, completion)
    ensures reply.Error? <==> completion.Failed?
    ensures reply.Error? ==> reply.code == FailureCode(kind) && reply.message == completion.message
    ensures reply.Success? <==> completion.Completed?
    ensures completion.Completed? ==> reply == Success(ResultDoc(completion.result))
  {
    match completion
    case Failed(message) => Error(FailureCode(kind), message)
    case Completed(result) =>
      match kind
      case BarcodeKind => Success(BarcodeDetector.BarcodeListDoc(result.barcodes))
      case FaceKind => Success(FaceDetector.FaceListDoc(result.faces))
      case LabelerKind => Success(ImageLabeler.LabelListDoc(result.labels))
      case TextKind => Success(TextRecognizer.TextDoc(result.text))
  }

  /** What closing a detector replies, given whether its `close()` threw an IOException. */
  function CloseReply(kind: DetectorKind, closeFailure: Option<JStr>): (reply: Reply)
    ensures closeFailure.None? <==> reply == Success(Null)
    ensures closeFailure.Some? ==> reply == Error(CloseErrorCode(kind), closeFailure.value)
  {
    match closeFailure
    case None => Success(Null)
    case Some(message) => Error(CloseErrorCode(kind), message)
  }

  /** A `Detector`: one ML Kit client, fixed when the object is built. */
  class Detector {
    const client: ClientConfig

    function Kind(): DetectorKind
    {
      KindOfClient(client)
    }

    constructor (client: ClientConfig)
      ensures this.client == client
    {
      this.client := client;
    }

    /** `handleDetection`: runs the client on the image and transcodes what the task delivers. */
    method HandleDetection(image: Option<InputImage>, completion: Completion) returns (reply: Reply)
      requires WellFormedCompletion(completion)
      requires CompletionFits(Kind(), completion)
      ensures reply == DetectionReply(Kind(), completion)
    {
      if completion.Failed? {
        return Error(FailureCode(Kind()), completion.message);
      }
      var result := completion.result;
      var document: Doc;
      match client {
        case BarcodeClient(_) =>
          document := BarcodeDetector.TranscodeBarcodes(result.barcodes);
        case FaceClient(_) =>
          document := FaceDetector.TranscodeFaces(result.faces);
        case LabelerClient =>
          document := ImageLabeler.TranscodeLabels(result.labels);
        case TextClient =>
          document := TextRecognizer.TranscodeText(result.text);
      }
      reply := Success(document);
    }
  }

  // ---------------------------------------------------------------------
  // The handler

  /** A Flutter `MethodCall`: the method name and the argument map. */
  datatype MethodCall = MethodCall(methodName: string, arguments: map<string, Doc>)

  /** The handle a call names, when it unboxes to one. */
  function HandleOf(arguments: map<string, Doc>): set<int>
  {
    match UnboxInteger(Get(arguments, "handle"))
    case Ok(handle) => {handle}
    case Err(_) => {}
  }

  /** What `handleDetection` has read before it looks at the registry. */
  datatype Prepared = Prepared(options: Option<map<string, Doc>>, image: Option<InputImage>, handle: int)

  /**
   * The reads of `handleDetection`, in order: the options map, the image,
   * then the handle. A failure among them is the reply, before any detector
   * is looked up or created.
   */
  function Prepare(arguments: map<string, Doc>, file: FileProbe): (r: Result<Prepared, Reply>)
    ensures r.Err? ==> r.error.Threw? || (r.error.Error? && r.error.code == IOErrorCode)
    ensures r.Ok? ==> CastMap(Get(arguments, "options")) == Ok(r.value.options)
    ensures r.Ok? ==> UnboxInteger(Get(arguments, "handle")) == Ok(r.value.handle)
    ensures r.Ok? ==> DataToVisionImage(arguments, file) == Ok(r.value.image)
    ensures DataToVisionImage(arguments, file).Err? && DataToVisionImage(arguments, file).error.IOFailure?
              && CastMap(Get(arguments, "options")).Ok? ==>
      r == Err(Error(IOErrorCode, DataToVisionImage(arguments, file).error.message))
  {
    match CastMap(Get(arguments, "options"))
    case Err(e) => Err(Threw(e))
    case Ok(options) =>
      match DataToVisionImage(arguments, file)
      case Err(IOFailure(message)) => Err(Error(IOErrorCode, message))
      case Err(Raised(e)) => Err(Threw(e))
      case Ok(image) =>
        match UnboxInteger(Get(arguments, "handle"))
        case Err(e) => Err(Threw(e))
        case Ok(handle) => Ok(Prepared(options, image, handle))
  }

  class MlVisionHandler {
    /** The registry: handle to live detector. */
    var detectors: map<int, Detector>

    /**
     * The kind of the detector a detection call runs: the registered one
     * under the call's handle, else the one its class prefix creates.
     */
    function RunningKind(call: MethodCall): DetectorKind
      reads this
      requires RouteOf(call.methodName).Detect?
    {
      var handle := UnboxInteger(Get(call.arguments, "handle"));
      if handle.Ok? && handle.value in detectors then detectors[handle.value].Kind()
      else RouteOf(call.methodName).kind
    }

    constructor ()
      ensures detectors == map[]
    {
      detectors := map[];
    }

    /** `getDetector`: the detector under the call's handle; the handle is unboxed first. */
    method GetDetector(arguments: map<string, Doc>) returns (r: Result<Option<Detector>, JavaException>)
      ensures var handle := UnboxInteger(Get(arguments, "handle"));
        && (r.Err? <==> handle.Err?)
        && (r.Err? ==> r.error == handle.error)
        && (r.Ok? ==> (r.value.Some? <==> handle.value in detectors))
        && (r.Ok? && r.value.Some? ==> r.value.value == detectors[handle.value])
    {
      var handle := UnboxInteger(Get(arguments, "handle"));
      if handle.Err? {
        return Err(handle.error);
      }
      if handle.value in detectors {
        r := Ok(Some(detectors[handle.value]));
      } else {
        r := Ok(None);
      }
    }

    /** `addDetector`: refuses a handle that is taken, otherwise registers the detector under it. */
    method AddDetector(handle: int, detector: Detector) returns (thrown: Option<JavaException>)
      modifies this
      ensures handle in old(detectors) ==>
        thrown == Some(IllegalArgumentException(HandleAlreadyExists(handle))) && detectors == old(detectors)
      ensures handle !in old(detectors) ==> thrown.None? && detectors == old(detectors)[handle := detector]
    {
      if handle in detectors {
        return Some(IllegalArgumentException(HandleAlreadyExists(handle)));
      }
      detectors := detectors[handle := detector];
      thrown := None;
    }

    /**
     * `closeDetector`: an unknown handle throws; a known one is closed and
     * removed whether or not its `close()` threw.
     */
    method CloseDetector(arguments: map<string, Doc>, closeFailure: Option<JStr>) returns (reply: Reply)
      modifies this
      ensures var handle := UnboxInteger(Get(arguments, "handle"));
        && (handle.Err? ==> reply == Threw(handle.error) && detectors == old(detectors))
        && (handle.Ok? && handle.value !in old(detectors) ==>
              reply == Threw(IllegalArgumentException(HandleDoesNotExist(handle.value))) && detectors == old(detectors))
        && (handle.Ok? && handle.value in old(detectors) ==>
              reply == CloseReply(old(detectors)[handle.value].Kind(), closeFailure)
              && detectors == old(detectors) - {handle.value})
    {
      var found := GetDetector(arguments);
      if found.Err? {
        return Threw(found.error);
      }
      var handle := UnboxInteger(Get(arguments, "handle")).value;
      if found.value.None? {
        return Threw(IllegalArgumentException(HandleDoesNotExist(handle)));
      }
      var detector := found.value.value;
      if closeFailure.None? {
        reply := Success(Null);
      } else {
        reply := Error(CloseErrorCode(detector.Kind()), closeFailure.value);
      }
      detectors := detectors - {handle};
    }

    /**
     * `handleDetection`: reads the options and the image, then reuses the
     * detector under the handle (whatever the call's options and class
     * prefix) or builds one from the prefix and the options and registers
     * it, and runs it.
     */
    method HandleDetection(call: MethodCall, file: FileProbe, completion: Completion) returns (reply: Reply)
      requires RouteOf(call.methodName).Detect?
      requires WellFormedCompletion(completion)
      requires CompletionFits(RunningKind(call), completion)
      modifies this
      ensures var p := Prepare(call.arguments, file);
        && (p.Err? ==> reply == p.error && detectors == old(detectors))
        && (p.Ok? && p.value.handle in old(detectors) ==>
              detectors == old(detectors)
              && reply == DetectionReply(old(detectors)[p.value.handle].Kind(), completion))
        && (p.Ok? && p.value.handle !in old(detectors) ==>
              var created := CreateClient(RouteOf(call.methodName).kind, p.value.options);
              && (created.Err? ==> reply == Threw(created.error) && detectors == old(detectors))
              && (created.Ok? ==>
                    && p.value.handle in detectors
                    && fresh(detectors[p.value.handle])
                    && detectors[p.value.handle].client == created.value
                    && detectors == old(detectors)[p.value.handle := detectors[p.value.handle]]
                    && reply == DetectionReply(RouteOf(call.methodName).kind, completion)))
    {
      var options := CastMap(Get(call.arguments, "options"));
      if options.Err? {
        return Threw(options.error);
      }
      var image := DataToVisionImage(call.arguments, file);
      if image.Err? {
        match image.error
        case IOFailure(message) =>
          return Error(IOErrorCode, message);
        case Raised(e) =>
          return Threw(e);
      }
      var found := GetDetector(call.arguments);
      if found.Err? {
        return Threw(found.error);
      }
      var detector: Detector;
      if found.value.Some? {
        detector := found.value.value;
      } else {
        var kind := RouteOf(call.methodName).kind;
        DetectPrefixSelectsKind(kind);
        var prefixKind := KindOfPrefix(BeforeHash(call.methodName)).value;
        var client := CreateClient(prefixKind, options.value);
        if client.Err? {
          return Threw(client.error);
        }
        detector := new Detector(client.value);
        var handle := UnboxInteger(Get(call.arguments, "handle")).value;
        var thrown := AddDetector(handle, detector);
        assert thrown.None?;
      }
      reply := detector.HandleDetection(image.value, completion);
    }

    /**
     * `onMethodCall`: detection names go to `handleDetection`, close names
     * to `closeDetector`, anything else is not implemented. A detection
     * never drops or replaces a registered detector; a close never adds one.
     */
    method OnMethodCall(call: MethodCall, file: FileProbe, completion: Completion, closeFailure: Option<JStr>)
      returns (reply: Reply)
      requires WellFormedCompletion(completion)
      requires RouteOf(call.methodName).Detect? ==> CompletionFits(RunningKind(call), completion)
      modifies this
      ensures RouteOf(call.methodName) == Unrouted ==> reply == NotImplemented && detectors == old(detectors)
      // A detection name runs `handleDetection` on the call.
      ensures RouteOf(call.methodName).Detect? ==>
        var p := Prepare(call.arguments, file);
        && (p.Err? ==> reply == p.error && detectors == old(detectors))
        && (p.Ok? && p.value.handle in old(detectors) ==>
              detectors == old(detectors)
              && reply == DetectionReply(old(detectors)[p.value.handle].Kind(), completion))
        && (p.Ok? && p.value.handle !in old(detectors) ==>
              var created := CreateClient(RouteOf(call.methodName).kind, p.value.options);
              && (created.Err? ==> reply == Threw(created.error) && detectors == old(detectors))
              && (created.Ok? ==>
                    && p.value.handle in detectors
                    && fresh(detectors[p.value.handle])
                    && detectors[p.value.handle].client == created.value
                    && detectors == old(detectors)[p.value.handle := detectors[p.value.handle]]
                    && reply == DetectionReply(RouteOf(call.methodName).kind, completion)))
      // A close name runs `closeDetector` on the call.
      ensures RouteOf(call.methodName).CloseRoute? ==>
        var handle := UnboxInteger(Get(call.arguments, "handle"));
        && (handle.Err? ==> reply == Threw(handle.error) && detectors == old(detectors))
        && (handle.Ok? && handle.value !in old(detectors) ==>
              reply == Threw(IllegalArgumentException(HandleDoesNotExist(handle.value))) && detectors == old(detectors))
        && (handle.Ok? && handle.value in old(detectors) ==>
              reply == CloseReply(old(detectors)[handle.value].Kind(), closeFailure)
              && detectors == old(detectors) - {handle.value})
      ensures RouteOf(call.methodName).Detect? ==>
        && (forall h :: h in old(detectors) ==> h in detectors && detectors[h] == old(detectors)[h])
        && (forall h :: h in detectors && h !in old(detectors) ==>
              fresh(detectors[h]) && detectors[h].Kind() == RouteOf(call.methodName).kind)
        && detectors.Keys <= old(detectors).Keys + HandleOf(call.arguments)
      ensures RouteOf(call.methodName).CloseRoute? ==>
        && detectors.Keys <= old(detectors).Keys
        && (forall h :: h in detectors ==> detectors[h] == old(detectors)[h])
        && old(detectors).Keys - detectors.Keys <= HandleOf(call.arguments)
    {
      match RouteOf(call.methodName)
      case Detect(_) =>
        reply := HandleDetection(call, file, completion);
      case CloseRoute(_) =>
        reply := CloseDetector(call.arguments, closeFailure);
      case Unrouted =>
        reply := NotImplemented;
    }
  }

  // ---------------------------------------------------------------------
  // Properties

  /** A barcode detector replies with its barcode list, or `barcodeDetectorError` and the message. */
  lemma BarcodeDetectionReply(completion: Completion)
    requires WellFormedCompletion(completion) && CompletionFits(BarcodeKind, completion)
    ensures completion.Failed? ==>
      DetectionReply(BarcodeKind, completion) == Error("barcodeDetectorError", completion.message)
    ensures completion.Completed? ==>
      completion.result.Barcodes? && DetectionReply(BarcodeKind, completion) == Success(BarcodeDetector.BarcodeListDoc(completion.result.barcodes))
  {
  }

  /** A face detector replies with its face list, or `faceDetectorError` and the message. */
  lemma FaceDetectionReply(completion: Completion)
    requires WellFormedCompletion(completion) && CompletionFits(FaceKind, completion)
    ensures completion.Failed? ==>
      DetectionReply(FaceKind, completion) == Error("faceDetectorError", completion.message)
    ensures completion.Completed? ==>
      completion.result.Faces? && DetectionReply(FaceKind, completion) == Success(FaceDetector.FaceListDoc(completion.result.faces))
  {
  }

  /** An image labeler replies with its label list, or `imageLabelerError` and the message. */
  lemma LabelerDetectionReply(completion: Completion)
    requires WellFormedCompletion(completion) && CompletionFits(LabelerKind, completion)
    ensures completion.Failed? ==>
      DetectionReply(LabelerKind, completion) == Error("imageLabelerError", completion.message)
    ensures completion.Completed? ==>
      completion.result.Labels? && DetectionReply(LabelerKind, completion) == Success(ImageLabeler.LabelListDoc(completion.result.labels))
  {
  }

  /** A text recognizer replies with its text map, or `textRecognizerError` and the message. */
  lemma TextDetectionReply(completion: Completion)
    requires WellFormedCompletion(completion) && CompletionFits(TextKind, completion)
    ensures completion.Failed? ==>
      DetectionReply(TextKind, completion) == Error("textRecognizerError", completion.message)
    ensures completion.Completed? ==>
      completion.result.Recognized? && DetectionReply(TextKind, completion) == Success(TextRecognizer.TextDoc(completion.result.text))
  {
  }

  /** The error codes of the bridge tell the failing detector and the failing step apart. */
  lemma ErrorCodesDistinct(k1: DetectorKind, k2: DetectorKind)
    ensures k1 != k2 ==> FailureCode(k1) != FailureCode(k2) && CloseErrorCode(k1) != CloseErrorCode(k2)
    ensures FailureCode(k1) != CloseErrorCode(k2) && FailureCode(k1) != IOErrorCode && CloseErrorCode(k1) != IOErrorCode
  {
    assert FailureCode(k1)[0] != CloseErrorCode(k2)[0] && FailureCode(k1)[0] != IOErrorCode[0];
    assert CloseErrorCode(k1)[0] != IOErrorCode[0];
    if k1 != k2 {
      assert FailureCode(k1)[0] != FailureCode(k2)[0];
      assert CloseErrorCode(k1)[4] != CloseErrorCode(k2)[4];
    }
  }

}
