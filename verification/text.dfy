/**
 * `GMLKTextRecognizer`: the recognized text turned into a document with
 * `text` and `blocks`; every block, line and element carries the entries
 * `addData` writes, and blocks nest `lines`, lines nest `elements`.
 */
module TextRecognizer {
  import opened Wrappers
  import opened Document
  import opened Geometry

  /** The error code of a failed recognition. */
  const FailureCode := "textRecognizerError"

  // ---------------------------------------------------------------------
  // The native result (`com.google.mlkit.vision.text.Text`)

  datatype Element = Element(
    boundingBox: Option<Rect>, cornerPoints: Option<seq<Point>>, recognizedLanguage: JStr, text: string)

  datatype Line = Line(
    boundingBox: Option<Rect>, cornerPoints: Option<seq<Point>>, recognizedLanguage: JStr, text: string,
    elements: seq<Element>)

  datatype TextBlock = TextBlock(
    boundingBox: Option<Rect>, cornerPoints: Option<seq<Point>>, recognizedLanguage: JStr, text: string,
    lines: seq<Line>)

  datatype Text = Text(text: string, textBlocks: seq<TextBlock>)

  // ---------------------------------------------------------------------
  // The document shape

  const DataKeys: set<string> := {"points", "recognizedLanguages", "text"}

  /** The one-element language list: `[{languageCode: language}]`, the language possibly null. */
  function LanguagesDoc(language: JStr): Doc
  {
    List([Obj(map["languageCode" := StrDoc(language)])])
  }

  /** The entries `addData` writes for one block, line or element. */
  function DataFields(box: Option<Rect>, corners: Option<seq<Point>>, language: JStr, text: string): (m: map<string, Doc>)
    ensures DataKeys <= m.Keys
    ensures m["points"] == CornerPointsDoc(corners)
    ensures m["recognizedLanguages"] == LanguagesDoc(language)
    ensures m["text"] == Str(text)
  {
    var m := PutBounds(map[], box);
    m["points" := CornerPointsDoc(corners)]["recognizedLanguages" := LanguagesDoc(language)]["text" := Str(text)]
  }

  /** The bounding-box entries are written exactly when the box is not null, and nothing else is. */
  lemma DataBoundsPresence(box: Option<Rect>, corners: Option<seq<Point>>, language: JStr, text: string)
    ensures var m := DataFields(box, corners, language, text);
      && (forall k :: k in BoundsKeys ==> (k in m <==> box.Some?))
      && (box.Some? ==> forall k :: k in BoundsKeys ==> m[k] == BoundsFields(box.value)[k])
      && m.Keys == (if box.Some? then BoundsKeys else {}) + DataKeys
  {
    assert BoundsKeys !! DataKeys;
  }

  function ElementDoc(e: Element): Doc
  {
    Obj(DataFields(e.boundingBox, e.cornerPoints, e.recognizedLanguage, e.text))
  }

  function LineDoc(l: Line): Doc
  {
    var elements := seq(|l.elements|, i requires 0 <= i < |l.elements| => ElementDoc(l.elements[i]));
    Obj(DataFields(l.boundingBox, l.cornerPoints, l.recognizedLanguage, l.text)["elements" := List(elements)])
  }

  function BlockDoc(b: TextBlock): Doc
  {
    var lines := seq(|b.lines|, i requires 0 <= i < |b.lines| => LineDoc(b.lines[i]));
    Obj(DataFields(b.boundingBox, b.cornerPoints, b.recognizedLanguage, b.text)["lines" := List(lines)])
  }

  /** The success document. */
  function TextDoc(t: Text): Doc
  {
    var blocks := seq(|t.textBlocks|, i requires 0 <= i < |t.textBlocks| => BlockDoc(t.textBlocks[i]));
    Obj(map["text" := Str(t.text)]["blocks" := List(blocks)])
  }

  // ---------------------------------------------------------------------
  // The transcoding as the listener runs it

  /**
   * `addData`: adds the box entries (when the box is not null), `points`,
   * `recognizedLanguages` and `text` to the map it is given, overwriting
   * those keys and keeping every other entry.
   */
  method AddData(addTo: map<string, Doc>, boundingBox: Option<Rect>, cornerPoints: Option<seq<Point>>,
                 language: JStr, text: string)
    returns (filled: map<string, Doc>)
    ensures filled == addTo + DataFields(boundingBox, cornerPoints, language, text)
  {
    filled := addTo;
    if boundingBox.Some? {
      var box := boundingBox.value;
      filled := filled["left" := Double(box.left as real)];
      filled := filled["top" := Double(box.top as real)];
      filled := filled["width" := Double(box.Width() as real)];
      filled := filled["height" := Double(box.Height() as real)];
    }
    var points := CornerPointList(cornerPoints);
    filled := filled["points" := points];
    var languageData := map["languageCode" := StrDoc(language)];
    filled := filled["recognizedLanguages" := List([Obj(languageData)])];
    filled := filled["text" := Str(text)];
  }

  /** The innermost loop: one map per element of the line. */
  method TranscodeLine(line: Line) returns (lineData: map<string, Doc>)
    ensures Obj(lineData) == LineDoc(line)
  {
    lineData := AddData(map[], line.boundingBox, line.cornerPoints, line.recognizedLanguage, line.text);
    var allElementData: seq<Doc> := [];
    var i := 0;
    while i < |line.elements|
      invariant 0 <= i <= |line.elements| && |allElementData| == i
      invariant forall j :: 0 <= j < i ==> allElementData[j] == ElementDoc(line.elements[j])
    {
      var e := line.elements[i];
      var elementData := AddData(map[], e.boundingBox, e.cornerPoints, e.recognizedLanguage, e.text);
      assert map[] + DataFields(e.boundingBox, e.cornerPoints, e.recognizedLanguage, e.text)
          == DataFields(e.boundingBox, e.cornerPoints, e.recognizedLanguage, e.text);
      allElementData := allElementData + [Obj(elementData)];
      i := i + 1;
    }
    assert map[] + DataFields(line.boundingBox, line.cornerPoints, line.recognizedLanguage, line.text)
        == DataFields(line.boundingBox, line.cornerPoints, line.recognizedLanguage, line.text);
    assert allElementData == seq(|line.elements|, j requires 0 <= j < |line.elements| => ElementDoc(line.elements[j]));
    lineData := lineData["elements" := List(allElementData)];
  }

  /** The middle loop: one map per line of the block. */
  method TranscodeBlock(block: TextBlock) returns (blockData: map<string, Doc>)
    ensures Obj(blockData) == BlockDoc(block)
  {
    blockData := AddData(map[], block.boundingBox, block.cornerPoints, block.recognizedLanguage, block.text);
    var allLineData: seq<Doc> := [];
    var i := 0;
    while i < |block.lines|
      invariant 0 <= i <= |block.lines| && |allLineData| == i
      invariant forall j :: 0 <= j < i ==> allLineData[j] == LineDoc(block.lines[j])
    {
      var lineData := TranscodeLine(block.lines[i]);
      allLineData := allLineData + [Obj(lineData)];
      i := i + 1;
    }
    assert map[] + DataFields(block.boundingBox, block.cornerPoints, block.recognizedLanguage, block.text)
        == DataFields(block.boundingBox, block.cornerPoints, block.recognizedLanguage, block.text);
    assert allLineData == seq(|block.lines|, j requires 0 <= j < |block.lines| => LineDoc(block.lines[j]));
    blockData := blockData["lines" := List(allLineData)];
  }

  /** `onSuccess`: `text`, then one map per block, in order. */
  method TranscodeText(googleVisionText: Text) returns (visionTextData: Doc)
    ensures visionTextData == TextDoc(googleVisionText)
  {
    var data := map["text" := Str(googleVisionText.text)];
    var allBlockData: seq<Doc> := [];
    var i := 0;
    while i < |googleVisionText.textBlocks|
      invariant 0 <= i <= |googleVisionText.textBlocks| && |allBlockData| == i
      invariant forall j :: 0 <= j < i ==> allBlockData[j] == BlockDoc(googleVisionText.textBlocks[j])
    {
      var blockData := TranscodeBlock(googleVisionText.textBlocks[i]);
      allBlockData := allBlockData + [Obj(blockData)];
      i := i + 1;
    }
    assert allBlockData == seq(|googleVisionText.textBlocks|,
      j requires 0 <= j < |googleVisionText.textBlocks| => BlockDoc(googleVisionText.textBlocks[j]));
    data := data["blocks" := List(allBlockData)];
    visionTextData := Obj(data);
  }

  // ---------------------------------------------------------------------
  // Properties

  /**
   * The document has exactly `text` and `blocks`; there are as many block
   * maps as blocks, as many line maps in each block as it has lines, and as
   * many element maps in each line as it has elements, all in order.
   */
  lemma TextStructure(t: Text)
    ensures var d := TextDoc(t);
      && d.fields.Keys == {"text", "blocks"}
      && d.fields["text"] == Str(t.text)
      && d.fields["blocks"].List? && |d.fields["blocks"].items| == |t.textBlocks|
      && forall i :: 0 <= i < |t.textBlocks| ==>
           var block := d.fields["blocks"].items[i];
           && block == BlockDoc(t.textBlocks[i])
           && block.fields["lines"].List? && |block.fields["lines"].items| == |t.textBlocks[i].lines|
           && forall j :: 0 <= j < |t.textBlocks[i].lines| ==>
                var line := block.fields["lines"].items[j];
                && line == LineDoc(t.textBlocks[i].lines[j])
                && line.fields["elements"].List?
                && |line.fields["elements"].items| == |t.textBlocks[i].lines[j].elements|
  {
  }

  /** `text` is set, to the native text, on every block, line and element. */
  lemma TextAtEveryLevel(b: TextBlock, j: nat, k: nat)
    requires j < |b.lines| && k < |b.lines[j].elements|
    ensures var block := BlockDoc(b).fields;
      var line := block["lines"].items[j].fields;
      var element := line["elements"].items[k].fields;
      && block["text"] == Str(b.text)
      && line["text"] == Str(b.lines[j].text)
      && element["text"] == Str(b.lines[j].elements[k].text)
  {
  }

  /** `points` and `recognizedLanguages` are present on every element, whatever is null natively. */
  lemma ElementAlwaysHasPointsAndLanguage(e: Element)
    ensures var m := ElementDoc(e).fields;
      && m["points"].List?
      && (e.cornerPoints.None? ==> m["points"].items == [])
      && m["recognizedLanguages"] == List([Obj(map["languageCode" := StrDoc(e.recognizedLanguage)])])
  {
  }
}
