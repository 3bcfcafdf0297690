/**
 * `GMLKImageLabeler`: one map per label with `confidence`, `entityId` (the
 * label's index written in decimal, as `String.valueOf` writes an `int`)
 * and `text`. The labeler is always built with the default options.
 */
module ImageLabeler {
  import opened Wrappers
  import opened Document

  /** The error code of a failed labelling. */
  const FailureCode := "imageLabelerError"

  /** A native `ImageLabel`; the single-precision confidence is widened to a double unchanged. */
  datatype ImageLabel = ImageLabel(text: string, confidence: real, index: int)

  // ---------------------------------------------------------------------
  // Decimal notation of an int, and reading it back

  function DigitChar(d: nat): (c: char)
    requires d < 10
    ensures '0' <= c <= '9' && (c as int) - ('0' as int) == d
  {
    (('0' as int) + d) as char
  }

  /** The digits of `n`, most significant first, without leading zeros. */
  function Digits(n: nat): (s: string)
    ensures 1 <= |s| && forall i :: 0 <= i < |s| ==> '0' <= s[i] <= '9'
    ensures |s| > 1 ==> s[0] != '0'
    decreases n
  {
    if n < 10 then [DigitChar(n)] else Digits(n / 10) + [DigitChar(n % 10)]
  }

  /** `String.valueOf(n)`: a minus sign for negative numbers, then the digits. */
  function DecimalString(n: int): (s: string)
    ensures 1 <= |s|
    ensures s[0] == '-' <==> n < 0
  {
    if n < 0 then "-" + Digits(-n) else Digits(n)
  }

  /** Reads a non-empty run of decimal digits. */
  function ParseDigits(s: string): (r: Option<nat>)
    ensures r.Some? ==> 1 <= |s|
    decreases |s|
  {
    if |s| == 0 || !('0' <= s[|s| - 1] <= '9') then None
    else
      var last := (s[|s| - 1] as int) - ('0' as int);
      if |s| == 1 then Some(last)
      else match ParseDigits(s[..|s| - 1])
        case None => None
        case Some(prefix) => Some(prefix * 10 + last)
  }

  /** Reads an optionally negative decimal number, the inverse of `DecimalString`. */
  function ParseDecimal(s: string): Option<int>
  {
    if 0 < |s| && s[0] == '-' then
      match ParseDigits(s[1..])
        case None => None
        case Some(n) => Some(-(n as int))
    else match ParseDigits(s)
      case None => None
      case Some(n) => Some(n)
  }

  lemma {:induction false} DigitsRoundTrip(n: nat)
    ensures ParseDigits(Digits(n)) == Some(n)
    decreases n
  {
    if n >= 10 {
      var s := Digits(n);
      assert s[..|s| - 1] == Digits(n / 10);
      DigitsRoundTrip(n / 10);
    }
  }

  /** Reading an `entityId` back gives the label's index. */
  lemma DecimalRoundTrip(n: int)
    ensures ParseDecimal(DecimalString(n)) == Some(n)
  {
    if n < 0 {
      NegativeRoundTrip(-n);
    } else {
      NonNegativeRoundTrip(n);
    }
  }

  lemma NegativeRoundTrip(m: nat)
    requires 0 < m
    ensures ParseDecimal("-" + Digits(m)) == Some(-(m as int))
  {
    var s := "-" + Digits(m);
    assert s[1..] == Digits(m);
    DigitsRoundTrip(m);
  }

  lemma NonNegativeRoundTrip(n: nat)
    ensures ParseDecimal(Digits(n)) == Some(n)
  {
    DigitsRoundTrip(n);
  }

  /** Labels with different indices get different `entityId`s. */
  lemma DecimalInjective(a: int, b: int)
    ensures DecimalString(a) == DecimalString(b) ==> a == b
  {
    DecimalRoundTrip(a);
    DecimalRoundTrip(b);
  }

  // ---------------------------------------------------------------------
  // The document shape

  function LabelFields(imageLabel: ImageLabel): (m: map<string, Doc>)
    ensures m.Keys == {"confidence", "entityId", "text"}
  {
    map["confidence" := Double(imageLabel.confidence), "entityId" := Str(DecimalString(imageLabel.index)),
        "text" := Str(imageLabel.text)]
  }

  /** The success document: one map per label, in order. */
  function LabelListDoc(labels: seq<ImageLabel>): Doc
  {
    List(seq(|labels|, i requires 0 <= i < |labels| => Obj(LabelFields(labels[i]))))
  }

  /** `onSuccess`: the loop over the native labels. */
  method TranscodeLabels(visionLabels: seq<ImageLabel>) returns (labels: Doc)
    ensures labels == LabelListDoc(visionLabels)
  {
    var items: seq<Doc> := [];
    var i := 0;
    while i < |visionLabels|
      invariant 0 <= i <= |visionLabels| && |items| == i
      invariant forall j :: 0 <= j < i ==> items[j] == Obj(LabelFields(visionLabels[j]))
    {
      var imageLabel := visionLabels[i];
      var labelData := map[];
      labelData := labelData["confidence" := Double(imageLabel.confidence)];
      labelData := labelData["entityId" := Str(DecimalString(imageLabel.index))];
      labelData := labelData["text" := Str(imageLabel.text)];
      items := items + [Obj(labelData)];
      i := i + 1;
    }
    labels := List(items);
  }

  // ---------------------------------------------------------------------
  // Properties

  /**
   * One map per native label, in order; each carries the label's confidence,
   * its text, and an `entityId` that reads back as its index.
   */
  lemma LabelListShape(visionLabels: seq<ImageLabel>)
    ensures var d := LabelListDoc(visionLabels);
      && |d.items| == |visionLabels|
      && forall i :: 0 <= i < |visionLabels| ==>
           && d.items[i].fields["confidence"] == Double(visionLabels[i].confidence)
           && d.items[i].fields["text"] == Str(visionLabels[i].text)
           && d.items[i].fields["entityId"].Str?
           && ParseDecimal(d.items[i].fields["entityId"].s) == Some(visionLabels[i].index)
  {
    forall i | 0 <= i < |visionLabels|
      ensures ParseDecimal(LabelListDoc(visionLabels).items[i].fields["entityId"].s) == Some(visionLabels[i].index)
    {
      DecimalRoundTrip(visionLabels[i].index);
    }
  }
}
