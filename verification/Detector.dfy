/** From a model's raw boxes to detections (detector.py): clamping, rounding, provisional severity. */
module Detector {
  import opened Rounding

  /** A predicted box: the resolved damage code, its confidence, and the normalised centre and size. */
  datatype Box = Box(code: string, confidence: real, xc: real, yc: real, w: real, h: real)

  datatype Found = Found(
    code: string, confidence: real, severity: real, x: real, y: real, width: real, height: real)

  function ProvisionalSeverity(confidence: real, area: real): real {
    Round4(Min(1.0, 0.4 * confidence + 0.6 * Min(1.0, area * 10.0)))
  }

  function ClampSize(v: real): real {
    Max(0.0001, Min(v, 1.0))
  }

  /** The part of the frame a box covers. */
  function RelativeArea(width: real, height: real): real {
    width * height
  }

  function ToFound(b: Box): Found {
    var x, y := Max(0.0, b.xc - b.w / 2.0), Max(0.0, b.yc - b.h / 2.0);
    var w, h := ClampSize(b.w), ClampSize(b.h);
    Found(b.code, Round4(b.confidence), ProvisionalSeverity(b.confidence, RelativeArea(w, h)),
          Round4(x), Round4(y), Round4(w), Round4(h))
  }

  /** The loop of `detect` over the predicted boxes. */
  method Detect(boxes: seq<Box>) returns (found: seq<Found>)
    ensures |found| == |boxes|
    ensures forall i :: 0 <= i < |boxes| ==> found[i] == ToFound(boxes[i])
  {
    found := [];
    for i := 0 to |boxes|
      invariant |found| == i
      invariant forall j :: 0 <= j < i ==> found[j] == ToFound(boxes[j])
    {
      found := found + [ToFound(boxes[i])];
    }
  }

  predicate Confident(b: Box) {
    0.0 <= b.confidence <= 1.0
  }

  /** The CHECK constraints of the table of detections. */
  predicate MeetsChecks(f: Found) {
    && f.x >= 0.0 && f.y >= 0.0 && f.width > 0.0 && f.height > 0.0
    && 0.0 <= f.confidence <= 1.0 && 0.0 <= f.severity <= 1.0
  }

  lemma SizeInRange(v: real)
    ensures 0.0001 <= ClampSize(v) <= 1.0 && 0.0001 <= Round4(ClampSize(v)) <= 1.0
  {
    hide Round4;
    Round4Within(1, ClampSize(v), 10000);
  }

  lemma SeverityInRange(confidence: real, area: real)
    requires 0.0 <= confidence <= 1.0 && area >= 0.0
    ensures 0.0 <= ProvisionalSeverity(confidence, area) <= 1.0
  {
    hide Round4;
    Round4Within(0, Min(1.0, 0.4 * confidence + 0.6 * Min(1.0, area * 10.0)), 10000);
  }

  lemma Round4NonNegative(x: real)
    requires x >= 0.0
    ensures Round4(x) >= 0.0
  {
    hide Round4;
    Round4OnGrid(0);
    Round4Monotone(0.0, x);
  }

  lemma AreaInRange(w: real, h: real)
    requires 0.0001 <= w <= 1.0 && 0.0001 <= h <= 1.0
    ensures 0.0 < RelativeArea(w, h) <= 1.0
  {
    assert RelativeArea(w, h) == w * h;
    assert w * h <= 1.0 * h == h;
  }

  /** Whatever box the model predicts, the stored detection meets the schema and the engine accepts it. */
  lemma FoundInRange(b: Box)
    requires Confident(b)
    ensures
      var f := ToFound(b);
      && MeetsChecks(f)
      && 0.0001 <= f.width <= 1.0 && 0.0001 <= f.height <= 1.0
      && 0.0 < RelativeArea(f.width, f.height) <= 1.0
  {
    hide Round4, ProvisionalSeverity, ClampSize, RelativeArea;
    var w, h := ClampSize(b.w), ClampSize(b.h);
    SizeInRange(b.w);
    SizeInRange(b.h);
    AreaInRange(w, h);
    AreaInRange(Round4(w), Round4(h));
    SeverityInRange(b.confidence, RelativeArea(w, h));
    Round4Within(0, b.confidence, 10000);
    Round4NonNegative(Max(0.0, b.xc - b.w / 2.0));
    Round4NonNegative(Max(0.0, b.yc - b.h / 2.0));
  }

  /** The whole predicted box lies in the frame, and is neither thinner than the least size nor wider than the frame. */
  predicate InFrame(b: Box) {
    && 0.0 <= b.xc - b.w / 2.0 && b.xc + b.w / 2.0 <= 1.0 && 0.0001 <= b.w <= 1.0
    && 0.0 <= b.yc - b.h / 2.0 && b.yc + b.h / 2.0 <= 1.0 && 0.0001 <= b.h <= 1.0
  }

  /** Corner and size give the predicted centre and size back, within the rounding, and the box stays in the frame. */
  lemma CentreRecovered(b: Box)
    requires InFrame(b)
    ensures
      var f := ToFound(b);
      && f.code == b.code
      && Abs(f.x + f.width / 2.0 - b.xc) <= 0.000075 && Abs(f.width - b.w) <= 0.00005
      && Abs(f.y + f.height / 2.0 - b.yc) <= 0.000075 && Abs(f.height - b.h) <= 0.00005
      && f.x + f.width <= 1.0001 && f.y + f.height <= 1.0001
  {
    hide Round4, ProvisionalSeverity;
    Round4Near(b.xc - b.w / 2.0);
    Round4Near(b.yc - b.h / 2.0);
    Round4Near(b.w);
    Round4Near(b.h);
  }

  /**
   Severity grows with the confidence and with the area; the area part is worth at most 0.6 and is all used
   from a tenth of the frame on, the confidence part is worth at most 0.4.
   */
  lemma SeveritySaturates(confidence: real, surer: real, area: real, larger: real)
    requires 0.0 <= confidence <= surer <= 1.0 && 0.0 <= area <= larger
    ensures ProvisionalSeverity(confidence, area) <= ProvisionalSeverity(surer, larger)
    ensures area >= 0.1 ==> 0.6 <= ProvisionalSeverity(confidence, area) == ProvisionalSeverity(confidence, larger)
    ensures confidence == 1.0 ==> ProvisionalSeverity(confidence, area) >= 0.4
    ensures area == 0.0 ==> ProvisionalSeverity(confidence, area) <= 0.4
    ensures confidence == 0.0 ==> ProvisionalSeverity(confidence, area) <= 0.6
  {
    hide Round4;
    var x := Min(1.0, 0.4 * confidence + 0.6 * Min(1.0, area * 10.0));
    var y := Min(1.0, 0.4 * surer + 0.6 * Min(1.0, larger * 10.0));
    Round4Monotone(x, y);
    if area >= 0.1 { Round4Within(6000, x, 10000); }
    if confidence == 1.0 { Round4Within(4000, x, 10000); }
    if area == 0.0 { Round4Within(0, x, 4000); }
    if confidence == 0.0 { Round4Within(0, x, 6000); }
  }

  /** The threshold passed to the model: every box it predicts is at least so sure. */
  const CONFIDENCE_THRESHOLD := 0.5

  predicate Predicted(b: Box) {
    CONFIDENCE_THRESHOLD <= b.confidence <= 1.0
  }

  /** A predicted box that covers a tenth of the frame is stored with a severity of at least 0.8. */
  lemma LargeBoxIsSevere(b: Box)
    requires Predicted(b) && RelativeArea(ClampSize(b.w), ClampSize(b.h)) >= 0.1
    ensures ToFound(b).severity >= 0.8
  {
    hide Round4, ClampSize, RelativeArea;
    Round4Within(8000, Min(1.0, 0.4 * b.confidence + 0.6), 10000);
  }

  /**
   Every field of a stored detection, from the box: confidence and corner to the fourth decimal, sizes brought into
   [0.0001, 1], and a severity of 0.4 confidence + 6 area, its area part at most 0.6.
   */
  lemma FoundMeans(b: Box)
    requires Confident(b)
    ensures
      var f := ToFound(b);
      var w := if b.w < 0.0001 then 0.0001 else if b.w > 1.0 then 1.0 else b.w;
      var h := if b.h < 0.0001 then 0.0001 else if b.h > 1.0 then 1.0 else b.h;
      var left := if b.xc - b.w / 2.0 > 0.0 then b.xc - b.w / 2.0 else 0.0;
      var top := if b.yc - b.h / 2.0 > 0.0 then b.yc - b.h / 2.0 else 0.0;
      var severe := 0.4 * b.confidence + if w * h <= 0.1 then 6.0 * (w * h) else 0.6;
      && f.code == b.code
      && Abs(f.confidence - b.confidence) <= 0.00005
      && Abs(f.severity - severe) <= 0.00005
      && Abs(f.width - w) <= 0.00005 && Abs(f.height - h) <= 0.00005
      && Abs(f.x - left) <= 0.00005 && Abs(f.y - top) <= 0.00005
  {
    hide Round4;
    var w, h := ClampSize(b.w), ClampSize(b.h);
    Round4Near(b.confidence);
    Round4Near(w);
    Round4Near(h);
    Round4Near(Max(0.0, b.xc - b.w / 2.0));
    Round4Near(Max(0.0, b.yc - b.h / 2.0));
    Round4Near(Min(1.0, 0.4 * b.confidence + 0.6 * Min(1.0, RelativeArea(w, h) * 10.0)));
  }
}
