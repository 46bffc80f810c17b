/** Whether a document needs OCR: `decide_ocr` of apps/api/pdi/ingestion/extraction.py. */
module OcrDecisions {
  import opened Normalization

  datatype Decision = Decision(required: bool, characters: nat, emptyPages: nat, usefulPages: nat)

  function Counts(pages: seq<string>): seq<nat> { seq(|pages|, i requires 0 <= i < |pages| => |Ink(pages[i])|) }

  function Sum(counts: seq<nat>): nat { if counts == [] then 0 else counts[0] + Sum(counts[1..]) }

  function AtLeast(counts: seq<nat>, minimum: int): (n: nat)
    ensures n <= |counts|
  {
    if counts == [] then 0 else (if counts[0] >= minimum then 1 else 0) + AtLeast(counts[1..], minimum)
  }

  function DecideOcr(pages: seq<string>, minimum: int): Decision {
    var pageCount := if pages == [] then 1 else |pages|;
    var counts := if pages == [] then [0] else Counts(pages);
    var total, useful := Sum(counts), AtLeast(counts, minimum);
    Decision(total < minimum * pageCount || pageCount - useful > 0, total, |counts| - AtLeast(counts, 10), useful)
  }

  lemma {:induction false} AtLeastAll(counts: seq<nat>, minimum: int)
    ensures AtLeast(counts, minimum) == |counts| <==> forall i :: 0 <= i < |counts| ==> counts[i] >= minimum
    ensures AtLeast(counts, minimum) == |counts| ==> Sum(counts) >= minimum * |counts|
  {
    if counts != [] {
      var rest := counts[1..];
      AtLeastAll(rest, minimum);
      assert forall i :: 0 <= i < |rest| ==> rest[i] == counts[i + 1];
      if counts[0] >= minimum && AtLeast(rest, minimum) == |rest| {
        forall i | 0 <= i < |counts| ensures counts[i] >= minimum {
          if i > 0 { assert rest[i - 1] == counts[i]; }
        }
      }
      assert minimum * |counts| == minimum + minimum * |rest|;
    }
  }

  /** Main result: the total never decides; OCR is required exactly when some page has too little
      text, or when there is no page and some text is wanted. */
  lemma RequiredIffSomePageIsThin(pages: seq<string>, minimum: int)
    ensures DecideOcr(pages, minimum).required <==>
              if pages == [] then minimum > 0 else exists i :: 0 <= i < |pages| && |Ink(pages[i])| < minimum
  {
    hide Ink;
    var counts := Counts(pages);
    if pages == [] {
      AtLeastAll([0], minimum);
    } else {
      AtLeastAll(counts, minimum);
      assert forall i :: 0 <= i < |pages| ==> counts[i] == |Ink(pages[i])|;
    }
  }

  function Normalized(pages: seq<string>): seq<string> {
    seq(|pages|, i requires 0 <= i < |pages| => NormalizeText(pages[i]))
  }

  /** Normalizing the pages first does not change the decision. */
  lemma NormalizingDoesNotDecide(pages: seq<string>, minimum: int)
    ensures DecideOcr(Normalized(pages), minimum) == DecideOcr(pages, minimum)
  {
    hide NormalizeText, Ink;
    forall i | 0 <= i < |pages| ensures Ink(Normalized(pages)[i]) == Ink(pages[i]) {
      NormalizeIsNormal(pages[i]);
    }
    assert Counts(Normalized(pages)) == Counts(pages);
  }
}
