/**
 * The recognition pipeline that ScanThread runs on one camera frame:
 * lock verification against the previous result, offline image search,
 * then barcode decoding; the first stage that yields a result wins.
 * This module states what each stage contributes; the imperative
 * doInBackground is MoodstocksDemo1.ScanThread.DoInBackground.
 */
module Pipeline {
  import opened Wrappers
  import opened Results
  import opened Scanner

  /**
   * What the backend answers, for one query image, to each call the
   * pipeline can make. Each of these calls is made at most once per frame.
   */
  datatype Backend = Backend(
    matchAnswer: Answer<bool>,              // scanner.match(qry, previous value)
    qrDecodeAnswer: Answer<Option<Barcode>>, // scanner.decode(qry, QR code format only)
    searchAnswer: Answer<Option<string>>,   // scanner.search(qry)
    decodeAnswer: Answer<Option<Barcode>>)  // scanner.decode(qry, configured formats)

  /** One call made by the pipeline, in the order it is made. */
  datatype Call = Match(expected: string) | DecodeQr | Search | Decode(formats: bv32) | Finalize

  /** The position of a call's stage in the pipeline. */
  function StageOf(c: Call): nat
  {
    match c
    case Match(_) => 0
    case DecodeQr => 0
    case Search => 1
    case Decode(_) => 2
    case Finalize => 3
  }

  /**
   * The result type a decoded barcode format is reported with. A decoded
   * barcode is never reported as an image, the three known formats get
   * three distinct types, and every other format is reported as NONE.
   */
  function KindOfFormat(format: bv32): (k: int)
    ensures k != IMAGE
    ensures k == NONE <==> format != FMT_EAN8 && format != FMT_EAN13 && format != FMT_QRCODE
    ensures format == FMT_EAN8 <==> k == EAN8
    ensures format == FMT_EAN13 <==> k == EAN13
    ensures format == FMT_QRCODE <==> k == QRCODE
  {
    if format == FMT_EAN8 then EAN8
    else if format == FMT_EAN13 then EAN13
    else if format == FMT_QRCODE then QRCODE
    else NONE
  }

  /**
   * The lock stage: the previous result when the frame still shows it.
   * Only an image result (re-matched) and a QR code result (re-decoded and
   * compared) can be locked; a backend error locks nothing.
   */
  function LockVerdict(prior: Option<Result>, b: Backend): (r: Option<Result>)
    ensures r.Some? ==> r == prior
    ensures r.Some? ==> prior.value.kind == IMAGE || prior.value.kind == QRCODE
    ensures prior.Some? && prior.value.kind == IMAGE ==> (r.Some? <==> b.matchAnswer == Returned(true))
  {
    match prior
    case None => None
    case Some(p) =>
      if p.kind == IMAGE then
        (if b.matchAnswer == Returned(true) then prior else None)
      else if p.kind == QRCODE then
        (match b.qrDecodeAnswer
         case Returned(Some(bar)) => if bar.text == p.value then prior else None
         case _ => None)
      else None
  }

  /** The image-search stage: an image result when the search names an image. */
  function SearchVerdict(b: Backend): (r: Option<Result>)
    ensures r.Some? <==> b.searchAnswer.Returned? && b.searchAnswer.value.Some?
    ensures r.Some? ==> r.value == Result(IMAGE, b.searchAnswer.value.value)
  {
    match b.searchAnswer
    case Returned(Some(id)) => Some(Result(IMAGE, id))
    case _ => None
  }

  /** The barcode stage: the decoded text, typed by its format. */
  function DecodeVerdict(b: Backend): (r: Option<Result>)
    ensures r.Some? <==> b.decodeAnswer.Returned? && b.decodeAnswer.value.Some?
    ensures r.Some? ==> r.value.value == b.decodeAnswer.value.value.text
    ensures r.Some? ==> r.value.kind == KindOfFormat(b.decodeAnswer.value.value.format)
  {
    match b.decodeAnswer
    case Returned(Some(bar)) => Some(Result(KindOfFormat(bar.format), bar.text))
    case _ => None
  }

  /** The first stage outcome that found something, or nothing. */
  function FirstFound(outcomes: seq<Option<Result>>): (r: Option<Result>)
    ensures r.None? <==> forall i :: 0 <= i < |outcomes| ==> outcomes[i].None?
    ensures r.Some? ==> exists i :: 0 <= i < |outcomes| && outcomes[i] == r
                                    && forall j :: 0 <= j < i ==> outcomes[j].None?
  {
    if outcomes == [] then None
    else if outcomes[0].Some? then outcomes[0]
    else
      var rest := FirstFound(outcomes[1..]);
      assert forall i :: 1 <= i < |outcomes| ==> outcomes[i] == outcomes[1..][i - 1];
      rest
  }

  /** The result of the whole pipeline: first success wins, in stage order. */
  function Recognise(prior: Option<Result>, b: Backend): Option<Result>
  {
    FirstFound([LockVerdict(prior, b), SearchVerdict(b), DecodeVerdict(b)])
  }

  /**
   * A confirmed lock short-circuits the pipeline; otherwise a search hit
   * wins over a barcode; otherwise the barcode, if any, is the result.
   */
  lemma RecogniseIsFirstSuccess(prior: Option<Result>, b: Backend)
    ensures LockVerdict(prior, b).Some? ==> Recognise(prior, b) == prior
    ensures LockVerdict(prior, b).None? && SearchVerdict(b).Some? ==> Recognise(prior, b) == SearchVerdict(b)
    ensures LockVerdict(prior, b).None? && SearchVerdict(b).None? ==> Recognise(prior, b) == DecodeVerdict(b)
  {
    var outs := [LockVerdict(prior, b), SearchVerdict(b), DecodeVerdict(b)];
    var r := Recognise(prior, b);
    if r.Some? {
      var i :| 0 <= i < |outs| && outs[i] == r && forall j :: 0 <= j < i ==> outs[j].None?;
      assert i == 0 <==> outs[0].Some?;
      assert i <= 1 <==> outs[0].Some? || outs[1].Some?;
    } else {
      assert outs[1].None? && outs[2].None?;
    }
  }

  /** Results other than image and QR code results never lock; nor does no result. */
  lemma OnlyImageAndQrResultsLock(prior: Option<Result>, b: Backend)
    requires prior.None? || (prior.value.kind != IMAGE && prior.value.kind != QRCODE)
    ensures LockVerdict(prior, b).None?
  {
  }

  /** A QR code lock holds iff a QR code is decoded and its text is the previous value. */
  lemma QrLockIff(p: Result, b: Backend)
    requires p.kind == QRCODE
    ensures LockVerdict(Some(p), b).Some?
        <==> b.qrDecodeAnswer.Returned? && b.qrDecodeAnswer.value.Some?
             && b.qrDecodeAnswer.value.value.text == p.value
  {
  }

  /**
   * A backend error in a stage makes that stage contribute nothing: the
   * lock check whose call throws yields no verdict, and the later stages
   * still run.
   */
  lemma ErrorsAreAbsorbed(prior: Option<Result>, b: Backend)
    ensures prior.Some? && prior.value.kind == IMAGE && b.matchAnswer.Threw? ==> LockVerdict(prior, b).None?
    ensures prior.Some? && prior.value.kind == QRCODE && b.qrDecodeAnswer.Threw? ==> LockVerdict(prior, b).None?
    ensures LockVerdict(prior, b).None? ==> Recognise(prior, b) == FirstFound([SearchVerdict(b), DecodeVerdict(b)])
    ensures b.searchAnswer.Threw? ==> SearchVerdict(b).None?
    ensures b.decodeAnswer.Threw? ==> DecodeVerdict(b).None?
  {
  }
}
