/**
 * The two camera contracts of the result library. Each turns a requested output URI into a
 * capture intent and remembers that URI in a field until the result comes back; the result
 * is then read from the remembered URI, from the result intent, or it is null.
 */
module Contracts {
  import opened Optional

  /** `Activity.RESULT_OK`; every other result code, `RESULT_CANCELED` among them, means no result. */
  const RESULT_OK: int := -1

  /** `MediaStore.ACTION_IMAGE_CAPTURE` and `MediaStore.ACTION_VIDEO_CAPTURE`. */
  const ACTION_IMAGE_CAPTURE: string := "android.media.action.IMAGE_CAPTURE"
  const ACTION_VIDEO_CAPTURE: string := "android.media.action.VIDEO_CAPTURE"

  datatype Uri = Uri(text: string)
  datatype Bitmap = Bitmap(id: nat)

  /** The intent a capture activity returns: its `data` URI and its `"data"` bitmap extra. */
  datatype ResultIntent = ResultIntent(data: Option<Uri>, preview: Option<Bitmap>)

  /** The intent a contract creates: its action and its `MediaStore.EXTRA_OUTPUT` extra, if put. */
  datatype CaptureIntent = CaptureIntent(action: string, output: Option<Uri>)

  /** `TakePhotoResult` */
  datatype TakePhotoResult = Preview(bitmap: Bitmap) | FullSized(uri: Uri)

  function PreviewOf(intent: Option<ResultIntent>): (r: Option<Bitmap>)
  {
    if intent.Some? then intent.value.preview else None
  }

  function DataOf(intent: Option<ResultIntent>): (r: Option<Uri>)
  {
    if intent.Some? then intent.value.data else None
  }

  // ---------------------------------------------------------------------------------------
  // TakePhotoContract

  /** What `TakePhotoContract.createIntent` leaves in `requestedUri`. */
  function PhotoRemember(requestedUri: Option<Uri>, input: Option<Uri>): (r: Option<Uri>)
  {
    if input.Some? then input else requestedUri
  }

  /** What `TakePhotoContract.parseResult` returns, given the remembered URI. */
  function PhotoOutcome(resultCode: int, requestedUri: Option<Uri>, intent: Option<ResultIntent>): (r: Option<TakePhotoResult>)
  {
    if resultCode != RESULT_OK then None
    else if requestedUri.Some? then Some(FullSized(requestedUri.value))
    else if PreviewOf(intent).Some? then Some(Preview(PreviewOf(intent).value))
    else None
  }

  class TakePhotoContract {
    var requestedUri: Option<Uri>

    constructor ()
      ensures requestedUri == None
    {
      requestedUri := None;
    }

    /** Puts the URI as `EXTRA_OUTPUT` and remembers it, only when one is given. */
    method CreateIntent(input: Option<Uri>) returns (intent: CaptureIntent)
      modifies this
      ensures intent == CaptureIntent(ACTION_IMAGE_CAPTURE, input)
      ensures requestedUri == PhotoRemember(old(requestedUri), input)
    {
      if input.Some? {
        requestedUri := input;
      }
      intent := CaptureIntent(ACTION_IMAGE_CAPTURE, input);
    }

    /** The contract never answers without launching. */
    method GetSynchronousResult(input: Option<Uri>) returns (r: Option<TakePhotoResult>)
      ensures r.None?
    {
      r := None;
    }

    /** Reads the remembered URI, forgets it, and decides the result from it and the code. */
    method ParseResult(resultCode: int, intent: Option<ResultIntent>) returns (r: Option<TakePhotoResult>)
      modifies this
      ensures r == PhotoOutcome(resultCode, old(requestedUri), intent)
      ensures requestedUri == None
    {
      r := PhotoOutcome(resultCode, requestedUri, intent);
      requestedUri := None;
    }
  }

  /**
   * The photo result table: nothing unless the code is `RESULT_OK`; then the remembered URI
   * as a full-sized image if there is one, else the preview bitmap if the intent has one.
   */
  lemma PhotoOutcomeTable(resultCode: int, requestedUri: Option<Uri>, intent: Option<ResultIntent>)
    ensures var r := PhotoOutcome(resultCode, requestedUri, intent);
            && (r.Some? <==> resultCode == RESULT_OK && (requestedUri.Some? || PreviewOf(intent).Some?))
            && (r.Some? && r.value.FullSized? <==> resultCode == RESULT_OK && requestedUri.Some?)
            && (r.Some? && r.value.FullSized? ==> r.value.uri == requestedUri.value)
            && (r.Some? && r.value.Preview? ==> requestedUri.None? && r.value.bitmap == PreviewOf(intent).value)
  {
  }

  /** A photo launched with an output URI comes back as that URI whenever the code is OK. */
  lemma PhotoRoundTrip(requestedUri: Option<Uri>, u: Uri, resultCode: int, intent: Option<ResultIntent>)
    ensures PhotoOutcome(resultCode, PhotoRemember(requestedUri, Some(u)), intent)
            == (if resultCode == RESULT_OK then Some(FullSized(u)) else None)
  {
  }

  /**
   * A photo launched without an output URI, on a contract with nothing remembered, comes
   * back as the preview bitmap of the result intent (or nothing).
   */
  lemma PhotoPreviewOnly(resultCode: int, intent: Option<ResultIntent>)
    ensures PhotoOutcome(resultCode, PhotoRemember(None, None), intent)
            == (if resultCode == RESULT_OK && PreviewOf(intent).Some? then Some(Preview(PreviewOf(intent).value)) else None)
  {
  }

  /**
   * `createIntent(null)` does not clear a URI remembered by an earlier `createIntent(u)` whose
   * result was never parsed, so the next result is `FullSized(u)` however much the intent
   * carries a preview.
   */
  lemma PhotoKeepsUnparsedUri(u: Uri, b: Bitmap)
    ensures PhotoOutcome(RESULT_OK, PhotoRemember(PhotoRemember(None, Some(u)), None), Some(ResultIntent(None, Some(b))))
            == Some(FullSized(u))
  {
  }

  // ---------------------------------------------------------------------------------------
  // TakeVideoUriContract

  /** What `TakeVideoUriContract.parseResult` returns: the remembered URI wins over the intent's. */
  function VideoOutcome(resultCode: int, requestedUri: Option<Uri>, intent: Option<ResultIntent>): (r: Option<Uri>)
  {
    var contentUri := if requestedUri.Some? then requestedUri else DataOf(intent);
    if resultCode != RESULT_OK then None else contentUri
  }

  class TakeVideoUriContract {
    var requestedUri: Option<Uri>

    constructor ()
      ensures requestedUri == None
    {
      requestedUri := None;
    }

    /** Remembers the input, null included, and puts it as `EXTRA_OUTPUT` when given. */
    method CreateIntent(input: Option<Uri>) returns (intent: CaptureIntent)
      modifies this
      ensures intent == CaptureIntent(ACTION_VIDEO_CAPTURE, input)
      ensures requestedUri == input
    {
      requestedUri := input;
      intent := CaptureIntent(ACTION_VIDEO_CAPTURE, input);
    }

    /** The contract never answers without launching. */
    method GetSynchronousResult(input: Option<Uri>) returns (r: Option<Uri>)
      ensures r.None?
    {
      r := None;
    }

    /** Decides the result; unlike the photo contract, the remembered URI is not forgotten. */
    method ParseResult(resultCode: int, intent: Option<ResultIntent>) returns (r: Option<Uri>)
      ensures r == VideoOutcome(resultCode, requestedUri, intent)
    {
      r := VideoOutcome(resultCode, requestedUri, intent);
    }
  }

  /**
   * The video result table: nothing unless the code is `RESULT_OK`; then the remembered URI
   * if there is one, else the intent's data URI.
   */
  lemma VideoOutcomeTable(resultCode: int, requestedUri: Option<Uri>, intent: Option<ResultIntent>)
    ensures var r := VideoOutcome(resultCode, requestedUri, intent);
            && (r.Some? <==> resultCode == RESULT_OK && (requestedUri.Some? || DataOf(intent).Some?))
            && (resultCode == RESULT_OK && requestedUri.Some? ==> r == requestedUri)
            && (requestedUri.None? ==> r == (if resultCode == RESULT_OK then DataOf(intent) else None))
  {
  }

  /**
   * A video launched with output URI `u` comes back as `u` whenever the code is OK; launched
   * without one it comes back as the intent's data, since `createIntent` overwrote the field.
   */
  lemma VideoRoundTrip(input: Option<Uri>, resultCode: int, intent: Option<ResultIntent>)
    ensures input.Some? ==> VideoOutcome(resultCode, input, intent) == (if resultCode == RESULT_OK then input else None)
    ensures input.None? ==> VideoOutcome(resultCode, input, intent) == (if resultCode == RESULT_OK then DataOf(intent) else None)
  {
  }
}
