/**
 * The webcam capture component (frontend/components/Capture.tsx): two pieces
 * of component state, the captured snapshot and the last results, changed by
 * the capture and upload commands, and the pure helpers the render uses.
 *
 * The camera, the `fetch`/axios round trip and the environment are outside
 * the model: what they deliver arrives as parameters (the screenshot, the
 * endpoint variable) or as separate completion events.
 */
module Capture {
  import opened Wrappers

  /** The three images of a successful response, as base64 payloads. */
  datatype Results = Results(baseImage: string, imageWithHole: string, prediction: string)

  /** The POST the upload command issues: endpoint, multipart field, file name, and the image sent. */
  datatype UploadRequest = UploadRequest(url: string, field: string, fileName: string, image: string)

  /** The side of the red square drawn over the live view and over the preview, in pixels. */
  const SquareSize: nat := 48 * 2

  const DataUrlPrefix := "data:image/jpeg;base64,"
  const DefaultApiUrl := "http://localhost:5000"
  const ProcessImagePath := "/process_image"
  const UploadField := "file"
  const UploadFileName := "captured_image.jpg"

  /** JavaScript truthiness of a `string | null`: present and non-empty. */
  predicate Truthy(s: Option<string>) {
    s.Some? && s.value != ""
  }

  // ---------------------------------------------------------------------
  // Render helpers
  // ---------------------------------------------------------------------

  /** The `src` of a result image: the payload as a JPEG data URL. */
  function DataUrl(payload: string): (src: string)
    ensures DataUrlPrefix <= src && src[|DataUrlPrefix|..] == payload
  {
    DataUrlPrefix + payload
  }

  /** The payload carried by a JPEG data URL, if `src` is one. */
  function PayloadOf(src: string): (payload: Option<string>)
    ensures payload.Some? <==> DataUrlPrefix <= src
  {
    if DataUrlPrefix <= src then Some(src[|DataUrlPrefix|..]) else None
  }

  /** Reading a rendered source gives back the payload it was built from. */
  lemma {:induction false} PayloadOfDataUrl(payload: string)
    ensures PayloadOf(DataUrl(payload)) == Some(payload)
  {
  }

  /** Every JPEG data URL is the rendering of the payload it carries. */
  lemma {:induction false} DataUrlOfPayload(src: string)
    requires PayloadOf(src).Some?
    ensures DataUrl(PayloadOf(src).value) == src
  {
  }

  /** The endpoint base: REACT_APP_API_URL when set and non-empty, else the local default. */
  function ApiUrl(env: Option<string>): (url: string)
    ensures url != ""
    ensures Truthy(env) ==> url == env.value
    ensures !Truthy(env) ==> url == DefaultApiUrl
  {
    if Truthy(env) then env.value else DefaultApiUrl
  }

  /** The URL the upload is posted to. */
  function UploadUrl(env: Option<string>): (url: string)
    ensures |url| > |ProcessImagePath|
    ensures url[..|url| - |ProcessImagePath|] == ApiUrl(env)
    ensures url[|url| - |ProcessImagePath|..] == ProcessImagePath
  {
    ApiUrl(env) + ProcessImagePath
  }

  /** The red square's geometry. */
  datatype Square = Square(width: nat, height: nat)

  /** The captured-image preview: its source and the square drawn over it. */
  datatype Preview = Preview(src: string, overlay: Square)

  /** What the component renders, leaving out layout and styling. */
  datatype View = View(liveOverlay: Square, preview: Option<Preview>, resultSources: seq<string>)

  /** The fields of a result set in the order they are rendered. */
  function Fields(r: Results): seq<string> {
    [r.baseImage, r.imageWithHole, r.prediction]
  }

  /**
   * The render: the live view with its square, the preview when a snapshot
   * is held, and the three result images when results are held.
   */
  function Render(captured: Option<string>, results: Option<Results>): (v: View)
    ensures v.liveOverlay == Square(SquareSize, SquareSize)
    ensures v.preview.Some? <==> Truthy(captured)
    // the preview shows the snapshot under the same square as the live view
    ensures v.preview.Some? ==> v.preview.value.src == captured.value && v.preview.value.overlay == v.liveOverlay
    ensures results.None? ==> v.resultSources == []
    // each result source carries the matching field, in the order base, hole, prediction
    ensures results.Some? ==>
      (|v.resultSources| == 3 &&
       forall k :: 0 <= k < 3 ==> PayloadOf(v.resultSources[k]) == Some(Fields(results.value)[k]))
  {
    var square := Square(SquareSize, SquareSize);
    var preview := if Truthy(captured) then Some(Preview(captured.value, square)) else None;
    match results
    case None => View(square, preview, [])
    case Some(r) =>
      PayloadOfDataUrl(r.baseImage);
      PayloadOfDataUrl(r.imageWithHole);
      PayloadOfDataUrl(r.prediction);
      View(square, preview, [DataUrl(r.baseImage), DataUrl(r.imageWithHole), DataUrl(r.prediction)])
  }

  // ---------------------------------------------------------------------
  // Component state
  // ---------------------------------------------------------------------

  /**
   * The WebcamCapture component's state. `inFlight` counts the uploads that
   * have been issued and have not completed; completions arrive in any
   * order and none is checked against the snapshot it was issued for.
   */
  class WebcamCapture {
    var capturedImage: Option<string>
    var results: Option<Results>
    ghost var inFlight: nat
    /** REACT_APP_API_URL as built into the page. */
    const env: Option<string>

    /** `capture` stores `imageSrc || null`, so an empty string is never held. */
    ghost predicate Valid()
      reads this
    {
      capturedImage != Some("")
    }

    /** The initial state: nothing captured, no results, nothing in flight. */
    constructor (env: Option<string>)
      ensures Valid()
      ensures capturedImage == None && results == None && inFlight == 0 && this.env == env
    {
      capturedImage, results, inFlight := None, None, 0;
      this.env := env;
    }

    /**
     * capture: without a mounted webcam nothing happens; otherwise the
     * screenshot is stored, a null or empty one as null. `results` is not
     * touched, so earlier results stay on screen after a recapture.
     */
    method Capture(refPresent: bool, screenshot: Option<string>)
      requires Valid()
      modifies this`capturedImage
      ensures Valid()
      ensures !refPresent ==> capturedImage == old(capturedImage)
      ensures refPresent && Truthy(screenshot) ==> capturedImage == screenshot
      ensures refPresent && !Truthy(screenshot) ==> capturedImage == None
      ensures results == old(results) && inFlight == old(inFlight)
    {
      if refPresent {
        capturedImage := if Truthy(screenshot) then screenshot else None;
      }
    }

    /**
     * uploadImage up to the network: with no snapshot it returns at once and
     * issues nothing; otherwise it issues one POST of the snapshot. Neither
     * path changes the component state; the response arrives later as
     * CompleteSuccess or CompleteFailure.
     */
    method Upload() returns (request: Option<UploadRequest>)
      requires Valid()
      modifies this`inFlight
      ensures Valid()
      ensures request.None? <==> !Truthy(capturedImage)
      ensures request.Some? ==> request.value == UploadRequest(UploadUrl(env), UploadField, UploadFileName, capturedImage.value)
      ensures inFlight == old(inFlight) + (if request.Some? then 1 else 0)
      ensures capturedImage == old(capturedImage) && results == old(results)
    {
      if !Truthy(capturedImage) {
        return None;
      }
      request := Some(UploadRequest(UploadUrl(env), UploadField, UploadFileName, capturedImage.value));
      inFlight := inFlight + 1;
    }

    /** A successful response to some issued upload replaces `results` wholesale. */
    method CompleteSuccess(baseImage: string, imageWithHole: string, prediction: string)
      requires Valid() && inFlight > 0
      modifies this`results, this`inFlight
      ensures Valid()
      ensures results == Some(Results(baseImage, imageWithHole, prediction))
      ensures capturedImage == old(capturedImage) && inFlight == old(inFlight) - 1
    {
      results := Some(Results(baseImage, imageWithHole, prediction));
      inFlight := inFlight - 1;
    }

    /** A failed upload is only logged: neither `results` nor `capturedImage` changes. */
    method CompleteFailure()
      requires Valid() && inFlight > 0
      modifies this`inFlight
      ensures Valid()
      ensures capturedImage == old(capturedImage) && results == old(results)
      ensures inFlight == old(inFlight) - 1
    {
      inFlight := inFlight - 1;
    }
  }

  // ---------------------------------------------------------------------
  // Behaviour of the component over several events
  // ---------------------------------------------------------------------

  /**
   * Two snapshots uploaded one after the other, whose responses arrive in
   * reverse order: the earlier upload's results are shown last, beside the
   * later snapshot. The component keeps no generation to tell them apart.
   */
  method OutOfOrderCompletion(first: string, second: string, firstResults: Results, secondResults: Results)
    returns (r1: Option<UploadRequest>, r2: Option<UploadRequest>, captured: Option<string>, shown: Option<Results>)
    requires first != "" && second != ""
    // each upload was issued for its own snapshot
    ensures r1 == Some(UploadRequest(UploadUrl(None), UploadField, UploadFileName, first))
    ensures r2 == Some(UploadRequest(UploadUrl(None), UploadField, UploadFileName, second))
    ensures captured == Some(second)
    ensures shown == Some(firstResults)
  {
    var c := new WebcamCapture(None);
    c.Capture(true, Some(first));
    r1 := c.Upload();
    c.Capture(true, Some(second));
    r2 := c.Upload();
    c.CompleteSuccess(secondResults.baseImage, secondResults.imageWithHole, secondResults.prediction);
    c.CompleteSuccess(firstResults.baseImage, firstResults.imageWithHole, firstResults.prediction);
    captured, shown := c.capturedImage, c.results;
  }

  /**
   * A successful round trip followed by a new snapshot: the page shows the
   * new snapshot and still the three images of the earlier response.
   */
  method RecaptureAfterSuccess(first: string, second: string, base: string, hole: string, prediction: string)
    returns (view: View)
    requires first != "" && second != ""
    ensures view.preview == Some(Preview(second, Square(SquareSize, SquareSize)))
    ensures view.resultSources == [DataUrl(base), DataUrl(hole), DataUrl(prediction)]
  {
    var c := new WebcamCapture(None);
    c.Capture(true, Some(first));
    var r := c.Upload();
    c.CompleteSuccess(base, hole, prediction);
    c.Capture(true, Some(second));
    view := Render(c.capturedImage, c.results);
  }

  /**
   * A failed upload after a success: the earlier results stay, and so does
   * the snapshot.
   */
  method FailureKeepsResults(image: string, base: string, hole: string, prediction: string)
    returns (captured: Option<string>, shown: Option<Results>)
    requires image != ""
    ensures captured == Some(image)
    ensures shown == Some(Results(base, hole, prediction))
  {
    var c := new WebcamCapture(None);
    c.Capture(true, Some(image));
    var r1 := c.Upload();
    c.CompleteSuccess(base, hole, prediction);
    var r2 := c.Upload();
    c.CompleteFailure();
    captured, shown := c.capturedImage, c.results;
  }
}
