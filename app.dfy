/**
 * The inpainting backend (backend/app.py): the centred noise hole cut into a
 * colour image before inference, and the request handling of the
 * `/process_image` endpoint. Model inference, JPEG/base64 encoding and the
 * OpenCV decoding itself are external; their outcomes are parameters here.
 */
module App {
  import opened Wrappers

  /** One colour channel of one pixel, as numpy's uint8. */
  newtype byte = x: int | 0 <= x < 256

  /** MASK_SIZE: height and width of the hole. */
  const MaskHeight: nat := 48
  const MaskWidth: nat := 48
  /** IMG_SIZE: the image is resized to this before the hole is cut. */
  const ImgHeight: nat := 128
  const ImgWidth: nat := 128

  // ---------------------------------------------------------------------
  // The noise hole
  // ---------------------------------------------------------------------

  /**
   * Where a window of size `mask` starts along an axis of size `total`:
   * Python's `(total - mask) // 2`. The divisor is positive, so Dafny's
   * Euclidean division agrees with Python's floor division, also when the
   * mask is larger than the axis.
   */
  function WindowStart(total: nat, mask: nat): (start: int)
    // floor division by two, characterised without dividing
    ensures 2 * start <= total - mask < 2 * start + 2
    // centred: the margin before the window is the margin after it, or one less
    ensures var after := total - mask - start; after == start || after == start + 1
    // a mask that fits gives a window inside the axis
    ensures mask <= total ==> 0 <= start && start + mask <= total
  {
    (total - mask) / 2
  }

  /** Whether pixel (y, x) lies in the mh-by-mw window whose corner is (yStart, xStart). */
  predicate InWindow(y: int, x: int, yStart: int, xStart: int, mh: nat, mw: nat) {
    yStart <= y < yStart + mh && xStart <= x < xStart + mw
  }

  /** With the configured sizes the hole covers rows and columns 40 to 87 of the 128-by-128 image. */
  lemma DefaultHoleWindow()
    ensures WindowStart(ImgHeight, MaskHeight) == 40 && WindowStart(ImgWidth, MaskWidth) == 40
    ensures 40 + MaskHeight <= ImgHeight && 40 + MaskWidth <= ImgWidth
  {
  }

  /**
   * add_random_noise_hole: copy the H x W x 3 image, then overwrite the centred
   * mh x mw window of the copy with `noise` (whose values, being bytes, lie in
   * 0..255). The input image is only read; the copy is returned.
   */
  method AddNoiseHole(image: array3<byte>, mh: nat, mw: nat, noise: array3<byte>) returns (withHole: array3<byte>)
    requires image.Length2 == 3
    requires mh <= image.Length0 && mw <= image.Length1
    requires noise.Length0 == mh && noise.Length1 == mw && noise.Length2 == 3
    ensures withHole != image && withHole != noise
    ensures withHole.Length0 == image.Length0 && withHole.Length1 == image.Length1 && withHole.Length2 == 3
    // every pixel outside the window is the input pixel
    ensures forall y, x, c ::
      (0 <= y < image.Length0 && 0 <= x < image.Length1 && 0 <= c < 3 &&
       !InWindow(y, x, WindowStart(image.Length0, mh), WindowStart(image.Length1, mw), mh, mw)) ==>
        withHole[y, x, c] == image[y, x, c]
    // the window lies inside the image, and each of its pixels is the matching noise value
    ensures forall i, j, c :: 0 <= i < mh && 0 <= j < mw && 0 <= c < 3 ==>
      withHole[WindowStart(image.Length0, mh) + i, WindowStart(image.Length1, mw) + j, c] == noise[i, j, c]
  {
    var h, w := image.Length0, image.Length1;
    withHole := new byte[h, w, 3]((y, x, c) requires 0 <= y < h && 0 <= x < w && 0 <= c < 3 reads image => image[y, x, c]);
    var yStart, xStart := WindowStart(h, mh), WindowStart(w, mw);
    var i := 0;
    while i < mh
      invariant 0 <= i <= mh
      invariant forall y, x, c :: 0 <= y < h && 0 <= x < w && 0 <= c < 3 ==>
        withHole[y, x, c] == if InWindow(y, x, yStart, xStart, i, mw) then noise[y - yStart, x - xStart, c] else image[y, x, c]
    {
      var j := 0;
      while j < mw
        invariant 0 <= j <= mw
        invariant forall y, x, c :: 0 <= y < h && 0 <= x < w && 0 <= c < 3 ==>
          withHole[y, x, c] ==
            if InWindow(y, x, yStart, xStart, i, mw) || InWindow(y, x, yStart + i, xStart, 1, j)
            then noise[y - yStart, x - xStart, c]
            else image[y, x, c]
      {
        withHole[yStart + i, xStart + j, 0] := noise[i, j, 0];
        withHole[yStart + i, xStart + j, 1] := noise[i, j, 1];
        withHole[yStart + i, xStart + j, 2] := noise[i, j, 2];
        j := j + 1;
      }
      i := i + 1;
    }
    forall i, j, c | 0 <= i < mh && 0 <= j < mw && 0 <= c < 3
      ensures withHole[yStart + i, xStart + j, c] == noise[i, j, c]
    {
      assert InWindow(yStart + i, xStart + j, yStart, xStart, mh, mw);
    }
  }

  // ---------------------------------------------------------------------
  // The /process_image endpoint
  // ---------------------------------------------------------------------

  /**
   * One part of a multipart upload: its truth value and its filename. Its
   * bytes reach the model only through what decoding them gave, the
   * `decoded` parameter of ProcessImage.
   */
  datatype FilePart = FilePart(truthy: bool, filename: string)

  /** The parts of interest of an incoming request: the uploaded files by field name. */
  datatype Request = Request(files: map<string, FilePart>)

  /** The three base64 JPEG payloads produced for a request that went through. */
  datatype Payloads = Payloads(baseImage: string, imageWithHole: string, prediction: string)

  /** A JSON response: HTTP status and a flat object of string fields. */
  datatype Response = Response(status: int, body: map<string, string>)

  const NoFileMessage := "No file received."
  const InvalidFileMessage := "Invalid file."
  const InvalidImageMessage := "Invalid image data received."

  /** The field the endpoint reads the image from. */
  const FileField := "file"

  /**
   * preprocess_image's guard: cv2.imdecode returning None raises ValueError.
   * `decoded` is what decoding the uploaded bytes gave; colour conversion,
   * resizing and normalisation of a decoded image are not part of this model.
   */
  function Preprocess<F>(decoded: Option<F>): (r: Result<F>)
    ensures r.Failure? <==> decoded.None?
    ensures r.Failure? ==> r.message == InvalidImageMessage
    ensures r.Success? ==> r.value == decoded.value
  {
    match decoded
    case None => Failure(InvalidImageMessage)
    case Some(img) => Success(img)
  }

  /** The request carries a usable file: a truthy part under "file" with a non-empty filename. */
  predicate HasValidFile(req: Request) {
    FileField in req.files && req.files[FileField].truthy && req.files[FileField].filename != ""
  }

  /** The fields of a successful response. */
  function SuccessKeys(): set<string> {
    {"base_image", "image_with_hole", "prediction"}
  }

  /**
   * process_image. `decoded` is what cv2.imdecode gave for the uploaded bytes,
   * `produced` the outcome of the later steps inside the try block (hole,
   * inference, JPEG and base64 encoding): the payloads, or the message of
   * whatever they raised.
   */
  function ProcessImage<F>(req: Request, decoded: Option<F>, produced: Result<Payloads>): (r: Response)
    ensures r.status in {200, 400, 500}
    // the missing-file check comes before anything else
    ensures FileField !in req.files ==> r == Response(400, map["error" := NoFileMessage])
    ensures FileField in req.files && !HasValidFile(req) ==> r == Response(400, map["error" := InvalidFileMessage])
    ensures r.status == 400 <==> !HasValidFile(req)
    // an undecodable image is a server error carrying preprocess_image's message
    ensures HasValidFile(req) && decoded.None? ==> r == Response(500, map["error" := InvalidImageMessage])
    ensures r.status == 500 <==> HasValidFile(req) && (decoded.None? || produced.Failure?)
    // success: exactly the three payload fields, each the matching payload
    ensures r.status == 200 ==>
      (produced.Success? && r.body.Keys == SuccessKeys() &&
       r.body["base_image"] == produced.value.baseImage &&
       r.body["image_with_hole"] == produced.value.imageWithHole &&
       r.body["prediction"] == produced.value.prediction)
    // every failure carries exactly one error field
    ensures r.status != 200 ==> r.body.Keys == {"error"}
  {
    if FileField !in req.files then
      Response(400, map["error" := NoFileMessage])
    else if !HasValidFile(req) then
      Response(400, map["error" := InvalidFileMessage])
    else
      match Preprocess(decoded)
      case Failure(e) => Response(500, map["error" := e])
      case Success(_) =>
        match produced
        case Failure(e) => Response(500, map["error" := e])
        case Success(p) =>
          Response(200, map["base_image" := p.baseImage, "image_with_hole" := p.imageWithHole, "prediction" := p.prediction])
  }

  /**
   * A request rejected by validation is answered without looking at the
   * image: neither what decoding would give nor what the later steps would
   * produce changes the response.
   */
  lemma ValidationPrecedesProcessing<F>(req: Request, d1: Option<F>, p1: Result<Payloads>, d2: Option<F>, p2: Result<Payloads>)
    requires !HasValidFile(req)
    ensures ProcessImage(req, d1, p1) == ProcessImage(req, d2, p2)
  {
  }

  /** An undecodable image is answered without running the later steps. */
  lemma DecodeFailurePrecedesInference<F>(req: Request, decoded: Option<F>, p1: Result<Payloads>, p2: Result<Payloads>)
    requires decoded.None?
    ensures ProcessImage(req, decoded, p1) == ProcessImage(req, decoded, p2)
  {
  }
}
