# WebGan capture and inpainting request: a Dafny model

WebGan is a browser page that snapshots a webcam frame and sends it to a
Flask backend. The backend cuts a centred square of random noise into the
image, asks a generator network to inpaint it, and returns three JPEG images:
the base image, the image with the hole, and the prediction. This project
models the two pieces of logic in that pipeline:

- `app.dfy`, module `App` (backend/app.py):
  - the noise hole: an H x W x 3 byte buffer is copied and a centred mh x mw
    window of the copy is overwritten with a given noise block. This is
    `AddNoiseHole`, a method over `array3<byte>` whose loops fill the window;
  - the `/process_image` handler's decisions, as a pure function over an
    abstract request. The outcomes of decoding and of the later steps
    (inference, encoding) are its parameters.
- `capture.dfy`, module `Capture` (frontend/components/Capture.tsx):
  - the `WebcamCapture` component's two state fields, `capturedImage` and
    `results`, in a class. Its methods are `Capture`, `Upload`,
    `CompleteSuccess` and `CompleteFailure`. The asynchronous response of an
    upload is a separate completion event;
  - the pure helpers of the render: the JPEG data URLs, the endpoint, and the
    96-pixel square drawn over both the live view and the preview.
- `wrappers.dfy`, module `Wrappers`: `Option` and `Result`.

What the component does and does not keep track of:

- The component holds only `capturedImage` and `results`. Nothing records
  that an upload is in progress or that one has failed.
- Every successful completion overwrites `results`. There is no generation
  check tying a response to the snapshot it was issued for.
  `OutOfOrderCompletion` shows the earlier upload's results ending up on
  screen beside the later snapshot.
- `capture` never clears `results`, so they stay rendered after a new
  snapshot (`RecaptureAfterSuccess`).

The ghost counter `inFlight` is bookkeeping only: it counts issued uploads
that have not completed, so that a completion can only follow an issued
upload. Completions are not matched to the upload they answer.

## Model

| member | source | states |
|---|---|---|
| App.WindowStart | backend/app.py:25-28 | the window origin is the floor of half the spare room; the margin before the window equals the margin after it or is one less; a mask that fits gives a window inside the axis |
| App.DefaultHoleWindow | backend/app.py:18-28 | with MASK_SIZE 48x48 on the 128x128 resized image, the hole covers rows and columns 40 to 87, inside the image |
| App.AddNoiseHole | backend/app.py:22-34 | the result is a buffer distinct from the input and the noise, of the input's H x W x 3 shape; every pixel outside the centred window equals the input pixel; every window pixel (i, j, c) equals noise[i, j, c]; noise values are bytes in 0..255; the input is only read |
| App.Preprocess | backend/app.py:40-42 | a failed decode raises "Invalid image data received."; a successful one goes on with the decoded image |
| App.ProcessImage | backend/app.py:74-103 | no `file` part gives 400 "No file received."; a falsy part or an empty filename gives 400 "Invalid file."; status is 400 exactly when the file is not valid; a valid file that does not decode gives 500 with the decode message; 500 exactly when decoding or a later step fails; 200 responses have exactly the keys base_image, image_with_hole and prediction, holding the payloads; every error response has the single key error |
| App.ValidationPrecedesProcessing | backend/app.py:77-86 | a request rejected by either 400 check gets the same response whatever decoding and the later steps would give |
| App.DecodeFailurePrecedesInference | backend/app.py:84-89 | an undecodable image gets the same response whatever inference and encoding would give |
| Capture.DataUrl | frontend/components/Capture.tsx:83-91 | a result source starts with "data:image/jpeg;base64," and the rest is the payload |
| Capture.PayloadOfDataUrl | frontend/components/Capture.tsx:83-91 | reading the payload back from a rendered source gives the payload it was built from |
| Capture.DataUrlOfPayload | frontend/components/Capture.tsx:83-91 | every JPEG data URL is the rendering of the payload it carries, so rendering is a bijection onto data URLs |
| Capture.ApiUrl | frontend/components/Capture.tsx:33 | the endpoint base is REACT_APP_API_URL when it is set and non-empty, otherwise http://localhost:5000; it is never empty |
| Capture.UploadUrl | frontend/components/Capture.tsx:33-34 | the POST goes to the endpoint base followed by /process_image |
| Capture.Render | frontend/components/Capture.tsx:15-97 | the live view carries a 96 x 96 square; the preview is shown exactly when a non-empty snapshot is held, shows that snapshot and carries the same square; without results nothing is rendered for them; with results, the three sources carry base image, image with hole and prediction, in that order |
| Capture.WebcamCapture.constructor | frontend/components/Capture.tsx:7-13 | nothing is captured and there are no results at first |
| Capture.WebcamCapture.Capture | frontend/components/Capture.tsx:17-22 | with no webcam ref the snapshot is unchanged; otherwise it becomes the screenshot, or null when the screenshot is null or empty; results are never touched; no empty snapshot is ever held |
| Capture.WebcamCapture.Upload | frontend/components/Capture.tsx:24-34 | with no snapshot nothing is issued; otherwise exactly one POST of the snapshot, under field "file" named captured_image.jpg, to the upload URL; the component state does not change |
| Capture.WebcamCapture.CompleteSuccess | frontend/components/Capture.tsx:36-40 | results are replaced wholesale by the three response fields; the snapshot is unchanged |
| Capture.WebcamCapture.CompleteFailure | frontend/components/Capture.tsx:41-43 | a failure changes neither the results nor the snapshot |
| Capture.OutOfOrderCompletion | frontend/components/Capture.tsx:17-44 | each of two uploads carries its own snapshot; when they complete in reverse order, the first snapshot's results are shown while the second snapshot is held |
| Capture.RecaptureAfterSuccess | frontend/components/Capture.tsx:17-44 | after a success and a new capture, the preview shows the new snapshot and the earlier three result images are still rendered |
| Capture.FailureKeepsResults | frontend/components/Capture.tsx:24-44 | a failed upload after a successful one leaves the earlier results and the snapshot in place |

## Left out

- Model loading and `run_inference` (backend/app.py:13,56-62): a TensorFlow network and floating-point scaling. Their outcome is the `produced` parameter of `ProcessImage`.
- The body of `preprocess_image` beyond its failed-decode check (backend/app.py:44-53): OpenCV colour conversion, resizing and division by 255 are floating-point library code.
- `image_to_base64` (backend/app.py:65-71): JPEG and base64 encoding by PIL and the standard library. The payloads are opaque strings.
- The random noise (`np.random.randint`, backend/app.py:31): the noise block is a parameter of `AddNoiseHole`. Its values are in 0..255 because they are bytes.
- AddNoiseHole: requires the mask to fit in the image. With a larger mask the window origin is negative and numpy's negative-index slicing applies, which is not modelled. `WindowStart` itself is defined for that case.
- AddNoiseHole: requires three channels. With any other channel count the noise block cannot be broadcast into the window and numpy raises.
- Flask routing, CORS, multipart parsing and `app.run` (backend/app.py:10,15,74,106-107). A request is reduced to its file parts. A part's truth value is kept as an abstract field.
- The webcam stream and `getScreenshot` (frontend/components/Capture.tsx:19,51-61): the screenshot and whether the ref is mounted are parameters of `Capture`.
- `fetch(...).blob()`, FormData and the axios POST (frontend/components/Capture.tsx:28-34): `Upload` returns the request it would issue. The response, or any failure of these steps, arrives later as `CompleteSuccess` or `CompleteFailure`.
- The `console.error` log of a failed upload (frontend/components/Capture.tsx:42).
- The interleaving of asynchronous events beyond what the completion events allow. Any completion may follow any issued upload.
- JSX layout, CSS and the page wrapper frontend/App.tsx.
