# NovaVision image-generation lifecycle, modelled in Dafny

NovaVision is a one-page React front end. It sends a text prompt to an image-generation
endpoint and shows the PNG it returns, with a busy flag, an error banner, a download button
and a "New Image" button. This project models the component's request lifecycle as a
sequential state machine over its four state fields:

- `prompt`: a string.
- `image`: `None`, standing for `null`, or a data-URL string.
- `loading`: the busy flag.
- `error`: a string, where `""` means no error.

Files:

- `wrappers.dfy`: `Option`.
- `strings.dfy`: `String.prototype.trim` with the exact ECMAScript whitespace set, and
  `split`/`join` on one character.
- `data_url.dfy`: the `data:` URL syntax of section 2 of RFC 2397, with a parser that is
  proved to invert the formatter.
- `app.dfy`: the outcome of the request as an input datatype `Outcome`. It also holds the
  reducer-style specification (`Resolved` for a request that was sent, `Generated` for one
  click including the guard) and the class `App` with one method per user action.
  `GenerateImage` follows the handler step by step. It runs the guard, then `Request`: the
  start step, the `try` body (`AwaitResponse`, with its early returns), the `catch` and the
  `finally`. The contracts tie the final state to `Generated` and `Resolved`.

The request is an input, not a call. `NotOk` is a non-2xx status. `OkNoImage` is a 2xx
response without `image_base64`. `OkImage(b64)` is a 2xx response that carries it. `Thrown`
covers a rejected `fetch`, a failing `res.json()` and reading the field of a `null` body.
An `OkImage("")` falls into the "no image" branch, because `""` is falsy in JavaScript.

A non-2xx status and a thrown exception get different messages, and the model keeps them
apart. The image stays a data-URL string, and nothing decodes it to bytes.

## Model

| member | source | states |
|---|---|---|
| `Strings.Trim` | frontend/src/App.js:11 | `prompt.trim()` is empty exactly when every character is ECMAScript whitespace. A non-empty result neither starts nor ends with whitespace. |
| `Strings.TrimStart` | frontend/src/App.js:11 | Leading whitespace removed: the result is a suffix of the input, everything dropped is whitespace, and the result does not start with whitespace. |
| `Strings.TrimEnd` | frontend/src/App.js:11 | Trailing whitespace removed: the result is a prefix of the input, everything dropped is whitespace, and the result does not end with whitespace. |
| `Strings.IsWhitespace` | frontend/src/App.js:11 | The characters `trim` removes: ECMAScript WhiteSpace (TAB, VT, FF, ZWNBSP and the Unicode space separators) and LineTerminator (LF, CR, U+2028, U+2029). |
| `Strings.IsBlank` | frontend/src/App.js:11 | `!prompt.trim()` holds exactly when every character of the prompt is whitespace, the empty prompt included. |
| `ImageApp.GenerateDisabled` | frontend/src/App.js:99 | The button is disabled, and the guard of line 11 returns, exactly when `loading` is set or the prompt is all whitespace. |
| `ImageApp.App.constructor` | frontend/src/App.js:5-8 | Initial state: empty prompt, no image, not loading, no error. This state is settled. |
| `ImageApp.App.SetPrompt` | frontend/src/App.js:91 | Typing changes only `prompt` and keeps the invariant. |
| `ImageApp.Resolved` | frontend/src/App.js:13-57 | After a sent request, the session is settled: not loading, never an image and an error together, and any image is a PNG data URL. The prompt is kept. An image is present iff `image_base64` is truthy, and the error is empty iff it is. |
| `ImageApp.HasImage` | frontend/src/App.js:37 | `image_base64` is truthy: the response is ok, carries the field, and the field is not `""`. |
| `ImageApp.Generated` | frontend/src/App.js:10-58 | One click as a reducer. While disabled, the session is unchanged. Otherwise it ends settled and not loading. A settled session stays settled either way. |
| `ImageApp.App.GenerateImage` | frontend/src/App.js:10-58 | A request is sent iff `loading \|\| !prompt.trim()` (the `disabled` condition of line 99) is false. Otherwise nothing changes. After a sent request, `loading` is false, and each outcome gives its error message or image: non-ok gives the credits message, no or empty `image_base64` gives the no-image message, an image gives `"data:image/png;base64," + b64` with no error, a throw gives the network message. The final state equals `Generated` (unchanged while disabled, `Resolved` otherwise), and the invariant holds afterwards. |
| `ImageApp.App.Request` | frontend/src/App.js:13-57 | Start step, `try` body, `catch` and `finally` in order. The final state is `Resolved` for the prompt and outcome, so clearing `loading` twice on the early-return paths is harmless. |
| `ImageApp.App.AwaitResponse` | frontend/src/App.js:17-47 | Entered only in the started state (`loading`, `error == ""`, no image). That is what lines 13-15 leave. The non-ok and no-image early returns set their message and clear `loading`. An image sets `image` and leaves `error` empty. A throw changes nothing before the `catch`. |
| `ImageApp.PngDataUrl` | frontend/src/App.js:47 | The URL starts with `"data:image/png;base64,"` and the payload is exactly what follows it. It is a valid image URL iff the payload is non-empty. |
| `ImageApp.PngDataUrlParses` | frontend/src/App.js:47 | `"data:image/png;base64," + b64` parses, as an RFC 2397 data URL, to media type `image/png`, base64, with `b64` as data. |
| `ImageApp.PngImageParses` | frontend/src/App.js:47 | Any URL the invariant allows as `image` parses as a PNG, base64 data URL with a non-empty payload. |
| `DataUrl.Parse` | frontend/src/App.js:47 | Fails exactly when the `data:` scheme or a following comma is missing. On success, formatting the parts gives the URL back. |
| `DataUrl.ParseFormat` | frontend/src/App.js:47 | Parsing a formatted URL gives its parts back when the media type has no comma and cannot be confused with a `;base64` marker. |
| `ImageApp.App.DownloadImage` | frontend/src/App.js:60-64 | It returns `None` (no link, no click) exactly when `image` is falsy: null or `""`. Otherwise the link's `href` is the held image. In a valid state, a present href is a PNG data URL. |
| `ImageApp.App.NewImage` | frontend/src/App.js:139 | Sets `image` to null, leaves `prompt`, `loading` and `error` unchanged, and keeps the invariant. |
| `ImageApp.BannerLines` | frontend/src/App.js:110-115 | No rows when there is no error. Otherwise the rows joined with `"\n"` give the error back, and no row has a newline. |
| `ImageApp.ThreeLines` | frontend/src/App.js:26-30 | A message written as three newline-free lines joined by `"\n"`, as all three messages are, shows as exactly those three rows. |
| `ImageApp.NotOkMessageRows` | frontend/src/App.js:26-30 | The non-ok message shows as exactly its three source lines. |
| `ImageApp.NoImageMessageRows` | frontend/src/App.js:38-42 | The no-image message shows as exactly its three source lines. |
| `ImageApp.NetworkMessageRows` | frontend/src/App.js:50-54 | The network-error message shows as exactly its three source lines. |
| `Strings.Split` | frontend/src/App.js:112 | `error.split("\n")` is never empty, and no piece contains the separator. |
| `Strings.Join` | frontend/src/App.js:112 | Joining pieces with the separator between them, the inverse that `JoinSplit` and `SplitJoin` relate `Split` to. |
| `Strings.JoinSplit` | frontend/src/App.js:112 | `s.split(sep).join(sep) == s`. |
| `Strings.SplitJoin` | frontend/src/App.js:112 | Splitting the join of a non-empty list of separator-free lines gives the lines back. |

## Left out

- The `fetch` call, its headers, the JSON body and `res.json()`: network I/O, which the `Outcome` input replaces.
- React's asynchronous setters, batching, re-rendering and stale closure reads of `loading`. The fields are updated in order, so in the model `loading` is always false between actions. The `loading` half of the guard only matters under concurrent clicks, which the sequential model cannot show.
- The request is atomic in the model: `Request` runs from the start step to `finally` with no other action in between. Two effects of the `await` at lines 18 and 35 are lost. First, the textarea stays enabled during a request, so a prompt edited mid-request survives in the component, whereas `Resolved` keeps the old prompt. Second, a `fetch` that never settles leaves `loading` true and the button disabled for good, and `Outcome` has no case for it.
- A truthy `image_base64` that is not a string, such as a number, which JavaScript would coerce into the URL. The model types the field as a string.
- The JSX markup and CSS, apart from the banner's split on `"\n"`.
- The DOM work in `downloadImage` (creating, appending, clicking and removing the anchor) and its `Date.now()` file name: browser I/O and the clock.
- `console.error` logging.
- All of `backend/main.py`: routing, CORS, environment loading, the Hugging Face client call, PNG encoding and `base64.b64encode`, which are foreign libraries and network I/O.
- Base64 itself: the payload is an opaque string.
- The RFC 2397 default media type (`text/plain;charset=US-ASCII` when omitted). `DataUrl.Parse` keeps the media type as written.
