# QR code generator: upload chain, colour codec, payload and preview logic

This project models the sequential core of a browser QR-code generator and proves properties of it in Dafny. The user types a URL or text. The page encodes either that text or, after an optional upload to an anonymous file host, the link the host returns. A preview draws the code, and the user can export it as a padded image. The model covers five pieces:

- **Upload fallback chain** (`QrUtils`): `uploadToCloud` tries file.io, 0x0.st and uguu.se in that order, each at most once. It returns the first link a service hands back and fails with one guidance message only when all three have failed. Each service has its own response parser: one JSON, two plain text.
- **Export geometry** (`QrUtils`): the padding and canvas arithmetic of `downloadQRWithLogo`.
- **Hex colour codec** (`ColorPicker`): `hexToRgb`, `rgbToHex` and the hex text box's change handler.
- **Payload resolution** (`Generator`): the page state `inputValue`, `cloudLink`, `qrValue` and `isUploading`, with one method per handler. It also defines the thresholds that gate the cloud panel, the character counter and the download button.
- **Render outcome** (`Preview`): placeholder, error box or canvas, chosen from the value's length and the `renderError` flag. The flag is set by the error boundary and cleared when the value or the level changes.

Supporting modules: `Wrappers` defines `Option` and `Result`. `JsString` defines JavaScript's `length` (UTF-16 code units), `startsWith` and `trim` (ECMAScript's whitespace set).

Modelling choices:

- The network is a parameter, a total function from a request to its `Transport` outcome: no answer, or a response with its `ok` flag and its body. The body is given both as text and as what `res.json()` makes of it. JSON parsing itself is not modelled.
- `UploadToCloud` returns the requests it sent, so "in order, at most once, nothing after the first success" is part of its contract.
- Each React handler, together with the `useEffect` re-runs it triggers, is modelled as one atomic method. The `[inputValue, cloudLink]` effect re-derives `qrValue` only when one of its two dependencies changed. This matters for `FinishUpload`.
- `Math.floor(qrSize * 0.2)` is modelled as `qrSize / 5` on naturals. The two agree for every size the slider offers (128..512, `QRGenerator.jsx:147-148`) and for every integer size far beyond that. For sizes of about 6.76·10^15 and up, the rounded double product can reach the next integer: `7000000000000004 * 0.2` floors to 1400000000000001, where `/ 5` gives 1400000000000000.
- The colour channels are naturals. Channels from `hexToRgb` are always 0..255, and the round trips are stated for that range.
- Dafny strings are sequences of Unicode scalar values. JavaScript's `.length` counts UTF-16 code units, so every length threshold goes through `JsString.Utf16Length`, which counts a character above U+FFFF twice. These thresholds are the panel (`QRGenerator.jsx:83`), the counter (`QRGenerator.jsx:156-158`) and the preview limit (`QRPreview.jsx:78`).
- There is no single classification of payload sizes. The counter uses 1500 and 2000 (`QRGenerator.jsx:156-158`) and the preview refuses above 2500 (`QRPreview.jsx:78`). `Generator.OversizeIsRecommended` relates the two.

## Model

| member | source | states |
|---|---|---|
| `QrUtils.ExportGeometry` | src/utils/qrUtils.js:28-44 | The padding is the integer part of a fifth of the size. The canvas side is the size plus twice the padding. The code is drawn at its own size, with equal margins inside the canvas. The fill is always `#ffffff`. |
| `QrUtils.ExportIgnoresBackground` | src/utils/qrUtils.js:28-41 | The export layout is the same whatever background colour is passed. |
| `QrUtils.ExportAtDefaultSize` | src/utils/qrUtils.js:30-31 | At size 256 the padding is 51 and the exported image is 358 pixels square. |
| `QrUtils.RequestFor` | src/utils/qrUtils.js:74-109 | Builds the multipart POST for one service. What every request carries is stated on `QrUtils.UploadToCloud`. |
| `QrUtils.Truthy` | src/utils/qrUtils.js:86-87 | JavaScript truthiness as `if (json.success)` and `json.message ||` use it: `false`, `0`, `""`, `null` and `undefined` are falsy, and every object or array is truthy. |
| `QrUtils.ParseFileIoAsWritten` | src/utils/qrUtils.js:84-88 | The file.io parser as the program has it. A truthy `success` yields whatever `link` holds. Otherwise it fails with `json.message` or `'Upload failed'`, and an unreadable body fails too. Pinned down by `QrUtils.FileIoMissingLinkAccepted` and `QrUtils.FileIoParsersAgree`. |
| `QrUtils.FileIoMissingLinkAccepted` | src/utils/qrUtils.js:84-88 | The file.io parser as written accepts `{"success": true}` without a link and returns `undefined`, a falsy link. The corrected parser rejects that reply. |
| `QrUtils.ParseFileIoReply` | src/utils/qrUtils.js:84-88 | A file.io reply succeeds exactly when it is a JSON document whose `success` is truthy and whose `link` is a non-empty string. The link returned is non-empty. |
| `QrUtils.FileIoParsersAgree` | src/utils/qrUtils.js:84-88 | The corrected parser succeeds exactly where the program returns a truthy string link, and it returns the same link. Where the program fails, with `json.message` or `'Upload failed'`, the corrected parser fails with the same error. |
| `QrUtils.ParseTextReply` | src/utils/qrUtils.js:95-99 | A link from the text parser always starts with `http`. |
| `QrUtils.TextReplyAccepted` | src/utils/qrUtils.js:110-114 | The text parser accepts exactly the bodies that start with `http`. The link is the body minus its whitespace tail: a prefix of the body, ending in a non-whitespace character, with only whitespace removed. |
| `QrUtils.LeadingWhitespaceRejected` | src/utils/qrUtils.js:96-98 | The prefix check comes before the trim, so a body that starts with whitespace is rejected with 'Invalid response'. |
| `QrUtils.Attempt` | src/utils/qrUtils.js:121-138 | A transport error and a non-ok status each count as a failure of that service. With an ok status the service's own parser decides. A successful link is non-empty, and for the text services it starts with `http`. |
| `QrUtils.Requests` | src/utils/qrUtils.js:120-127 | The requests the chain would send for the data, one per service, in declared order. |
| `QrUtils.Outcomes` | src/utils/qrUtils.js:120-139 | What each service's attempt would yield under the given network, in declared order. |
| `QrUtils.FirstOk` | src/utils/qrUtils.js:120-139 | Finds the first success: its index holds a success and every earlier outcome is a failure. It returns none exactly when every outcome is a failure. |
| `QrUtils.UploadToCloud` | src/utils/qrUtils.js:73-142 | Services are tried in declared order, each at most once. The result is the link of the first service that succeeds, and the requests sent are exactly those up to and including that service. If all three fail, the result is the single 'All cloud storage services are currently unreachable…' error, after all three requests. With the corrected file.io parser (see Findings), a returned link is never empty. Every request sent is a POST of the same `content.txt` file (`text/plain`) holding the data. The j-th request goes to the j-th service's endpoint under its field name (`file` or `files[]`). |
| `QrUtils.FirstOkIsUnique` | src/utils/qrUtils.js:129-132 | A success preceded only by failures is the one the chain returns. |
| `QrUtils.SecondServiceRescues` | src/utils/qrUtils.js:133-138 | If file.io fails and 0x0.st succeeds, 0x0.st's link is the result. The failure is swallowed, whatever uguu.se would answer. |
| `QrUtils.ResultIgnoresLaterServices` | src/utils/qrUtils.js:129-132 | Two outcome sequences that agree up to and including a success have the same first success. Services after the winner cannot influence the result. |
| `QrUtils.AttemptAsWritten` | src/utils/qrUtils.js:121-138 | One attempt as the program has it: the text services as in `QrUtils.Attempt`, and file.io through the parser as written. |
| `QrUtils.OutcomesAsWritten` | src/utils/qrUtils.js:120-139 | What each service's attempt would yield as the program has it, in declared order. |
| `QrUtils.MissingLinkStopsChainAsWritten` | src/utils/qrUtils.js:84-132 | As written, an ok file.io reply `{"success": true}` is the chain's first success. It yields `undefined`, so 0x0.st is never asked. With the corrected parser the same reply is a failure of file.io and the chain goes on. |
| `JsString.Utf16Length` | src/components/QRPreview.jsx:78 | JavaScript's `length`: at least the number of characters and at most twice it. |
| `JsString.BmpLengthIsSize` | src/components/QRPreview.jsx:78 | For text without characters above U+FFFF, `length` is the number of characters. |
| `JsString.AstralLengthIsDouble` | src/components/QRGenerator.jsx:156-158 | For text made only of characters above U+FFFF, such as most emoji, `length` is twice the number of characters. |
| `JsString.StartsWith` | src/utils/qrUtils.js:97 | `startsWith`: the prefix is the string's first characters. |
| `JsString.Trim` | src/utils/qrUtils.js:97 | `trim` is `TrimStart` after `TrimEnd`. Their contracts say what is removed. |
| `JsString.TrimEnd` | src/utils/qrUtils.js:97 | Returns the longest prefix not ending in whitespace. Everything removed is whitespace. |
| `JsString.TrimStart` | src/utils/qrUtils.js:97 | Returns the longest suffix not starting with whitespace. Everything removed is whitespace. |
| `JsString.TrimKeepsSolidPrefix` | src/utils/qrUtils.js:112 | On a string that starts with a whitespace-free prefix such as `http`, `trim` removes only the tail and the prefix survives. |
| `ColorPicker.IsHexColour` | src/components/ColorPicker.jsx:5 | The hex strings the regex accepts: six hex digits in either case, optionally after one `#`. |
| `ColorPicker.ColourDigits` | src/components/ColorPicker.jsx:5-9 | The six digits the regex captures: the string without its leading `#`. |
| `ColorPicker.HexToRgb` | src/components/ColorPicker.jsx:4-11 | Every channel lies in 0..255. Any string that is not an optional `#` followed by six hex digits reads as black. |
| `ColorPicker.PairValue` | src/components/ColorPicker.jsx:7-9 | `parseInt` of a two-digit hex pair is at most 255. |
| `ColorPicker.PairDigits` | src/components/ColorPicker.jsx:7-9 | Dividing a pair's value by sixteen gives back its two digits as quotient and remainder. |
| `ColorPicker.ShorthandReadsBlack` | src/components/ColorPicker.jsx:5-10 | Three-digit shorthand, with or without `#`, reads as black. |
| `ColorPicker.ToHexString` | src/components/ColorPicker.jsx:53 | `n.toString(16)`. Its digits are specified by `ColorPicker.ToHexStringDigits`. |
| `ColorPicker.PadStart` | src/components/ColorPicker.jsx:53 | `padStart(width, fill)` with a one-character fill. Specified by `ColorPicker.PadStartSpec`. |
| `ColorPicker.ChannelHex` | src/components/ColorPicker.jsx:53 | `toHex`: one channel as `toString(16)` padded to two characters. Specified by `ColorPicker.ChannelHexOfByte`. |
| `ColorPicker.RgbToHex` | src/components/ColorPicker.jsx:52-55 | `#` followed by the three channels' `toHex`. Its shape and round trips are `ColorPicker.RgbToHexShape`, `ColorPicker.HexRoundTrip` and `ColorPicker.RgbRoundTrip`. |
| `ColorPicker.ToHexStringDigits` | src/components/ColorPicker.jsx:53 | `n.toString(16)` writes at least one digit, all lowercase, and the digits spell `n` in base sixteen. |
| `ColorPicker.PadStartSpec` | src/components/ColorPicker.jsx:53 | `padStart` puts fill characters in front until the string reaches the width, and leaves a string that is already that long unchanged. |
| `ColorPicker.ChannelHexOfByte` | src/components/ColorPicker.jsx:53 | A channel in 0..255 is written as exactly two lowercase digits, high digit first, zero-padded. |
| `ColorPicker.RgbToHexShape` | src/components/ColorPicker.jsx:52-55 | For 0..255 channels, `rgbToHex` is `#` followed by six lowercase digits, two per channel in r, g, b order. |
| `ColorPicker.HexRoundTrip` | src/components/ColorPicker.jsx:52-55 | `hexToRgb(rgbToHex(c)) == c` for every colour with channels in 0..255. |
| `ColorPicker.RgbRoundTrip` | src/components/ColorPicker.jsx:4-11 | For a valid 6-digit hex `h`, with or without `#`, `rgbToHex(hexToRgb(h))` is `#` followed by `h`'s digits in lower case. |
| `ColorPicker.IsHexEntry` | src/components/ColorPicker.jsx:173 | What the box forwards: exactly 3 or exactly 6 hex digits, in either case. |
| `ColorPicker.RemoveFirstHash` | src/components/ColorPicker.jsx:169 | `replace('#', '')` leaves a string without `#` unchanged. |
| `ColorPicker.RemoveFirstHashDropsFirst` | src/components/ColorPicker.jsx:169 | `replace('#', '')` removes exactly the first `#`. The text before it and everything after it are kept, later `#`s included. |
| `ColorPicker.HexField.constructor` | src/components/ColorPicker.jsx:59 | The text box starts out holding the colour it was given. |
| `ColorPicker.HexField.Shown` | src/components/ColorPicker.jsx:169 | What the box displays: `hexInput` with its first `#` removed. Specified by `ColorPicker.RemoveFirstHash`, `ColorPicker.RemoveFirstHashDropsFirst` and `ColorPicker.EditIsEchoed`. |
| `ColorPicker.HexField.OnTextChange` | src/components/ColorPicker.jsx:170-176 | `hexInput` always becomes `'#' + val`, and the box shows `val`. `'#' + val` is passed on only when `val` is exactly 3 or 6 hex digits. |
| `ColorPicker.EditIsEchoed` | src/components/ColorPicker.jsx:169-172 | After an edit the box shows exactly the typed text. |
| `ColorPicker.SixDigitEntryReadable` | src/components/ColorPicker.jsx:173-174 | A forwarded 6-digit entry is a colour `hexToRgb` reads, and it comes back lower-cased from `rgbToHex`. |
| `ColorPicker.ShortEntryReadsBlack` | src/components/ColorPicker.jsx:173-174 | A forwarded 3-digit entry is passed on, yet `hexToRgb` reads it as black. |
| `Preview.Decide` | src/components/QRPreview.jsx:51-98 | The outcome the preview renders for its props and `renderError`. Specified by `Preview.DecideCases` and `Preview.CanvasGetsProps`. |
| `Preview.DecideCases` | src/components/QRPreview.jsx:51-80 | The placeholder is shown exactly for an empty value. The error box is shown exactly for a non-empty value over 2500 code units or with `renderError` set. The canvas is shown exactly for a non-empty value of at most 2500 code units with no error. |
| `Preview.CanvasGetsProps` | src/components/QRPreview.jsx:82-94 | When the canvas is drawn, it gets the value, size, colours and level exactly as passed. The library is never handed an empty or oversized value, or one whose last render failed. |
| `Preview.OversizeIgnoresStyle` | src/components/QRPreview.jsx:78-79 | A value over 2500 code units gets the error box whatever the size, colours, level and error flag. |
| `Preview.LimitIsStrict` | src/components/QRPreview.jsx:78 | A value of exactly 2500 code units still renders. |
| `Preview.AstralTextHitsLimitEarly` | src/components/QRPreview.jsx:78 | Text made only of characters above U+FFFF is refused from 1251 characters on, because each counts as two code units. |
| `Preview.BoxesFrameTheCode` | src/components/QRPreview.jsx:36-55 | The placeholder and error boxes are `size + 48` on each side. |
| `Preview.BoundaryKey` | src/components/QRPreview.jsx:85 | The boundary's `key`: the value followed by the level letter. Specified by `Preview.BoundaryKeyInjective`. |
| `Preview.BoundaryKeyInjective` | src/components/QRPreview.jsx:85 | Two boundary keys (value followed by level letter) are equal only for the same value and the same level. |
| `Preview.QRPreview.Shown` | src/components/QRPreview.jsx:51-98 | What the component renders from its current props and `renderError`: `Preview.Decide` applied to them. Its cases are `Preview.DecideCases`. |
| `Preview.QRPreview.constructor` | src/components/QRPreview.jsx:28-29 | The preview mounts with no error recorded and a fresh boundary keyed on its value and level. |
| `Preview.QRPreview.SetProps` | src/components/QRPreview.jsx:31-34 | New props replace the old. `renderError` survives only if both value and level are unchanged. The boundary is re-keyed and starts clean exactly when its record is cleared. |
| `Preview.QRPreview.LibraryRaised` | src/components/QRPreview.jsx:11-18 | When the library raises, the boundary catches it and `onError` sets `renderError`. The preview then shows the error box. |
| `Generator.Resolved` | src/components/QRGenerator.jsx:24-31 | What the effect encodes: the link when there is one, the input otherwise. |
| `Generator.Counter` | src/components/QRGenerator.jsx:156-158 | The counter's style from the encoded value's length. Specified by `Generator.CounterBoundaries`. |
| `Generator.QRGenerator.constructor` | src/components/QRGenerator.jsx:9-21 | The page starts with empty input, link and value, not uploading, size 256, colours `#000000` on `#ffffff`, level M. |
| `Generator.QRGenerator.RunValueEffect` | src/components/QRGenerator.jsx:24-31 | When the input or the link has changed, `qrValue` becomes the link if there is one and the input otherwise. When neither changed, `qrValue` stays as it was. |
| `Generator.QRGenerator.HandleInputChange` | src/components/QRGenerator.jsx:34-37 | An edit sets the input and clears the link, so the new text is what is encoded. Nothing else changes. |
| `Generator.QRGenerator.StartUpload` | src/components/QRGenerator.jsx:40-43 | With an empty input it is a no-op. Otherwise `isUploading` becomes true for the duration of the upload. |
| `Generator.QRGenerator.FinishUpload` | src/components/QRGenerator.jsx:44-54 | On success the link becomes both `cloudLink` and `qrValue`. On failure both keep their values. Either way `isUploading` ends false. |
| `Generator.QRGenerator.HandleCloudUpload` | src/components/QRGenerator.jsx:40-55 | With an empty input nothing changes. Otherwise the input goes through the fallback chain. The chain uses the corrected file.io parser (see Findings). The upload succeeds exactly when some service succeeds. The link adopted and encoded is then the first successful service's link. On failure the single guidance error is reported and the state is unchanged. The page ends not busy in both cases. |
| `Generator.QRGenerator.ResetCloudLink` | src/components/QRGenerator.jsx:122 | Reset clears the link and the input is encoded again. |
| `Generator.QRGenerator.SetSize` | src/components/QRGenerator.jsx:151 | The slider sets the size. |
| `Generator.QRGenerator.SetErrorLevel` | src/components/QRGenerator.jsx:173 | The level buttons set the error-correction level. |
| `Generator.QRGenerator.SetFgColor` | src/components/QRGenerator.jsx:191 | The foreground picker sets the foreground colour. |
| `Generator.QRGenerator.SetBgColor` | src/components/QRGenerator.jsx:198 | The background picker sets the background colour. |
| `Generator.QRGenerator.CloudPanelShown` | src/components/QRGenerator.jsx:83 | The cloud panel is shown for an input over 2000 code units or once there is a link. |
| `Generator.QRGenerator.UploadOffered` | src/components/QRGenerator.jsx:99 | The panel offers the upload button while there is no link. |
| `Generator.QRGenerator.UploadEnabled` | src/components/QRGenerator.jsx:102 | The upload button is disabled while an upload runs. |
| `Generator.QRGenerator.ResetOffered` | src/components/QRGenerator.jsx:99-124 | With a link, the panel shows it with Reset instead. |
| `Generator.QRGenerator.DownloadEnabled` | src/components/QRGenerator.jsx:224 | Download is disabled while nothing is encoded. |
| `Generator.QRGenerator.HandleDownload` | src/components/QRGenerator.jsx:58-66 | Without a canvas the user gets 'Please generate a QR code first' and nothing is exported. Otherwise the export uses the current size, and the code keeps its size on a white fill. |
| `Generator.PanelOffersOneAction` | src/components/QRGenerator.jsx:83-130 | The panel is shown exactly when an input over 2000 code units or a link exists. It offers the upload button while there is no link and Reset once there is one, never both. |
| `Generator.PanelMatchesCounter` | src/components/QRGenerator.jsx:83 | Without a link, the cloud panel appears exactly when the counter shows 'Cloud Recommended'. |
| `Generator.CounterBoundaries` | src/components/QRGenerator.jsx:156-158 | The counter is plain up to 1500 code units, yellow from 1501 to 2000 and red with 'Cloud Recommended' above 2000. The comparisons are strict. |
| `Generator.OversizeIsRecommended` | src/components/QRGenerator.jsx:156-158 | Any value the preview refuses for length is already flagged red by the counter. |
| `Generator.CounterBelowLimitRenders` | src/components/QRGenerator.jsx:156-158 | A non-empty value that the counter shows plain or yellow is drawn as it stands, unless a render fails. |
| `Generator.LinkReplacesInput` | src/components/QRGenerator.jsx:24-31 | With a non-empty link of at most 2500 code units, the preview draws the link, not the possibly oversized input. |
| `Generator.DownloadNeedsContent` | src/components/QRGenerator.jsx:224-225 | Download is enabled exactly when there is some input or a link. |

## Findings

| source | as written | input that shows it | evidently intended | confidence | as-written member | corrected member |
|---|---|---|---|---|---|---|
| src/utils/qrUtils.js:86 | `if (json.success) return json.link;`: any truthy `success` ends the chain with whatever `link` holds. | file.io answers 200 with `{"success": true}`. The chain returns `undefined` and never tries 0x0.st. `QRGenerator.jsx:46-47` set both `cloudLink` and `qrValue` to `undefined`, and the success alert is shown. The next render reads `qrValue.length` at `QRGenerator.jsx:156` and throws a TypeError. No error boundary surrounds the page, so it is torn down. The effect at 24-31 that would restore `qrValue` runs only after a commit, so it never runs. | A success reply without a usable link counts as that service failing, and the chain moves on. This is the fallback guarantee the rest of the chain keeps. | medium, not executed; by reading of the source | `QrUtils.ParseFileIoAsWritten` (shown by `QrUtils.FileIoMissingLinkAccepted` and, for the whole chain, `QrUtils.MissingLinkStopsChainAsWritten`) | `QrUtils.ParseFileIoReply` (with `QrUtils.FileIoParsersAgree`; used by `QrUtils.Attempt`) |

## Left out

- `fetch`, `FormData`, `Blob`, CORS mode and real HTTP. Each service's outcome is a parameter (`Transport`), and `FormData` becomes the `Request` value.
- JSON parsing. The result of `res.json()` is part of the given `Transport`. A JSON number is modelled as a real, and `NaN` cannot occur in JSON.
- Canvas creation, `fillRect`, `drawImage`, `toDataURL`, the anchor-click download, and `downloadQRCode`. These are DOM side effects: only the integer layout and the fill colour are kept.
- The unused `logoDataUrl` and `filename` parameters of `downloadQRWithLogo`. The first is inert; the second only names the saved file.
- `isValidUrl`: a thin wrapper over the browser's `URL` constructor.
- `rgbToHsv`, `hsvToRgb`, the sync effect that compares their floating-point round trip, `updateColor`, and the drag handlers of the saturation and hue areas. These are floating-point maths and mouse events. The `maxLength={6}` limit of the text box is a DOM attribute and is not modelled either.
- QR symbol encoding in `QRCodeCanvas`. It is an external library and appears only as the `LibraryRaised` event.
- QrUtils.ExportGeometry: uses exact division by 5. It does not model the double-precision rounding of `qrSize * 0.2`, which differs only for sizes of about 6.76·10^15 and up, far outside the slider's 128..512.
- Requests that never settle. The network is a total function, so every request either gets a response or fails at the transport, and every upload ends. `uploadToCloud` sets no timeout of its own (`qrUtils.js:123-127`). In the program a stalled `fetch` holds the chain on that service, and `isUploading` stays true until the browser gives up. A request the browser eventually abandons is a `NetworkError` in the model.
- `alert` and `console` calls. React's render scheduling: the transient render in which the boundary shows its own fallback before `onError` lands is folded into `LibraryRaised`. Overlapping uploads, and an upload whose input changes while it is in flight.
- `src/components/InputSelector.jsx` and `src/App.jsx`: markup, tab switching and plain `setState`. `inputType` is not part of the model.
- Generator.QRGenerator.HandleDownload: takes whether the canvas element exists as a parameter. It does not derive that from the preview's outcome, because the element lookup is a DOM query.
- Generator.QRGenerator.FinishUpload: requires a successful link to be non-empty. `UploadToCloud` guarantees this with the corrected file.io parser. With the parser as written, an empty-string link would leave `qrValue` empty while the input is not.
