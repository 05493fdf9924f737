# Ticket scanner: a verified model of `recieve.js`

`recieve.js` is the page script of a ticket scanner. A camera button starts the
rear camera; on every animation frame whose video has enough data buffered
(`readyState === HAVE_ENOUGH_DATA`), the frame goes to a QR decoder; the first code
found is decrypted with a fixed AES passphrase and parsed as JSON into a ticket
(`name`, `key`, `number`, `email`). The ticket's store path is
`"{name}'s ticket ID {last six characters of key}"`. If that path exists under
`Unused/`, the stored record is copied to `Used/` and then deleted from
`Unused/` ("Ticket Approved"); if it does not, the scan is "Ticket Invalid or
Used"; any exception on the way is "Scan Error". Whatever the outcome, the
camera is stopped afterwards.

This project models that core in Dafny:

- `wrappers.dfy` — `Option` and the `Result` of a store request.
- `tickets.dfy` — the parsed payload, ECMAScript `String.prototype.slice`
  with one argument, `key.slice(-6)`, and the derived path, with the proof that
  the path identifies the pair (holder name, key suffix).
- `store.dfy` — the remote database as a class with two partition maps
  (`unused`, `used`) and a log of the requests issued. Every request takes a
  `fails` flag. A rejected request changes nothing.
- `redemption.dfy` — the redemption transition `Redeem` as a function on
  values, the outcome messages, and the properties of the transition. These
  include the proof that, under sequential scans, a path is approved at most
  once.
- `scanner.dfy` — the page's module-level variables (`videoEl`,
  `cameraStream`, `rafId`, `scanning`) as a class `Scanner`. Its methods
  mirror `startCamera`, `stopCamera`, `scanLoop`/`tick`, `handleQRCode` and the
  close handler. The postconditions of `StopCamera`, `HandleQRCode`,
  `ScanLoop` and `StartCamera` tie the new state to a specification function
  on values (`Stop`, `HandleSpec`, `LoopSpec`, `StartSpec`). `Redeeming`, the
  `try` block of `handleQRCode`, is tied to `Redeem`. `Close` states its new
  state directly, as the old one with `scanning` cleared. The lifecycle
  properties are proved about the specification functions.

Inputs the script gets from the browser are parameters:
- `getUserMedia` gives `camera: Option<MediaStream>`.
- `play()` gives `playOk: bool`.
- What each animation frame shows the decoder is a `Frame` (`NotReady`, or `Ready` with the decoder's `Option<string>`). The tick loop consumes one frame per tick. The sequence is never empty, because `scanLoop` runs its first tick at once.
- Which Firebase requests are rejected is given by `StoreFaults`.
- Decryption plus `JSON.parse` is the scanner's constant `decode: string -> Option<Ticket>`.
- `requestAnimationFrame` handles come from a counter: the n-th request returns n.
- `released` records the streams whose tracks were stopped.

Behaviour of the code that the model keeps, although a reader might expect
otherwise:
- The close button only clears `scanning` and hides the popup. It does not stop the camera or the loop (`Scanner.Scanner.Close`).
- `startCamera` is guarded by `videoEl`, not by `scanning`, and never touches `scanning`.
- When `play()` rejects, `videoEl` and `cameraStream` stay set, and the stream is not released. From then on every camera-button press is a no-op (`Scanner.FailedPlayBlocksRestart`).
- A decoded empty string is falsy in `code?.data`, so the loop keeps polling (`Scanner.Decodable`).
- A payload without a string `key` throws in `data.key.slice`. This is a Scan Error before any store request.

## Model

| member | source | states |
|---|---|---|
| `Tickets.Slice` | recieve.js:47 | the result is a suffix of the string; a negative start keeps the last `-start` characters (the whole string when shorter), a non-negative start drops `start` characters (everything when past the end) |
| `Tickets.Last6` | recieve.js:47 | `key.slice(-6)` is the last six characters when the key has at least six, otherwise the whole key |
| `Tickets.DerivedPath` | recieve.js:47 | the path starts with the holder name followed by `'s ticket ID `, ends with the last six characters of the key (the whole key when shorter), and has exactly that length |
| `Tickets.DerivedPathInjective` | recieve.js:47-48 | two payloads get the same store path if and only if they have the same holder name and the same key suffix |
| `Store.Written` | recieve.js:52 | `set` stores the value at the path of its partition, keeps every other entry of that partition and leaves the other partition alone |
| `Store.Removed` | recieve.js:53 | `remove` deletes exactly that path from its partition, keeps every other entry and leaves the other partition alone |
| `Store.TicketStore.Read` | recieve.js:48-51 | `get` logs the request, changes no data, and yields the stored record exactly when the path exists; a rejected request yields `Failed` |
| `Store.TicketStore.Write` | recieve.js:52 | `set` logs the request; on success the store is `Written(...)`, on rejection it is unchanged |
| `Store.TicketStore.Delete` | recieve.js:53 | `remove` logs the request; on success the store is `Removed(...)`, on rejection it is unchanged |
| `Redemption.Redeem` | recieve.js:43-77 | no store request unless decrypt, parse and slice succeed, then `Unused` is read first; Approved iff the path is in `Unused` and all three requests succeed, and then the path leaves `Unused`, `Used` holds the previously stored record (not the payload), every other key of both maps is unchanged and the requests were get, set, remove in that order; Invalid iff the read succeeds and finds nothing, with one read and no change; a failed get (one request) or a failed set (get and set issued) leaves the store unchanged; a successful set followed by a failed remove is a Scan Error with the record written to `Used` and still in `Unused`, and that is the only way an error changes the store; a remove is issued only after a successful set; no path is ever lost and `Unused` never gains a path (a `set` overwrites any record already at the `Used` path) |
| `Redemption.PathOf` | recieve.js:44-47 | definition, no contract of its own: the throw points of decrypt, parse and `data.key.slice`, which yield no path; its effect (no store request without a path, the read of `Unused` first) is stated by `Redeem` |
| `Redemption.AtMostOneApproval` | recieve.js:48-53 | over any sequence of scans with any payloads and store failures, each path is approved at most once, and never if it was not in `Unused` at the start |
| `Redemption.ReplayIsInvalid` | recieve.js:49-53 | scanning a just-approved ticket again gives "Ticket Invalid or Used" whenever the read succeeds |
| `Redemption.ScenarioApproved` | recieve.js:47-56 | Alice with key `ABCDEF123456` and `Unused/Alice's ticket ID 123456` present is approved; `Unused` becomes empty and `Used` gains the stored record |
| `Redemption.ScenarioInvalid` | recieve.js:47-66 | the same payload with that path absent is Invalid, one read and no change |
| `Scanner.Stop` | recieve.js:112-127 | `stopCamera` leaves no video, no stream, no pending frame and a cleared guard, stops the held stream's tracks once, and changes nothing when already stopped (idempotent) |
| `Scanner.Decodable` | recieve.js:137-144 | definition, no contract of its own: the `readyState` test and the truthiness of `code?.data`; what it decides is stated by `FirstCode` and `LoopSpec` (the first such frame is the one handled) |
| `Scanner.Ticked` | recieve.js:148 | after `n` rescheduling ticks the video, stream, guard and released streams are unchanged, `n` frames more have been requested, and `rafId` holds the last requested handle (unchanged when `n` is 0) |
| `Scanner.FirstCode` | recieve.js:135-149 | the index found is of a frame that yields a non-empty code and no earlier frame does; no index means no frame does |
| `Scanner.HandleSpec` | recieve.js:35-81 | while `scanning` is set the handler changes nothing and yields nothing; otherwise its outcome, store and appended requests are exactly those of one `Redeem`, and it ends idle with the stream released, on every outcome |
| `Scanner.LoopSpec` | recieve.js:130-150 | the loop does nothing without a video; the one string handed to the handler is the first code any frame yields, and the new state is one handling of it after the earlier ticks rescheduled themselves; while no code is found the store is untouched, the camera is kept and `rafId` holds the frame requested by the last tick; a handled code ends the session idle |
| `Scanner.StartSpec` | recieve.js:84-109 | a start with a video present is a no-op; a denied camera changes nothing at all; a failed `play()` keeps the video and stream and never starts the loop; the loop starts if and only if the camera is granted and plays, and its effect is then the scan loop's from the session holding the new video and stream |
| `Scanner.FailedPlayBlocksRestart` | recieve.js:85-108 | after a failed `play()` every later start is ignored |
| `Scanner.ReleasedOncePerSession` | recieve.js:84-127 | a session started from idle that decodes a code ends idle with the granted stream released exactly once, whatever the outcome |
| `Scanner.Scanner.constructor` | recieve.js:15-19 | the session starts with no video, no stream, no pending frame and the guard cleared |
| `Scanner.Scanner.StopCamera` | recieve.js:112-127 | the new session is `Stop` of the old one |
| `Scanner.Scanner.HandleQRCode` | recieve.js:35-81 | the new session, store and request log are `HandleSpec` of the old ones, and the returned outcome is its outcome |
| `Scanner.Scanner.Redeeming` | recieve.js:43-77 | the outcome, the new store and the appended requests are those of `Redeem` for the decoded payload |
| `Scanner.Scanner.ScanLoop` | recieve.js:130-150 | the new state and the loop's result are `LoopSpec` of the old state and the frames seen |
| `Scanner.Scanner.StartCamera` | recieve.js:84-109 | the new state and the result are `StartSpec` of the old state and the browser's answers |
| `Scanner.Scanner.Close` | recieve.js:154-157 | only the `scanning` guard is cleared |

## Left out

- Presentation: `doFlash`, `showScanPopup`, the `setTimeout` flash reset, the panel texts and `console.error`. These are UI only. The three popup texts correspond to the `Outcome` constructors, and "Cannot access camera" to `CannotAccessCamera`.
- Camera acquisition and playback (`getUserMedia`, `play`, the video element's DOM insertion, `pause`, `removeChild`). These are browser I/O. They are modelled only as the inputs `camera` and `playOk` and as setting or clearing `videoEl`.
- Canvas drawing and `jsQR`. These are a foreign library over pixel buffers. What a frame yields is the input `Frame`.
- AES decryption with the embedded passphrase, UTF-8 decoding and `JSON.parse`. These are foreign primitives. They form the abstract total function `decode`. How a parsed non-string `name` prints is folded into what `decode` returns. An array `key` is not modelled: its `slice(-6)` keeps up to six elements, and the template literal joins them with commas, so the path suffix can be longer than six characters, which no `DerivedPath` produces.
- Firebase networking. Each request is an in-memory map update that may be rejected. Also not modelled: the client's path validation (a `.`, `#`, `$`, `[`, `]` or an ASCII control character, U+0000 to U+001F or U+007F, anywhere in the path, holder name or key suffix, makes `ref` throw before any request is issued), nested `/` segments, and a partial write.
- Asynchrony: the `await` points, `requestAnimationFrame` callbacks and `cancelAnimationFrame`. This is host event-loop behaviour. Each method runs to completion. Not modelled: a second camera-button click during `await getUserMedia`, which passes the `videoEl` guard before the first click has set it, acquires a second stream and leaks the first; a close-button press or a second scanner interleaving with an in-flight handler; and so the duplicate approvals that concurrent scanners can cause. Cancelling a frame is modelled only as clearing `rafId`.
- Strings are Dafny `seq<char>` (Unicode scalar values). `slice(-6)` in JavaScript counts UTF-16 code units, which differs for keys with characters outside the Basic Multilingual Plane.
