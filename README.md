# webrtc_video_demo in Dafny

A model of the browser side of the WebRTC video demo (`demo.js`). The page
does four things, and the model covers each of them:

- **Offer filtering** (`sdp.dfy`, `sdp_lines.dfy`). Before committing its
  offer, the page runs `removeCodec` on the SDP text, first for VP8 and then
  for VP9.
  - `removeCodec` removes:
    - the codec's `a=rtpmap` line;
    - every `a=rtcp-fb:<pt>` and `a=fmtp:<pt>` line;
    - the retransmission stream's `a=fmtp:<rtx> apt=<pt>` and `a=rtpmap:<rtx>` lines.
  - It drops both payload types from the `m=video` line.
  - It repeats until no rtpmap line for the codec is left.
  - `Sdp` models the regular expressions on the raw text: greedy `\d*` and
    `.*`, leftmost search, the global flag and the first-match `replace`.
  - `SdpLines` proves that, on a document whose lines are well formed (see
    "Left out"), one pass is exactly the line-level edit described above.
- **Negotiation** (`negotiation.dfy`). The module globals `peerConnection`,
  `dataChannel`, `candidates` and `hasReceivedSdp` become the fields of
  `Negotiator`.
  - Every handler becomes a method.
  - Every `await` splits its function in two. The first half adds an entry to
    `pending`. The second half is a method that takes the engine's result as
    an argument.
  - Calls into the WebRTC engine are logged in `engine`. Messages sent on the
    signalling socket are logged in `wire`.
  - `Valid` is kept by every method. It states:
    - candidates are buffered only while the gate (`hasReceivedSdp`) is shut;
    - connections are numbered in order;
    - every offer the page commits or sends is free of VP9 rtpmap lines.
  - Candidates are handed to the engine exactly once, in arrival order (`Delivered`).
- **Classifiers** (`classify.dfy`): browser detection from the user agent,
  and the status indicator.
- **Joystick panel** (`joystick.dfy`): gamepad selection, finding the
  selected pad, and detecting moved axes in place on the `axesCheck` array.

Behaviours of the code that the model keeps as written:

- **`setOffer` always throws.** Its first line tests `peerConnection`. Inside
  `setOffer` that name refers to the `const peerConnection` declared at
  demo.js:269. Reading a `const` before its declaration throws a
  `ReferenceError`. So an incoming offer never creates a connection, and
  never installs the `onnegotiationneeded` handler. The global stays null.
  Candidates that arrive afterwards stay buffered
  (`Negotiation.OfferFromPeer`) until the page places a call of its own and
  gets an answer. The drain then hands them to the page's own connection
  (`Negotiation.OfferThenCall`).
  - This goes further than the reading in which `setOffer` builds a local
    connection that shadows the global and then `makeAnswer` bails out. The
    model follows the code: the handler ends at its first line.
- **`disconnect` does not reset the gate, the buffer or `dataChannel`.** After
  a hang-up and a new `connect`, candidates go straight to the new connection
  (`Negotiation.Redial`).
- **Continuations read the globals again.** Code after an `await` uses
  whatever connection `peerConnection` holds at that moment:
  - with no connection, the `TypeError` is caught and logged;
  - when `setAnswer`'s continuation drains with no connection, the buffered
    candidates are lost (`Negotiation.Delivered` gives no calls for `None`).
- **`axesCheck` keeps the first reading of each axis.** An axis counts as
  moved when it differs from its first value, not from its previous one.

## Model

| member | source | states |
|---|---|---|
| Sdp.DigitsEnd | demo.js:304 | the greedy `\d*` run: all digits up to the end, followed by a non-digit or the end of the text |
| Sdp.RunEnd | demo.js:312 | the greedy `.*` run stops at the first line terminator (`\n`, `\r`, U+2028, U+2029) or the end |
| Sdp.HeadMatch | demo.js:304-329 | a match of any of removeCodec's patterns at the start of a text holds at least its CRLF and lies within the text |
| Sdp.Captured | demo.js:304 | a `<head>(\d*)<tail>` match lies within the text |
| Sdp.Matches | demo.js:304-329 | every pattern, used as a matcher, is sound: matches are non-empty and within the text |
| Sdp.Search | demo.js:305 | a found match starts at or after the search position, lies within the text, and is what the pattern matches at that start, group 2 included |
| Sdp.SearchLeftmost | demo.js:305 | no match starts between the search position and the match found, nor anywhere after it when none is found |
| Sdp.Splice | demo.js:310 | replacing the first match changes the length by the replacement's length minus the match's |
| Sdp.RemoveAll | demo.js:313 | a global deletion never lengthens the text |
| Sdp.Split | demo.js:334 | `split(" ")` gives at least one piece and no piece holds a space |
| Sdp.Kept | demo.js:336-343 | a token is kept exactly when it was among the tokens and equals neither the payload type nor the retransmission type |
| Sdp.BuildVideoLine | demo.js:333-344 | the forEach loop builds exactly the rewritten m=video line |
| Sdp.SplitRoundTrip | demo.js:333-334 | the first piece followed by the space-prefixed others gives back the line |
| Sdp.SplitOfSpaced | demo.js:342-344 | splitting a line built from space-free tokens gives back those tokens |
| Sdp.RewriteVideoLineTokens | demo.js:333-344 | the rewritten m=video line has the original first token, then the kept tokens in their original order |
| Sdp.RewriteVideoLine | demo.js:333-343 | definition: the first `split(" ")` piece, then the later pieces other than the payload and retransmission types, each after one space; its meaning is stated by RewriteVideoLineTokens and BuildVideoLine |
| Sdp.RewriteVideoLineShorter | demo.js:333-344 | rewriting the m=video line never lengthens it |
| Sdp.RewriteVideoFound | demo.js:329-346 | when the m=video search finds a line, that line (without its CRLF) is replaced by its rewrite plus CRLF |
| Sdp.RewriteVideoShorter | demo.js:329-346 | the m=video step never lengthens the text |
| Sdp.RewriteVideo | demo.js:329-346 | definition: the first `m=video` match from the start, less its CRLF, is replaced by its rewrite plus CRLF; text without one is returned as it is; RewriteVideoFound and RewriteVideoOnLines state its effect |
| Sdp.DropPayload | demo.js:312-316 | deleting the rtcp-fb and fmtp lines of the payload type never lengthens the text |
| Sdp.DropRtx | demo.js:318-327 | the retransmission step never lengthens the text |
| Sdp.Pass | demo.js:303-347 | a pass gives nothing exactly when the codec's rtpmap line is absent, and otherwise a strictly shorter text |
| Sdp.RemoveCodec | demo.js:302-350 | the result has no rtpmap line for the codec, a text without one is returned unchanged, and the result is never longer |
| Sdp.RemoveCodecIdempotent | demo.js:302-350 | removing a codec a second time changes nothing |
| Sdp.StripVideoCodecs | demo.js:236-237 | the filtered offer has no VP9 rtpmap line and is never longer |
| SdpLines.LineHead | demo.js:304-318 | the group captured from a whole line is made of digits |
| SdpLines.FirstLine | demo.js:305 | the line found is within the document and matches the pattern whole, with that group |
| SdpLines.FirstLineLeftmost | demo.js:305 | no earlier line matches, and no line at all when none is found |
| SdpLines.LinePass | demo.js:303-347 | definition, the line-level reference pass: none when no line is the codec's rtpmap line; otherwise that line goes, then the payload's rtcp-fb and fmtp lines, then the first apt line and the rtx rtpmap lines, and the first m=video line is rewritten |
| SdpLines.Drop | demo.js:313 | a line survives exactly when it was there and does not begin with the prefix |
| SdpLines.RemoveLine | demo.js:310 | removing one line leaves one line fewer, all of them from the document |
| SdpLines.DigitsEndInLine | demo.js:304 | a digit run inside a line stops inside that line |
| SdpLines.RunEndInLine | demo.js:312 | `.*` from inside a clean line runs exactly to the line's CRLF |
| SdpLines.CapturedOnLine | demo.js:304 | a `<head>(\d*)<tail>\r\n` match at a line's start is a match of the whole line, and vice versa |
| SdpLines.HeadOnLine | demo.js:304-329 | on a clean line, a pattern matches at the line's start exactly when it matches the whole line |
| SdpLines.HeadBeginsWithKey | demo.js:304-329 | every match begins with one of the attribute names the patterns use |
| SdpLines.NoKeyInsideLine | demo.js:304-329 | no attribute name begins strictly inside a clean line or on its CRLF |
| SdpLines.NoHeadInsideLine | demo.js:304-329 | no pattern matches strictly inside a clean line or on its CRLF |
| SdpLines.LineMatch | demo.js:304-329 | a whole-line match covers the line and its CRLF |
| SdpLines.SearchSkip | demo.js:305 | a search can skip a stretch where nothing matches |
| SdpLines.SearchShift | demo.js:313 | searching from `k + i` is searching the text after `k` from `i`, shifted by `k` (resuming at lastIndex) |
| SdpLines.LineSearchFirst | demo.js:305 | the line-level search finds the first matching line, from its offset to the end of its CRLF |
| SdpLines.SearchFollows | demo.js:305 | on text built from lines that a matcher respects, the text search is the line search |
| SdpLines.RemoveMatchAtStart | demo.js:313 | a global deletion removes a match at the start and continues after it |
| SdpLines.RemoveAllFound | demo.js:313 | a global deletion keeps the text before the first match and continues after it |
| SdpLines.RemoveKeepsPrefix | demo.js:313 | a global deletion keeps a stretch in which no match starts |
| SdpLines.RemoveLineStep | demo.js:312-316 | a global `<prefix>.*\r\n` deletion deletes a line exactly when it begins with the prefix |
| SdpLines.RemoveFollows | demo.js:312-316 | a global deletion that respects the lines deletes exactly the lines beginning with the prefix |
| SdpLines.MatchesFollowLine | demo.js:304-329 | on a clean line, every pattern matches only whole lines |
| SdpLines.MatchesFollow | demo.js:304-329 | on a clean document, every pattern matches only whole lines |
| SdpLines.FirstLineMatches | demo.js:305 | on a clean document, the first match is found exactly when some line matches, and it is the first matching line, whole |
| SdpLines.RemoveAllOnLines | demo.js:312-316 | on a clean document, a global line deletion removes exactly the lines beginning with the prefix |
| SdpLines.SpliceOnLines | demo.js:310 | on a clean document, replacing the first match replaces the first matching line |
| SdpLines.RemoveFirstOnLines | demo.js:310 | on a clean document, deleting the first match deletes the first matching line |
| SdpLines.RewriteVideoOnLines | demo.js:329-346 | on a clean document, the m=video step rewrites the first line beginning "m=video" and nothing else |
| SdpLines.DropPayloadOnLines | demo.js:312-316 | on a clean document, the payload deletions remove exactly the rtcp-fb and fmtp lines of the payload type |
| SdpLines.DropRtxOnLines | demo.js:318-327 | on a clean document, the retransmission step removes the first apt line and the rtx rtpmap lines, and finds the same rtx |
| SdpLines.PassOnLines | demo.js:303-347 | on a clean document, a text pass equals the line-level pass |
| Classify.IndexOf | demo.js:200-208 | `indexOf` gives the first occurrence at or after the start, and -1 exactly when there is none |
| Classify.HasOccurs | demo.js:200-208 | the `indexOf(...) !== -1` test holds exactly when the key occurs |
| Classify.Browser | demo.js:198-212 | edge when "edge" occurs; chrome when "chrome" occurs without "edge"; safari when "safari" occurs without either; then opera, then firefox; undefined when none occurs |
| Classify.IsSafari | demo.js:214-216 | Safari exactly when "safari" occurs and neither "chrome" nor "edge" does |
| Classify.StatusIndicator | demo.js:127-140 | yellow on black with the person-detected text exactly for "detect"; white on blue with the switched-off text exactly for "OFF"; white on red with the lamp-on text for everything else |
| Classify.StatusLabelDetermines | demo.js:127-140 | two statuses show the same text exactly when they show the same background |
| Joystick.Decimal | demo.js:516 | a number's decimal text is non-empty and made of digits |
| Joystick.DecimalRoundTrip | demo.js:516 | reading the decimal text back gives the number, so different indices give different ids |
| Joystick.Uid | demo.js:516 | definition: the pad's uid is its index's decimal text followed by its id |
| Joystick.Selects | demo.js:514-516 | definition: a pad is the selected one when it is present, has an index, and its uid equals the selected uid |
| Joystick.Initial | demo.js:547-554 | the rebuilt record has one entry per axis |
| Joystick.Advance | demo.js:531-545 | the first value is kept, flags are never lowered, and an axis is shown exactly when it was shown or its reading differs from the first one |
| Joystick.Flips | demo.js:533-544 | definition: one for raising `show` on a changed reading, one for raising `customStyle` on a shown axis whose first value lies outside ±1.01 |
| Joystick.AdvanceAll | demo.js:531-545 | definition: each axis entry advanced by its own reading, in axis order; the contract gives one entry per axis |
| Joystick.TotalFlips | demo.js:531-545 | definition: the per-axis counts summed over the axes in order |
| Joystick.FlipsRaise | demo.js:533-544 | the count added for an axis is exactly the number of flags that reading raised |
| Joystick.AdvanceConsistent | demo.js:539-544 | an axis never gets its own style without being shown |
| Joystick.TotalFlipsRaise | demo.js:531-545 | the result counts exactly the flags raised across all axes |
| Joystick.TotalFlipsBound | demo.js:525-558 | the result is at most twice the axis count, minus the flags already raised |
| Joystick.AdvanceAgain | demo.js:531-545 | reading the same axes twice changes nothing the second time and counts nothing |
| Joystick.JoystickPanel.constructor | demo.js:408-416 | nothing selected, mapping 0, no axis record, no pad list |
| Joystick.JoystickPanel.SelectGamepad | demo.js:492-505 | the first mapping from 1 whose query matches is selected (0 when none matches), the axis record is dropped, and the result is whether the id is truthy |
| Joystick.JoystickPanel.GetSelectedGamepadData | demo.js:507-523 | null exactly when no listed pad is present, indexed and named `index + id` = the selection; otherwise the first such pad |
| Joystick.JoystickPanel.CheckNewAxesMove | demo.js:525-558 | with no axes nothing changes; with a record of the right size each entry advances in place and the result is the flags raised; otherwise a fresh record of the first reading and 0 |
| Negotiation.DeliveredAppend | demo.js:91-97 | handing over two batches is handing over their concatenation |
| Negotiation.DeliveredInOrder | demo.js:91-97 | with a connection, every candidate is handed over exactly once, in arrival order |
| Negotiation.Delivered | demo.js:91-105 | nothing without a connection; otherwise only addIceCandidate calls on that connection, each for one of the given candidates |
| Negotiation.StrippedOffer | demo.js:236-237 | the committed offer is the created one with VP8 and then VP9 removed, and holds no VP9 rtpmap line |
| Negotiation.Negotiator.constructor | demo.js:4-7 | no connection, no channel, empty buffer, gate shut |
| Negotiation.Negotiator.PrepareNewConnection | demo.js:118-120 | a new numbered connection whose data channel becomes `dataChannel` |
| Negotiation.Negotiator.Connect | demo.js:61-70 | an offer is started exactly when there is no connection; otherwise nothing changes |
| Negotiation.Negotiator.MakeOffer | demo.js:225-233 | the new connection becomes `peerConnection` at once, and createOffer is awaited |
| Negotiation.Negotiator.OfferCreated | demo.js:233-238 | a created offer is filtered and set as the local description of the current connection; with none, or on rejection, only the await ends |
| Negotiation.Negotiator.Commit | demo.js:238 | setLocalDescription is called and awaited; the invariant holds |
| Negotiation.Negotiator.Settle | demo.js:238 | on success the engine holds the description for its connection |
| Negotiation.Negotiator.SendLocalDescription | demo.js:240 | the current connection's local description (null if it has none) is sent; nothing without a connection |
| Negotiation.Negotiator.OfferCommitted | demo.js:238-243 | on success the offer is held and the current local description sent |
| Negotiation.Negotiator.MakeAnswer | demo.js:246-253 | nothing without a connection; otherwise createAnswer is awaited |
| Negotiation.Negotiator.AnswerCreated | demo.js:253-255 | a created answer is set as local description of the current connection |
| Negotiation.Negotiator.AnswerCommitted | demo.js:255-258 | on success the answer is sent and the buffer drained; without a connection the drain is skipped |
| Negotiation.Negotiator.SetOffer | demo.js:265-269 | the handler always throws and changes nothing |
| Negotiation.Negotiator.SetAnswer | demo.js:281-287 | nothing without a connection; otherwise setRemoteDescription is awaited |
| Negotiation.Negotiator.RemoteAnswerSet | demo.js:287-292 | on success the buffer is drained into the current connection |
| Negotiation.Negotiator.AddIceCandidate | demo.js:99-105 | the candidate reaches the connection if there is one, and nothing else changes |
| Negotiation.Negotiator.DrainCandidate | demo.js:91-97 | the gate opens, the buffer empties, and its candidates are handed over in order |
| Negotiation.Negotiator.OnWsMessage | demo.js:34-59 | an offer throws; an answer goes to setAnswer; a candidate is handed over when the gate is open and buffered when it is shut; other types change nothing |
| Negotiation.Negotiator.Disconnect | demo.js:72-89 | a connection that is not closed is closed and forgotten, and the close notice is sent when the socket is open; the buffer, gate and channel stay |
| Negotiation.Negotiator.SendDataChannel | demo.js:356-366 | the text is sent, and the input cleared, exactly when it is non-empty and the channel exists and is open |
| Negotiation.Negotiator.SendGamepadData | demo.js:368-377 | the same guards as sendDataChannel, with nothing cleared |
| Negotiation.Negotiator.CanSend | demo.js:358-363 | definition: the text is non-empty, a data channel exists and its readyState is "open" |
| Negotiation.OfferFromPeer | demo.js:38-54 | after a peer's offer and a candidate, there is no connection, no engine call, and the candidate stays buffered |
| Negotiation.OfferThenCall | demo.js:34-97 | after a peer's offer and a candidate, a call the page places and an answer to it, the buffered candidate is handed to the page's own connection and the buffer is empty |
| Negotiation.Redial | demo.js:72-97 | after a hang-up and a new call with the gate open, a candidate reaches the new connection at once |

## Left out

- The WebSocket, `JSON.parse`/`JSON.stringify` and `TextEncoder` are outside
  the model. Messages arrive already parsed. What is sent is logged as a
  value, not as bytes.
  - A `send` that throws on a socket that is not open is not modelled.
- The WebRTC engine is represented only by what the page reads from it and
  asks of it:
  - the engine's results (descriptions, rejections) are method arguments;
  - `iceConnectionState` and the channel's `readyState` are arguments;
  - the engine is assumed to keep a local description as it was given.
- Some parts of `prepareNewConnection` are not modelled: the `ontrack`,
  `onaddstream`, `onicecandidate` and `oniceconnectionstatechange` handlers,
  the transceivers, `playVideo` and `cleanupVideoElement`. They touch the
  engine and the DOM but not the globals the model tracks.
- The body of `setOffer`'s `onnegotiationneeded` handler (demo.js:270-277) is
  not modelled. `setOffer` throws before it installs that handler, so the
  body never runs.
- `makeAnswer` is modelled, but nothing in the page reaches it.
- The order in which promise continuations run is not modelled. Any pending
  continuation may run next.
- `console` logging is not modelled.
- The data channel's `onmessage` is modelled only for its status
  classification. Its JSON decoding and the elapsed-time text
  (demo.js:141-142) are left out.
  - `jsonData.status` is taken to be a string, so the loose `==` is string
    equality.
- `Classify.Browser` takes the already lower-cased user agent.
  `toLocaleLowerCase` is not modelled.
- Sdp.RewriteVideo takes the replacement line literally. JavaScript's
  `replace` would expand `$` sequences in it, but an m=video line made of
  tokens from the offer does not contain them in practice.
- The codec name is spliced into a regular expression as literal text. That
  is what it is for "VP8" and "VP9".
- Sdp.StripVideoCodecs: states only that no VP9 rtpmap line remains. A
  remaining VP8 line cannot be ruled out on arbitrary text: the VP9 pass's
  deletions could join two fragments into a new VP8 rtpmap line.
- SdpLines.PassOnLines: holds only for clean documents. A clean document has
  no terminator character inside a line, and no line contains
  `a=rtpmap:`, `a=rtcp-fb:`, `a=fmtp:` or `m=video` other than at its start.
  - On other text, removeCodec's regular expressions can match across or
    inside lines. `Sdp` models that behaviour, but it is not characterised
    line by line.
- The joystick's regular-expression queries (`axesMapper[i].query.test`) are
  a parameter `test`. The axis styles of the mappings are unused by the
  modelled functions.
- Gamepad axis readings are `real`. Floating-point rounding and NaN are not
  modelled.
- Joystick.JoystickPanel.GetSelectedGamepadData: requires the pad list to be
  filled. On the initial `null` list the source throws a `TypeError`.
- `updateGamepadData`, its timer, the gamepad connection listeners and the
  DOM are not part of this model.
