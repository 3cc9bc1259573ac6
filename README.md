# Room layout and stores of a video-conferencing client, in Dafny

This project models the algorithmic core of a browser client for video rooms. It has three parts.

- **Tile packer** (`packing.dfy`, module `Packing`). For one candidate tile width it simulates
  laying `N` equal tiles left to right, wrapping to a new row when the next tile would overflow.
  It then scans the widths 1 to 4999 for the first one that no longer fits.
- **Layout controller** (`aspect_ratio.dfy` and `room_layout.dfy`, modules `AspectRatio` and
  `RoomLayout`). This is the class that keeps the selected aspect ratio (`_aspect`, `_ratio`, margin 5).
  It reads the `"a:b"` catalog entries, measures a container, and writes one uniform width, height,
  margin and `data-aspect` label onto every child tile. It applies the 820 px breakpoint rule.
- **Stores** (`room_store.dfy`, `media_device_store.dfy`). Each store holds one record. Every update
  replaces the record with a copy where only the named fields differ.

The document is abstracted. A container is an `Element` with a constant offset height and width and
a constant array of child tile styles. Layout writes that array in place and never resizes it, so it
never adds or removes children. Looking a container up by id becomes an `Element?` parameter, where
null means the container is not mounted. The viewport width, which the source reads from
`window.innerWidth` or through `matchMedia`, is an integer parameter. The SDK room object is a
stand-in value `Room(id)`.

What is proved, in short:
- `area` equals the packing simulation `Pack`/`Fits`.
- `Pack` has a closed form. With `c = (width - w) / (w + 2*margin) + 1` tiles per row, `N` tiles stack
  `(N - 1) / c + 1` rows, and one row even when `N = 0`.
- From the closed form, fitting is monotone in the width.
- `calculateArea` returns the first failing width minus one, minus two margins. That is the largest
  width that fits, unless every width below 5000 fits.
- The catalog entries read as 9/16, 3/4, 1 and 2.
- Laying out twice leaves the tiles as one pass left them.
- For the stores: which fields each update changes, and that appends keep message order.

## Model

| member | source | states |
|---|---|---|
| `Packing.Place` | src/lib/room/controllers/RoomLayoutController.ts:141-146 | a tile that would overflow the current row opens a new row holding only it and adds one row height to the stack; any other tile joins the row and leaves the height alone |
| `Packing.Pack` | src/lib/room/controllers/RoomLayoutController.ts:137-147 | the stack is at least the one baseline row `w*ratio + 2*margin` high, the row being filled never holds more than `width` plus one trailing margin pair, and after at least one tile it holds at least one tile |
| `Packing.Fits` | src/lib/room/controllers/RoomLayoutController.ts:148-149 | a fitting width is no wider than the container and leaves room for at least one row |
| `Packing.FitsNoChildren` | src/lib/room/controllers/RoomLayoutController.ts:137-139 | with zero children the stack is the one baseline row `w*ratio + 2*margin`, so zero children fit exactly when that row and the width fit |
| `Packing.PackClosedForm` | src/lib/room/controllers/RoomLayoutController.ts:137-147 | for `1 <= w <= width`: `N` tiles stack `Rows(N, PerRow)` rows of height `w*ratio + 2*margin`, and the last row holds `(N-1) % PerRow + 1` tiles of pitch `w + 2*margin` |
| `Packing.PlaceStep` | src/lib/room/controllers/RoomLayoutController.ts:141-145 | one loop step keeps the closed form: the tile after a full row opens a new row, any other tile extends the current row by `w + 2*margin` |
| `Packing.PerRowAntitone` | src/lib/room/controllers/RoomLayoutController.ts:141-145 | a wider tile never fits more tiles in a row |
| `Packing.RowsAntitone` | src/lib/room/controllers/RoomLayoutController.ts:141-144 | more tiles per row never means more rows |
| `Packing.RowsMonotone` | src/lib/room/controllers/RoomLayoutController.ts:141-144 | a wider tile never takes fewer rows |
| `Packing.RowHeightMonotone` | src/lib/room/controllers/RoomLayoutController.ts:139 | a wider tile gives a row at least as tall, and never a negative one |
| `Packing.StackHeightMonotone` | src/lib/room/controllers/RoomLayoutController.ts:139-147 | the closed-form stacked height does not decrease as the width grows |
| `Packing.HeightMonotone` | src/lib/room/controllers/RoomLayoutController.ts:136-147 | for widths from 1 up to the container's inner width, the simulated stacked height does not decrease as the width grows |
| `Packing.FitsMonotone` | src/lib/room/controllers/RoomLayoutController.ts:148 | if width `b` fits, every width from 1 to `b` fits |
| `Packing.ScanSatisfiesSpec` | src/lib/room/controllers/RoomLayoutController.ts:67-76 | the scan value is 0 when no width in 1..4999 fails; otherwise it is one less than the first failing width, and every width up to it fits |
| `Packing.Scan` | src/lib/room/controllers/RoomLayoutController.ts:67-76 | a nonzero scan value lies below 4999, is at least the starting width less one, and the width right after it fails |
| `Packing.ScanResultUnique` | src/lib/room/controllers/RoomLayoutController.ts:67-76 | at most one value meets that description |
| `Packing.ScanFindsLargestFit` | src/lib/room/controllers/RoomLayoutController.ts:67-79 | unless every scanned width fits, the scan value is the largest width that fits, and every larger width fails |
| `Packing.ScanZeroIsAmbiguous` | src/lib/room/controllers/RoomLayoutController.ts:67-79 | the scan value is 0 exactly when width 1 fails or every width below 5000 fits, so both cases give `-2*margin` |
| `Packing.ScanNoWidth` | src/lib/room/controllers/RoomLayoutController.ts:148 | with inner width below 1, no width fits and the scan value is 0 |
| `Packing.ScanFourTilesSixteenByNine` | src/lib/room/controllers/RoomLayoutController.ts:62-80 | four 16:9 tiles in an inner 1000 x 600 area with margin 5: the scan stops at 495 |
| `AspectRatio.DigitPrefix` | src/lib/room/controllers/RoomLayoutController.ts:110 | the digits `parseInt` reads: a prefix of the text, all digits, ending at the first non-digit |
| `AspectRatio.ParseIntStopsAtNonDigit` | src/lib/room/controllers/RoomLayoutController.ts:110 | `parseInt` of a numeral followed by a non-digit is the numeral's value |
| `AspectRatio.ParseInt` | src/lib/room/controllers/RoomLayoutController.ts:110 | `parseInt` gives NaN exactly when the text does not start with a digit, and a numeral reads as its decimal value |
| `AspectRatio.Split` | src/lib/room/controllers/RoomLayoutController.ts:109 | `split(':')` yields at least one piece and no piece contains ':' |
| `AspectRatio.JoinSplit` | src/lib/room/controllers/RoomLayoutController.ts:109 | joining the pieces with ':' gives the entry back |
| `AspectRatio.SplitAtColon` | src/lib/room/controllers/RoomLayoutController.ts:109 | a colon-free prefix before ':' is split off as the first piece |
| `AspectRatio.SplitNoColon` | src/lib/room/controllers/RoomLayoutController.ts:109 | a colon-free string is a single piece |
| `AspectRatio.RatioOfEntry` | src/lib/room/controllers/RoomLayoutController.ts:108-111 | the ratio of `"a:b"` (decimal numerals, `a` not zero) is `b / a` |
| `AspectRatio.Ratio` | src/lib/room/controllers/RoomLayoutController.ts:108-111 | `ratio()` of an entry is a number only when the entry has a ':', and that number is never negative |
| `AspectRatio.CatalogRatios` | src/lib/room/controllers/RoomLayoutController.ts:7 | the catalog entries 16:9, 4:3, 1:1 and 1:2 read as 9/16, 3/4, 1 and 2 |
| `AspectRatio.RatioSixteenNine` | src/lib/room/controllers/RoomLayoutController.ts:7 | `"16:9"` reads as 9/16 |
| `AspectRatio.RatioFourThree` | src/lib/room/controllers/RoomLayoutController.ts:7 | `"4:3"` reads as 3/4 |
| `AspectRatio.RatioOneOne` | src/lib/room/controllers/RoomLayoutController.ts:7 | `"1:1"` reads as 1 |
| `AspectRatio.RatioOneTwo` | src/lib/room/controllers/RoomLayoutController.ts:7 | `"1:2"` reads as 2 |
| `AspectRatio.CatalogRatiosPositive` | src/lib/room/controllers/RoomLayoutController.ts:7 | every catalog entry reads as a positive number |
| `RoomLayout.LayoutController.constructor` | src/lib/room/controllers/RoomLayoutController.ts:13-16 | starts on entry 0 with ratio 9/16, and the controller invariant holds |
| `RoomLayout.LayoutController.CurrentRatio` | src/lib/room/controllers/RoomLayoutController.ts:108-111 | `ratio()` of the selected entry is always a number, and it is positive |
| `RoomLayout.LayoutController.Dims` | src/lib/room/controllers/RoomLayoutController.ts:31-37 | nothing for an absent element; otherwise height and width with `2*margin` taken off |
| `RoomLayout.LayoutController.Area` | src/lib/room/controllers/RoomLayoutController.ts:136-150 | returns the width when the children fit the simulation and None (`false`) otherwise; only the child count matters |
| `RoomLayout.LayoutController.CalculateArea` | src/lib/room/controllers/RoomLayoutController.ts:62-80 | nothing for an absent element; otherwise `max - 2*margin`, where `max` is 0 when no width below 5000 fails, or else one less than the first failing width with every smaller width fitting |
| `RoomLayout.LayoutController.Resizer` | src/lib/room/controllers/RoomLayoutController.ts:40-60 | every child gets margin 5, the given width, height `width*ratio` (`width*9/16` for screen share) and the selected label; an absent element is left alone |
| `RoomLayout.LayoutController.ParticipantAreaResize` | src/lib/room/controllers/RoomLayoutController.ts:94-100 | tiles take the scan width unless the area is absent or that width is 0; then nothing changes |
| `RoomLayout.LayoutController.ScreenShareAreaResize` | src/lib/room/controllers/RoomLayoutController.ts:82-92 | on a viewport of at most 820 px every tile takes the container's offset width, otherwise the scan width; heights are 16:9 |
| `RoomLayout.LayoutController.Resize` | src/lib/room/controllers/RoomLayoutController.ts:102-105 | lays out the participant area and then the screen-share area |
| `RoomLayout.LayoutController.Aspect` | src/lib/room/controllers/RoomLayoutController.ts:119-123 | selects entry `i`, sets the ratio to what that entry reads as, and lays both areas out with the new ratio |
| `RoomLayout.LayoutController.SetAspectRatioByWidth` | src/lib/room/controllers/RoomLayoutController.ts:126-133 | viewport over 820 px selects 16:9, otherwise 1:1 |
| `RoomLayout.LayoutController.MatchScreen` | src/lib/room/controllers/RoomLayoutController.ts:392-399 | viewport of at most 820 px selects 4:3, otherwise 16:9 |
| `RoomLayout.CheckScreenWidth` | src/lib/room/controllers/RoomLayoutController.ts:402-409 | the media query `(max-width: 820px)` matches exactly the viewports that the `innerWidth > 820` test of lines 128-132 rejects |
| `RoomLayout.ResizeIsIdempotent` | src/lib/room/controllers/RoomLayoutController.ts:102-105 | after two layout passes with unchanged inputs, both areas are exactly in the state one pass leaves them in: the participant tiles at the scan width, or untouched when that width is 0, and the screen-share tiles at their 16:9 width |
| `RoomStore.DefaultRoomState` | src/stores/RoomStore.ts:40-49 | the initial record: no room, loading, remote-participant and screen-share flags all false, empty connection and device status, empty toast, no messages |
| `RoomStore.Merge` | src/stores/RoomStore.ts:69-71 | `updateStore` sets each field the payload has to the payload's value and changes no field the payload lacks |
| `RoomStore.MergeTakesPayload` | src/stores/RoomStore.ts:69-71 | on the payload's fields, merging into any two records gives the same values |
| `RoomStore.MergeEmptyPatch` | src/stores/RoomStore.ts:69-71 | an empty payload leaves the record as it is |
| `RoomStore.MergeThen` | src/stores/RoomStore.ts:69-71 | two updates in a row equal one update with the later payload over the earlier |
| `RoomStore.MergeIdempotent` | src/stores/RoomStore.ts:69-71 | repeating an update changes nothing more |
| `RoomStore.WithConnectionStatus` | src/stores/RoomStore.ts:73-75 | only `connectionStatus` changes, to the given status; the same as `updateStore` with that one key |
| `RoomStore.WithDeviceStatus` | src/stores/RoomStore.ts:77-79 | only `deviceStatus` changes, to the given status; the same as `updateStore` with that one key |
| `RoomStore.WithToast` | src/stores/RoomStore.ts:81-82 | only `toastMessage` changes, to the message; the same as `updateStore` with that one key |
| `RoomStore.WithMessage` | src/stores/RoomStore.ts:88-90 | the list grows by one, earlier messages keep their places, the new one is last, and no other field changes |
| `RoomStore.MessagesInOrder` | src/stores/RoomStore.ts:88-90 | appending messages one after another leaves them in arrival order after the earlier ones |
| `RoomStore.Store.constructor` | src/stores/RoomStore.ts:40-61 | the store starts at the defaults: no room, all flags false, empty statuses and toast, no messages |
| `RoomStore.Store.Select` | src/stores/RoomStore.ts:63-67 | returns the current record and changes nothing |
| `RoomStore.Store.UpdateStore` | src/stores/RoomStore.ts:69-71 | the new record is the payload's fields over the old one |
| `RoomStore.Store.UpdateConnectionStatus` | src/stores/RoomStore.ts:73-75 | the new record is the old one with the given connection status |
| `RoomStore.Store.UpdateDeviceStatus` | src/stores/RoomStore.ts:77-79 | the new record is the old one with the given device status |
| `RoomStore.Store.Toast` | src/stores/RoomStore.ts:81-82 | the new record is the old one with the toast message set |
| `RoomStore.Store.UpdateMessageArray` | src/stores/RoomStore.ts:88-90 | the new record is the old one with the message appended |
| `RoomStore.Store.Reset` | src/stores/RoomStore.ts:92-96 | the record is the defaults again |
| `MediaDeviceStore.MergeKeepsAbsent` | src/stores/MediaDeviceStore.ts:47-49 | `updateStore` keeps every top-level field the payload lacks; an empty payload changes nothing |
| `MediaDeviceStore.Merge` | src/stores/MediaDeviceStore.ts:47-49 | each top-level key the payload has takes the payload's value; a given device record replaces the old one whole |
| `MediaDeviceStore.MergeDevices` | src/stores/MediaDeviceStore.ts:52 | each device kind the payload names takes the payload's device, every other kind keeps its old one |
| `MediaDeviceStore.MergeTakesPayload` | src/stores/MediaDeviceStore.ts:47-49 | on the payload's fields, merging into any two records gives the same values |
| `MediaDeviceStore.SelectedDevicesReplacesNamed` | src/stores/MediaDeviceStore.ts:51-53 | a device update sets each named kind to its new device, keeps each other kind, and keeps both switches |
| `MediaDeviceStore.SelectedDevicesIsNestedMerge` | src/stores/MediaDeviceStore.ts:47-53 | a device update equals a top-level update whose device record is the nested merge |
| `MediaDeviceStore.SelectedDevicesIdempotent` | src/stores/MediaDeviceStore.ts:51-53 | repeating a device update changes nothing more |
| `MediaDeviceStore.Store.constructor` | src/stores/MediaDeviceStore.ts:28-39 | camera and microphone off; all three kinds have empty kind and device id |
| `MediaDeviceStore.Store.GetValues` | src/stores/MediaDeviceStore.ts:55-59 | returns the current record and changes nothing (`select`, lines 41-45, is the same code) |
| `MediaDeviceStore.Store.UpdateStore` | src/stores/MediaDeviceStore.ts:47-49 | the new record is the payload's top-level fields over the old one |
| `MediaDeviceStore.Store.UpdateSelectedDevice` | src/stores/MediaDeviceStore.ts:51-53 | the new record is the old one with the payload's kinds merged into its device record |
| `MediaDeviceStore.Store.Reset` | src/stores/MediaDeviceStore.ts:61-71 | the record is the constructor's initial record again |

## Left out

- Floating point. `_ratio`, tile heights and the stacked height are exact reals here. JavaScript
  computes them in doubles, and style values are strings such as `"5px"`. Here they are numbers.
- `RoomLayout.LayoutController.Resizer` records the width it is given even when it is negative.
  When the scan value is below 10 (for instance when no width fits, or every width below 5000 fits), the participant
  and wide screen-share paths pass `scan - 10`, which is negative, and the source writes `"-10px"`
  and a negative height. A browser rejects a negative length, so in the document each tile keeps
  its previous width and height and only the margin and `data-aspect` change. The model does not
  capture that rejection.
- `parseInt`: leading whitespace and signs are not modelled. No catalog entry has
  them. `Ratio` maps NaN and Infinity to None. No catalog entry produces either.
- `RoomLayout.LayoutController.Aspect`, `SetAspectRatioByWidth` and `MatchScreen` require an index
  inside the catalog. The source would throw on `undefined.split` for any other index, and its
  callers pass only 0, 1 and 2.
- `RoomLayout.LayoutController.Resize` and the methods that call it require the two areas to have
  distinct child arrays. That is how two elements with different ids behave in the document.
- The second null check in `calculateArea`, on the result of `dimensions`, cannot fail on a
  mounted element, so it is not modelled.
- The lookup of elements by id (`$`), `window.innerWidth` and `matchMedia`. These are parameters.
- `renderParticipant` and `renderScreenShare`. They create and remove DOM nodes and attach media
  tracks through the SDK.
- `toggleFullscreen` and `expand`. These are browser display calls.
- `ratios()`. It only returns the catalog constant.
- The delayed clear in `RoomStore.toast` (a 3-second timer). Only the immediate update is modelled.
- The reactive store machinery: `writable`, `subscribe` and subscriber notification. `select` and
  `getValues` read the value through a synchronous one-off subscription. Here they return the field.
- A payload key given explicitly as `undefined` is modelled only for `currentRoom`, where
  `undefined` is a legal value (`Some(None)`). For other keys it would break the record's types.
- The room controller, user media, the token endpoint, the API service and the media-element helper
  are not part of this model. They are SDK wiring, network calls and media element assignment.
