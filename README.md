# Metro departures board — a Dafny model

This project models `Metro_Graphics`, the renderer of a transit departures
board on a small e-paper panel. It takes an arrivals snapshot and keeps the
station name and up to four trains. On every update it draws:

- a header with the station name and a right-aligned clock;
- a separator line and the column labels "Ln", "Destination", "Car" and "Arrival";
- one row per kept train, at a fixed pitch of 20 pixels.

It then commits the picture to the panel. Every tenth update (the 1st, the
11th, the 21st, ...) first does a full white-out, to purge e-paper ghosting.

The model has five modules:

- `Wrappers` holds `Option` and `Result`.
- `Formatting` holds the pure field formatting:
  - defaults for missing keys;
  - shortening a destination to 14 characters;
  - the "N mins" arrival text and its ARR/BRD/- sentinels;
  - the 12-hour clock text `strftime("%I:%M %p").lstrip("0").replace(" 0", " ")`, written out step by step, with a reader that parses it back.
- `Layout` describes the frame as a sequence of draw operations (texts and a line) rather than pixels.
- `Epd` models the panel as a class. Its only state is the ordered log of the `fill`, `image` and `display` commands it received.
- `MetroDisplay` holds three things:
  - the snapshot ingestion `Ingest`;
  - the refresh policy and the order of the commit commands;
  - the class `MetroGraphics`. Its fields `stationName`, `trains` and `refreshCount` mirror `_station_name`, `_trains` and `_refresh_count`. Its methods `DisplayMetro`, `UpdateTime` and `UpdateDisplay` change them the way the Python methods do. `Draw` is the drawing loop, with its invariants.

Things the program takes from outside become parameters:

- The current time is a `Clock(hour, minute)` argument.
- The pixel width of a text in the header font is a function given to the constructor (`measure`). The source's `textbbox` stands behind it.
- The panel is a `Panel` object of known width and height.

The program hard-codes these choices:

- The full-clear interval is 10.
- The destination limit is 14.
- Every update fills the panel white and stages a freshly drawn frame.
- `update_time` does nothing.

## Model

| member | source | states |
|---|---|---|
| `MetroDisplay.Ingest` | display_metro_graphics.py:22-29 | A missing `Trains` key is a lookup error on "Trains". An empty list gives station "No Service" and no trains. For a non-empty list, the result is Ok exactly when the first train has `LocationName`, and otherwise the error is on "LocationName". The station is that value. The stored trains are the first min(4, n) trains, in order, and never more than 4. |
| `MetroDisplay.MetroGraphics.constructor` | display_metro_graphics.py:16-20 | A new board has no station name, no trains and refresh count 0. It keeps the panel it was given. |
| `MetroDisplay.MetroGraphics.DisplayMetro` | display_metro_graphics.py:22-31 | On a lookup error, the fields and the panel log are unchanged and the missing key is reported. Otherwise the station and trains are those `Ingest` gives. The counter rises by one, and the panel log grows by exactly the update commands of the new count and the frame of the new state. At most 4 trains are kept. |
| `MetroDisplay.MetroGraphics.UpdateTime` | display_metro_graphics.py:33-34 | The clock tick changes neither the board nor the panel. |
| `MetroDisplay.MetroGraphics.UpdateDisplay` | display_metro_graphics.py:36-100 | The counter rises by exactly one. The panel log grows by the optional full clear for the new count, then fill white, image of the rendered frame, display. An update keeps every staged image immediately followed by a display. |
| `MetroDisplay.MetroGraphics.ClearIfDue` | display_metro_graphics.py:39-41 | When the count is 1 mod 10, the panel receives fill white and display; otherwise it receives nothing. |
| `MetroDisplay.MetroGraphics.Commit` | display_metro_graphics.py:43-100 | The panel receives fill white, the image and display, in that order. |
| `MetroDisplay.MetroGraphics.Draw` | display_metro_graphics.py:44-97 | The drawing loop produces exactly the header, labels and rows of `BoardOps` for the stored state, the clock text and its measured width. |
| `MetroDisplay.FullClearSchedule` | display_metro_graphics.py:38-41 | The full clear is due on count c exactly when c = 10k + 1 for some k ≥ 0. |
| `MetroDisplay.ClearsUpToCount` | display_metro_graphics.py:38-41 | Of the updates 1..n, exactly ⌈n/10⌉ do a full clear. |
| `MetroDisplay.CommitOrder` | display_metro_graphics.py:39-100 | An update sends 5 commands when the full clear is due and 3 otherwise. The last three are fill white, image and display. When due, the first two are fill white and display. |
| `MetroDisplay.UpdateKeepsCommitted` | display_metro_graphics.py:99-100 | If every staged image in a log is followed by a display, that still holds after an update's commands are appended. |
| `MetroDisplay.FormatRowsPrefix` | display_metro_graphics.py:75-97 | Going through one more train of the list adds exactly that train's formatted row to the rows so far. |
| `MetroDisplay.DrawRowStep` | display_metro_graphics.py:85-97 | Drawing the four cells of a row at the next row's height extends the operations by exactly that row, placed 20 pixels below the previous one. |
| `MetroDisplay.MetroCenterScenario` | display_metro_graphics.py:22-97 | The one-train Metro Center snapshot gives header "Metro Center" and rows "RD", "Shady Grove", "8", "12 mins" at y = 38, and nothing else after the header. |
| `MetroDisplay.NoServiceScenario` | display_metro_graphics.py:27-29 | An empty snapshot gives "No Service" and a frame that is the header alone. |
| `Epd.Panel.constructor` | main.py:35-40 | The panel is a foreign driver object built by the entry script. The model keeps its width and height and starts an empty command log. |
| `Epd.Panel.Fill` | display_metro_graphics.py:40 | `fill` appends one fill command and nothing else. |
| `Epd.Panel.Image` | display_metro_graphics.py:99 | `image` appends one image command holding the frame. |
| `Epd.Panel.Display` | display_metro_graphics.py:100 | `display` appends one display command. |
| `Formatting.Get` | display_metro_graphics.py:76-79 | A present key gives its value and an absent key gives the default. |
| `Formatting.RowDefaults` | display_metro_graphics.py:76-94 | A missing `Line`, `Car`, `DestinationName` or `Min` is drawn as "--", "-", "Unknown" or "-". Present values are drawn after shortening and arrival formatting. The destination cell is never longer than 14. |
| `Formatting.Truncate` | display_metro_graphics.py:82-83 | The result is at most 14 long. A longer destination keeps its first 13 characters and then ".", for a length of exactly 14. A shorter one is unchanged. |
| `Formatting.TruncateIdempotent` | display_metro_graphics.py:82-83 | Shortening twice is the same as shortening once. |
| `Formatting.TruncateFixesShort` | display_metro_graphics.py:82-83 | A destination is unchanged exactly when it is at most 14 long. |
| `Formatting.ArrivalText` | display_metro_graphics.py:91-94 | "ARR", "BRD" and "-" are drawn as they are. Any other value v is drawn as v + " mins". The text ends in " mins" exactly when the value is not a sentinel. |
| `Formatting.ArrivalTextInjective` | display_metro_graphics.py:91-94 | Different `Min` values never give the same arrival text. |
| `Formatting.NumeralGetsUnit` | display_metro_graphics.py:91-92 | A countdown of digits always gets the " mins" unit. |
| `Formatting.Hour12` | display_metro_graphics.py:49 | `%I`: the hour is between 1 and 12 and agrees with the 24-hour hour mod 12. |
| `Formatting.Meridiem` | display_metro_graphics.py:49 | `%p`: "AM" exactly before noon, otherwise "PM". |
| `Formatting.TwoDigits` | display_metro_graphics.py:49 | `%I`/`%M`: two digit characters whose decimal value is the number. |
| `Formatting.Decimal` | display_metro_graphics.py:49 | The hour with no leading zero: one or two digits, the first not '0', whose decimal value is the number. |
| `Formatting.LStrip` | display_metro_graphics.py:49 | `lstrip("0")`: it returns a suffix of the input that does not start with '0', and every character removed is '0'. |
| `Formatting.StripHourZero` | display_metro_graphics.py:49 | `lstrip("0")` turns the zero-padded hour into the hour without a leading zero and leaves the rest. |
| `Formatting.ReplaceAbsent` | display_metro_graphics.py:49 | `replace` of a pattern that occurs nowhere returns the string unchanged. |
| `Formatting.NoSpaceZero` | display_metro_graphics.py:49 | " 0" occurs nowhere in "H:MM AM" or "H:MM PM". |
| `Formatting.TimeTextShape` | display_metro_graphics.py:49 | The clock text is the 12-hour hour with no leading zero (0 and 12 read 12), ":", the two-digit minute, " ", and AM or PM. The `replace` step never changes anything. |
| `Formatting.ParseDecimalHour` | display_metro_graphics.py:49 | The hour digits read back as the hour. |
| `Formatting.To24Hour12` | display_metro_graphics.py:49 | The 12-hour hour and AM/PM give back the 24-hour hour. |
| `Formatting.ParseClockFace` | display_metro_graphics.py:49 | "H:MM XM" reads back as the hour and minute it was written from. |
| `Formatting.TimeTextRoundTrip` | display_metro_graphics.py:49 | Parsing the clock text gives back the hour and minute. |
| `Formatting.TimeTextInjective` | display_metro_graphics.py:49 | Different times of day never show the same clock text. |
| `Formatting.Strftime12` | display_metro_graphics.py:49 | `strftime("%I:%M %p")`. Defined by its body from `TwoDigits`, `Hour12` and `Meridiem`; `TimeTextShape` states what it becomes. |
| `Formatting.ReplaceAll` | display_metro_graphics.py:49 | Python's `str.replace`, left to right without overlaps. Defined by its body; `ReplaceAbsent` states that a pattern that never occurs changes nothing. |
| `Formatting.TimeText` | display_metro_graphics.py:49 | The clock text, `strftime`, then `lstrip("0")`, then `replace(" 0", " ")`. Defined by its body; `TimeTextShape`, `TimeTextRoundTrip` and `TimeTextInjective` state its shape and that it determines the time. |
| `Formatting.IsSentinel` | display_metro_graphics.py:91 | The list `['ARR', 'BRD', '-']` of values drawn without a unit. Defined by its body; used by `ArrivalText`. |
| `Formatting.FormatRow` | display_metro_graphics.py:76-94 | The four cells of one train row. Defined by its body; `RowDefaults` states its defaults, shortening and arrival formatting. |
| `Layout.FormatRows` | display_metro_graphics.py:75-94 | The formatted rows of a train list. Defined by its body; `FormatRowsAt` and `FormatRowsSnoc` state it. |
| `Layout.RowsOps` | display_metro_graphics.py:72-97 | The draw operations of consecutive rows at the 20-pixel pitch. Defined by its body; `RowsOpsLength`, `RowsOpsSnoc` and `RowsOpsAt` state it. |
| `Layout.BoardOps` | display_metro_graphics.py:51-97 | The whole frame. Defined by its body; `FrameLength`, `FrameHeader`, `FrameRow`, `ColumnsAligned`, `EmptyFrame` and `LaterTrainsIgnored` state its layout, and `MetroGraphics.Draw` is proved to produce it. |
| `MetroDisplay.FullClearDue` | display_metro_graphics.py:39 | The test `count % 10 == 1`. Defined by its body; `FullClearSchedule` and `ClearsUpToCount` state when it holds. |
| `MetroDisplay.ClearCommands` | display_metro_graphics.py:39-41 | The optional anti-ghosting fill white and display. Defined by its body; `CommitOrder` states it. |
| `MetroDisplay.UpdateCommands` | display_metro_graphics.py:39-100 | All panel commands of one update. Defined by its body; `CommitOrder` and `UpdateKeepsCommitted` state their order. |
| `MetroDisplay.MetroGraphics.Render` | display_metro_graphics.py:44-99 | The frame an update stages: panel size, white background and `BoardOps` of the stored state and the clock text. Defined by its body; `UpdateDisplay` and `DisplayMetro` state that this frame is what reaches the panel. |
| `Layout.StationText` | display_metro_graphics.py:53 | An unset station name is drawn as "", a set one as itself. |
| `Layout.ShownTrains` | display_metro_graphics.py:75 | `trains[:4]`: the first min(4, n) trains, in order. |
| `Layout.HeaderOps` | display_metro_graphics.py:52-69 | The header is 7 draw operations. |
| `Layout.RowOps` | display_metro_graphics.py:86-95 | A train row is 4 draw operations. |
| `Layout.FormatRowsAt` | display_metro_graphics.py:75-95 | There is one row per train, and row i is train i formatted. |
| `Layout.FormatRowsSnoc` | display_metro_graphics.py:75-95 | Formatting one more train appends that train's row. |
| `Layout.RowsOpsLength` | display_metro_graphics.py:75-97 | Each row contributes 4 operations. |
| `Layout.RowsOpsSnoc` | display_metro_graphics.py:86-97 | A row added at the end is drawn 20 pixels per earlier row below the first row. |
| `Layout.RowsOpsAt` | display_metro_graphics.py:72-97 | Operations 4i..4i+3 are row i, drawn at the first row's y + 20i. |
| `Layout.FrameLength` | display_metro_graphics.py:51-97 | The frame is 7 header operations plus 4 per shown train, so at most 23. |
| `Layout.FrameHeader` | display_metro_graphics.py:51-69 | The station is at (5, 2) and the clock at y = 2, and the clock ends 5 pixels before the right edge (x = width − measured width − 5). The separator runs from (0, 17) to (width, 17). The labels are at x = 5, 40, 160, 195 and y = 20. |
| `Layout.FrameRow` | display_metro_graphics.py:72-97 | Row i of the frame is train i formatted, at y = 38 + 20i. |
| `Layout.ColumnsAligned` | display_metro_graphics.py:64-97 | Every cell of every row has the x of its column label and the y of its row. |
| `Layout.EmptyFrame` | display_metro_graphics.py:75 | With no stored trains, the frame is the header alone. |
| `Layout.LaterTrainsIgnored` | display_metro_graphics.py:75 | Trains after the fourth have no influence on the frame. |

## Left out

- PIL rasterisation, TrueType fonts and colours. The frame is a list of draw operations, each labelled with one of three fonts. Line width 1 and the black ink are not represented.
- Text measurement is an arbitrary function (`measure`). The bounding box arithmetic of `textbbox` is not modelled.
- `datetime.now()` is an argument. Only the C locale's `AM`/`PM` for `%p` is modelled.
- The entry-point script (SPI and GPIO setup, button polling, HTTP requests to the arrivals service and the main loop) is not part of this model. Neither is the network smoke-test script.
- A train record is a mapping from strings to strings. JSON `null`, and numbers where the code calls `str(car)`, are not modelled. A missing `Trains` key, or a first train without `LocationName`, raises `KeyError` in the code. The model reports it as an outcome, with nothing changed.
- `Formatting.ReplaceAll` is modelled literally for `.replace(" 0", " ")`. The lemmas prove it never changes the clock text; they do not prove its general properties.
- The panel driver's own behaviour (how it refreshes the glass) is outside the model. Only the order of the commands sent is modelled.
