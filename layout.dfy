/**
 * The layout of the departures board as a sequence of draw operations:
 * a header with the station name and the clock, a separator line, a row of
 * column labels and up to MAX_ROWS train rows at a fixed pitch.
 */
module Layout {
  import opened Wrappers
  import opened Formatting

  /** The three faces the board uses (DejaVu Sans Bold 14 and 16, DejaVu Sans 12). */
  datatype Font = HeaderFont | TrainFont | SmallFont

  /** One drawing call on the frame; every call draws in black. */
  datatype DrawOp =
    | Text(x: int, y: int, content: string, font: Font)
    | Line(x0: int, y0: int, x1: int, y1: int)

  const MAX_ROWS := 4
  const INSET := 5
  const HEADER_Y := 2
  const SEPARATOR_Y := 17
  const LABEL_Y := 20
  const FIRST_ROW_Y := 38
  const ROW_PITCH := 20
  const LINE_X := 5
  const DESTINATION_X := 40
  const CAR_X := 160
  const ARRIVAL_X := 195

  /** Draw operations before the first train row. */
  const HEADER_OPS := 7

  /** The header text for a station name that may still be unset (`name or ""`). */
  function StationText(name: Option<string>): (r: string)
    ensures name.Some? ==> r == name.value
    ensures name.None? ==> r == ""
  {
    match name
    case None => ""
    case Some(s) => s
  }

  /** The trains a board shows: the first MAX_ROWS, in their order (`trains[:4]`). */
  function ShownTrains(trains: seq<Train>): (r: seq<Train>)
    ensures |r| == (if |trains| < MAX_ROWS then |trains| else MAX_ROWS)
    ensures r == trains[..|r|]
  {
    trains[..if |trains| < MAX_ROWS then |trains| else MAX_ROWS]
  }

  /** The y coordinate of train row i (0-based). */
  function RowY(i: int): int
  {
    FIRST_ROW_Y + ROW_PITCH * i
  }

  /** The header: station at the left inset, clock at `timeX`, separator, column labels. */
  function HeaderOps(station: string, time: string, timeX: int, width: int): (r: seq<DrawOp>)
    ensures |r| == HEADER_OPS
  {
    [ Text(INSET, HEADER_Y, station, HeaderFont),
      Text(timeX, HEADER_Y, time, HeaderFont),
      Line(0, SEPARATOR_Y, width, SEPARATOR_Y),
      Text(LINE_X, LABEL_Y, "Ln", SmallFont),
      Text(DESTINATION_X, LABEL_Y, "Destination", SmallFont),
      Text(CAR_X, LABEL_Y, "Car", SmallFont),
      Text(ARRIVAL_X, LABEL_Y, "Arrival", SmallFont) ]
  }

  /** One train row at height y: line, destination, car, arrival. */
  function RowOps(row: Row, y: int): (r: seq<DrawOp>)
    ensures |r| == 4
  {
    [ Text(LINE_X, y, row.line, TrainFont),
      Text(DESTINATION_X, y, row.destination, TrainFont),
      Text(CAR_X, y, row.car, TrainFont),
      Text(ARRIVAL_X, y, row.arrival, TrainFont) ]
  }

  /** The formatted row of every train, in order. */
  function FormatRows(trains: seq<Train>): seq<Row>
    decreases |trains|
  {
    if trains == [] then [] else [FormatRow(trains[0])] + FormatRows(trains[1..])
  }

  /** Row i is the formatted train i, and there is one row per train. */
  lemma {:induction false} FormatRowsAt(trains: seq<Train>, i: int)
    requires 0 <= i < |trains|
    ensures |FormatRows(trains)| == |trains|
    ensures FormatRows(trains)[i] == FormatRow(trains[i])
    decreases |trains|
  {
    if i == 0 {
      FormatRowsLength(trains);
    } else {
      var rest := FormatRows(trains[1..]);
      FormatRowsAt(trains[1..], i - 1);
      assert FormatRows(trains) == [FormatRow(trains[0])] + rest;
      assert FormatRows(trains)[i] == rest[i - 1];
      assert trains[1..][i - 1] == trains[i];
    }
  }

  lemma {:induction false} FormatRowsLength(trains: seq<Train>)
    ensures |FormatRows(trains)| == |trains|
    decreases |trains|
  {
    if trains != [] {
      FormatRowsLength(trains[1..]);
    }
  }

  /** Formatting one more train adds its row at the end. */
  lemma {:induction false} FormatRowsSnoc(trains: seq<Train>, train: Train)
    ensures FormatRows(trains + [train]) == FormatRows(trains) + [FormatRow(train)]
    decreases |trains|
  {
    if trains == [] {
      assert [train][1..] == [];
    } else {
      assert (trains + [train])[1..] == trains[1..] + [train];
      FormatRowsSnoc(trains[1..], train);
    }
  }

  /** The operations for `rows`, the first at height y and each next one ROW_PITCH lower. */
  function RowsOps(rows: seq<Row>, y: int): (r: seq<DrawOp>)
    decreases |rows|
  {
    if rows == [] then [] else RowOps(rows[0], y) + RowsOps(rows[1..], y + ROW_PITCH)
  }

  /**
   * The whole frame for a station name, a stored train list and the clock
   * text whose measured width is `timeWidth`: the clock is right-aligned so
   * that it ends INSET pixels before the right edge.
   */
  function BoardOps(station: Option<string>, trains: seq<Train>, time: string, width: int, timeWidth: int): seq<DrawOp>
  {
    HeaderOps(StationText(station), time, width - timeWidth - INSET, width)
    + RowsOps(FormatRows(ShownTrains(trains)), FIRST_ROW_Y)
  }

  // ---------------------------------------------------------------------------
  // Properties of the layout
  // ---------------------------------------------------------------------------

  /** Each row contributes exactly four draw operations. */
  lemma {:induction false} RowsOpsLength(rows: seq<Row>, y: int)
    ensures |RowsOps(rows, y)| == 4 * |rows|
    decreases |rows|
  {
    if rows != [] {
      RowsOpsLength(rows[1..], y + ROW_PITCH);
    }
  }

  /** Adding a row at the end draws it ROW_PITCH below the previous last row. */
  lemma {:induction false} RowsOpsSnoc(rows: seq<Row>, row: Row, y: int)
    ensures RowsOps(rows + [row], y) == RowsOps(rows, y) + RowOps(row, y + ROW_PITCH * |rows|)
    decreases |rows|
  {
    if rows == [] {
      assert [row][1..] == [];
    } else {
      assert (rows + [row])[1..] == rows[1..] + [row];
      RowsOpsSnoc(rows[1..], row, y + ROW_PITCH);
    }
  }

  /** The operations 4i .. 4i+3 are those of row i, drawn at y + ROW_PITCH * i. */
  lemma {:induction false} RowsOpsAt(rows: seq<Row>, y: int, i: int)
    requires 0 <= i < |rows|
    ensures |RowsOps(rows, y)| == 4 * |rows|
    ensures RowsOps(rows, y)[4 * i..4 * i + 4] == RowOps(rows[i], y + ROW_PITCH * i)
    decreases |rows|
  {
    RowsOpsLength(rows, y);
    var head := RowOps(rows[0], y);
    var tail := RowsOps(rows[1..], y + ROW_PITCH);
    assert RowsOps(rows, y) == head + tail;
    if i == 0 {
      assert (head + tail)[0..4] == head;
    } else {
      RowsOpsAt(rows[1..], y + ROW_PITCH, i - 1);
      assert rows[1..][i - 1] == rows[i];
      assert (head + tail)[4 * i..4 * i + 4] == tail[4 * (i - 1)..4 * (i - 1) + 4];
    }
  }

  /**
   * The frame holds the seven header operations and then one four-operation
   * row for each shown train and nothing else: at most MAX_ROWS rows, so the
   * fifth and later trains never reach the frame.
   */
  lemma FrameLength(station: Option<string>, trains: seq<Train>, time: string, width: int, timeWidth: int)
    ensures |BoardOps(station, trains, time, width, timeWidth)| == HEADER_OPS + 4 * |ShownTrains(trains)|
    ensures |BoardOps(station, trains, time, width, timeWidth)| <= HEADER_OPS + 4 * MAX_ROWS
  {
    FormatRowsLength(ShownTrains(trains));
    RowsOpsLength(FormatRows(ShownTrains(trains)), FIRST_ROW_Y);
  }

  /**
   * The header: the station text at (5, 2), the clock right-aligned at
   * y = 2 ending INSET pixels before the right edge, the separator at y = 17
   * across the whole width, and the column labels at y = 20.
   */
  lemma FrameHeader(station: Option<string>, trains: seq<Train>, time: string, width: int, timeWidth: int)
    ensures var ops := BoardOps(station, trains, time, width, timeWidth);
      && |ops| >= HEADER_OPS
      && ops[0] == Text(5, 2, StationText(station), HeaderFont)
      && ops[1].Text? && ops[1].y == 2 && ops[1].content == time && ops[1].font == HeaderFont
      && ops[1].x + timeWidth + INSET == width
      && ops[2] == Line(0, 17, width, 17)
      && ops[3..7] == [Text(5, 20, "Ln", SmallFont), Text(40, 20, "Destination", SmallFont),
                       Text(160, 20, "Car", SmallFont), Text(195, 20, "Arrival", SmallFont)]
  {
  }

  /**
   * Row i of the frame (0-based) is the formatted row of the i-th stored
   * train, placed at y = RowY(i) = 38 + 20 i.
   */
  lemma FrameRow(station: Option<string>, trains: seq<Train>, time: string, width: int, timeWidth: int, i: int)
    requires 0 <= i < |ShownTrains(trains)|
    ensures var ops := BoardOps(station, trains, time, width, timeWidth);
      && |ops| >= HEADER_OPS + 4 * i + 4
      && ops[HEADER_OPS + 4 * i..HEADER_OPS + 4 * i + 4] == RowOps(FormatRow(trains[i]), RowY(i))
  {
    var header := HeaderOps(StationText(station), time, width - timeWidth - INSET, width);
    var rows := RowsOps(FormatRows(ShownTrains(trains)), FIRST_ROW_Y);
    FormatRowsAt(ShownTrains(trains), i);
    RowsOpsAt(FormatRows(ShownTrains(trains)), FIRST_ROW_Y, i);
    assert RowY(i) == FIRST_ROW_Y + ROW_PITCH * i;
    assert rows[4 * i..4 * i + 4] == RowOps(FormatRow(trains[i]), RowY(i));
    assert (header + rows)[HEADER_OPS + 4 * i..HEADER_OPS + 4 * i + 4] == rows[4 * i..4 * i + 4];
  }

  /**
   * Every cell of row i sits under its column label: the k-th cell of a row
   * has the x of the k-th label and the y of its row.
   */
  lemma ColumnsAligned(station: Option<string>, trains: seq<Train>, time: string, width: int, timeWidth: int,
                       i: int, k: int)
    requires 0 <= i < |ShownTrains(trains)| && 0 <= k < 4
    ensures var ops := BoardOps(station, trains, time, width, timeWidth);
      && |ops| > HEADER_OPS + 4 * i + k
      && ops[HEADER_OPS + 4 * i + k].Text? && ops[3 + k].Text?
      && ops[HEADER_OPS + 4 * i + k].x == ops[3 + k].x
      && ops[HEADER_OPS + 4 * i + k].y == RowY(i)
  {
    FrameRow(station, trains, time, width, timeWidth, i);
    FrameHeader(station, trains, time, width, timeWidth);
    var ops := BoardOps(station, trains, time, width, timeWidth);
    var row := RowOps(FormatRow(trains[i]), RowY(i));
    var labels := [Text(5, 20, "Ln", SmallFont), Text(40, 20, "Destination", SmallFont),
                   Text(160, 20, "Car", SmallFont), Text(195, 20, "Arrival", SmallFont)];
    assert ops[HEADER_OPS + 4 * i + k] == ops[HEADER_OPS + 4 * i..HEADER_OPS + 4 * i + 4][k] == row[k];
    assert ops[3 + k] == ops[3..7][k] == labels[k];
    assert row[k].Text? && row[k].x == labels[k].x && row[k].y == RowY(i) by {
      if k == 0 {} else if k == 1 {} else if k == 2 {} else {}
    }
  }

  /** With no trains the frame is the header alone: no data rows. */
  lemma EmptyFrame(station: Option<string>, time: string, width: int, timeWidth: int)
    ensures BoardOps(station, [], time, width, timeWidth)
            == HeaderOps(StationText(station), time, width - timeWidth - INSET, width)
  {
  }

  /** Trains after the fourth have no influence on the frame. */
  lemma LaterTrainsIgnored(station: Option<string>, trains: seq<Train>, time: string, width: int, timeWidth: int)
    requires |trains| >= MAX_ROWS
    ensures BoardOps(station, trains, time, width, timeWidth)
            == BoardOps(station, trains[..MAX_ROWS], time, width, timeWidth)
  {
    assert ShownTrains(trains) == ShownTrains(trains[..MAX_ROWS]);
  }
}
