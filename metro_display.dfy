/**
 * The departures board session: it takes an arrivals snapshot, keeps the
 * station name and up to four trains, and on every update renders the
 * board and commits it to the panel, with a full white-out on every tenth
 * update (the first, the eleventh, ...) to purge e-paper ghosting.
 */
module MetroDisplay {
  import opened Wrappers
  import opened Formatting
  import opened Layout
  import opened Epd

  /** Updates between two anti-ghosting full clears. */
  const FULL_CLEAR_INTERVAL := 10

  /** The header shown when the snapshot has no trains. */
  const NO_SERVICE := "No Service"

  /** The wall-clock time an update draws. */
  datatype Clock = Clock(hour: Hour, minute: Minute)

  /** An arrivals response; `trains` is None when it has no "Trains" key. */
  datatype MetroStatus = MetroStatus(trains: Option<seq<Train>>)

  /** What a snapshot leaves on the board: the header name and the stored trains. */
  datatype Board = Board(station: string, trains: seq<Train>)

  /** How a snapshot was taken: shown, or stopped by a missing key. */
  datatype Outcome = Shown | KeyError(key: string)

  // ---------------------------------------------------------------------------
  // Snapshot ingestion
  // ---------------------------------------------------------------------------

  /**
   * The board a snapshot yields. With trains, the header is the first
   * train's `LocationName` and the first min(4, n) trains are kept in order;
   * without trains, the header is "No Service" and nothing is kept. A
   * missing "Trains" key, or a first train without `LocationName`, is a
   * lookup error.
   */
  function Ingest(status: MetroStatus): (r: Result<Board, string>)
    ensures status.trains.None? ==> r == Err("Trains")
    ensures status.trains == Some([]) ==> r == Ok(Board(NO_SERVICE, []))
    ensures status.trains.Some? && status.trains.value != [] ==>
              var all := status.trains.value;
              && (r.Ok? <==> "LocationName" in all[0])
              && (r.Err? ==> r.error == "LocationName")
              && (r.Ok? ==> && r.value.station == all[0]["LocationName"]
                            && |r.value.trains| == (if |all| < MAX_ROWS then |all| else MAX_ROWS)
                            && r.value.trains == all[..|r.value.trains|])
    ensures r.Ok? ==> |r.value.trains| <= MAX_ROWS
  {
    match status.trains
    case None => Err("Trains")
    case Some(all) =>
      if |all| > 0 then
        if "LocationName" in all[0] then Ok(Board(all[0]["LocationName"], ShownTrains(all)))
        else Err("LocationName")
      else Ok(Board(NO_SERVICE, []))
  }

  // ---------------------------------------------------------------------------
  // Refresh policy
  // ---------------------------------------------------------------------------

  /** Whether the update that brings the counter to `count` starts with a full clear. */
  predicate FullClearDue(count: int)
  {
    count % FULL_CLEAR_INTERVAL == 1
  }

  /** The number of the k-th update (0-based) that does a full clear. */
  function NthFullClear(k: nat): nat
  {
    FULL_CLEAR_INTERVAL * k + 1
  }

  /** The full clears fall exactly on updates 1, 11, 21, ... */
  lemma FullClearSchedule(count: nat)
    ensures FullClearDue(count) <==> exists k: nat :: count == NthFullClear(k)
  {
    if FullClearDue(count) {
      var k := count / FULL_CLEAR_INTERVAL;
      assert count == NthFullClear(k);
    }
  }

  /** How many of the updates 1 .. n do a full clear. */
  function ClearsUpTo(n: nat): nat
  {
    if n == 0 then 0 else ClearsUpTo(n - 1) + (if FullClearDue(n) then 1 else 0)
  }

  /** One full clear for every started block of ten updates. */
  lemma {:induction false} ClearsUpToCount(n: nat)
    ensures ClearsUpTo(n) == (n + FULL_CLEAR_INTERVAL - 1) / FULL_CLEAR_INTERVAL
  {
    if n > 0 {
      ClearsUpToCount(n - 1);
    }
  }

  /** The anti-ghosting pass of the update that brings the counter to `count`, if it is due. */
  function ClearCommands(count: int): seq<Command>
  {
    if FullClearDue(count) then [FillCmd(White), DisplayCmd] else []
  }

  /** The panel commands of the update that brings the counter to `count`. */
  function UpdateCommands(count: int, frame: Frame): seq<Command>
  {
    ClearCommands(count) + [FillCmd(White), ImageCmd(frame), DisplayCmd]
  }

  /**
   * An update sends five commands when the full clear is due and three
   * otherwise: the optional fill white and display, then always fill white,
   * image and display, in that order.
   */
  lemma CommitOrder(count: int, frame: Frame)
    ensures var r := UpdateCommands(count, frame);
      && |r| == (if FullClearDue(count) then 5 else 3)
      && r[|r| - 3..] == [FillCmd(White), ImageCmd(frame), DisplayCmd]
      && (FullClearDue(count) ==> r[..2] == [FillCmd(White), DisplayCmd])
  {
  }

  /** Command i of the log stages an image. */
  predicate StagesImage(log: seq<Command>, i: int)
  {
    0 <= i < |log| && log[i].ImageCmd?
  }

  /** Every staged image is pushed to the glass by the very next command. */
  ghost predicate Committed(log: seq<Command>)
  {
    forall i :: StagesImage(log, i) ==> i + 1 < |log| && log[i + 1] == DisplayCmd
  }

  /** An update never leaves a staged image without a display behind it. */
  lemma UpdateKeepsCommitted(log: seq<Command>, count: int, frame: Frame)
    requires Committed(log)
    ensures Committed(log + UpdateCommands(count, frame))
  {
    CommitOrder(count, frame);
    var cmds := UpdateCommands(count, frame);
    var all := log + cmds;
    forall i | StagesImage(all, i)
      ensures i + 1 < |all| && all[i + 1] == DisplayCmd
    {
      if i < |log| {
        assert StagesImage(log, i);
      } else {
        assert all[i] == cmds[i - |log|];
        assert i - |log| == |cmds| - 2;
      }
    }
  }

  // ---------------------------------------------------------------------------
  // The display session
  // ---------------------------------------------------------------------------

  class MetroGraphics {
    const display: Panel
    /** The width the header font gives a string (its text bounding box). */
    const measure: string -> int
    var stationName: Option<string>
    var trains: seq<Train>
    var refreshCount: nat

    /** The stored train list never exceeds the board's rows. */
    ghost predicate Valid()
      reads this
    {
      |trains| <= MAX_ROWS
    }

    constructor (display: Panel, measure: string -> int)
      ensures Valid()
      ensures this.display == display && this.measure == measure
      ensures stationName == None && trains == [] && refreshCount == 0
    {
      this.display := display;
      this.measure := measure;
      stationName := None;
      trains := [];
      refreshCount := 0;
    }

    /** The frame an update of the current state draws at `clock`. */
    function Render(clock: Clock): Frame
      reads this
    {
      var time := TimeText(clock.hour, clock.minute);
      Frame(display.width, display.height, White,
            BoardOps(stationName, trains, time, display.width, measure(time)))
    }

    /**
     * Takes a snapshot and updates the board, or, when a key it needs is
     * missing, stops before changing anything.
     */
    method DisplayMetro(status: MetroStatus, clock: Clock) returns (outcome: Outcome)
      requires Valid()
      modifies this, display
      ensures Valid()
      ensures Ingest(status).Err? ==>
                && outcome == KeyError(Ingest(status).error)
                && stationName == old(stationName) && trains == old(trains)
                && refreshCount == old(refreshCount) && display.log == old(display.log)
      ensures Ingest(status).Ok? ==>
                && outcome == Shown
                && stationName == Some(Ingest(status).value.station)
                && trains == Ingest(status).value.trains
                && refreshCount == old(refreshCount) + 1
                && display.log == old(display.log) + UpdateCommands(refreshCount, Render(clock))
    {
      if status.trains.None? {
        return KeyError("Trains");
      }
      var all := status.trains.value;
      if |all| > 0 {
        if "LocationName" !in all[0] {
          return KeyError("LocationName");
        }
        stationName := Some(all[0]["LocationName"]);
        trains := ShownTrains(all);
      } else {
        stationName := Some(NO_SERVICE);
        trains := [];
      }
      UpdateDisplay(clock);
      outcome := Shown;
    }

    /** The clock tick of the main loop: this board does nothing on it. */
    method UpdateTime()
      ensures unchanged(this, display)
    {
    }

    /**
     * Renders the stored state and commits it: counts the update, does the
     * full clear when it is due, then fills white, stages the frame and
     * displays it.
     */
    method UpdateDisplay(clock: Clock)
      modifies this`refreshCount, display
      ensures refreshCount == old(refreshCount) + 1
      ensures display.log == old(display.log) + UpdateCommands(refreshCount, Render(clock))
      ensures Committed(old(display.log)) ==> Committed(display.log)
    {
      ghost var log0 := display.log;
      refreshCount := refreshCount + 1;
      ClearIfDue();
      ghost var log1 := display.log;
      var timeText := TimeText(clock.hour, clock.minute);
      var ops := Draw(timeText);
      var frame := Frame(display.width, display.height, White, ops);
      Commit(frame);
      assert log1 + [FillCmd(White), ImageCmd(frame), DisplayCmd] == log0 + UpdateCommands(refreshCount, frame);
      if Committed(log0) {
        UpdateKeepsCommitted(log0, refreshCount, frame);
      }
    }

    /** The full clear of every FULL_CLEAR_INTERVAL-th update: fill white and display. */
    method ClearIfDue()
      modifies display
      ensures display.log == old(display.log) + ClearCommands(refreshCount)
    {
      if refreshCount % FULL_CLEAR_INTERVAL == 1 {
        display.Fill(White);
        display.Display();
      }
    }

    /** Fill white, stage the frame, display it. */
    method Commit(frame: Frame)
      modifies display
      ensures display.log == old(display.log) + [FillCmd(White), ImageCmd(frame), DisplayCmd]
    {
      display.Fill(White);
      display.Image(frame);
      display.Display();
    }

    /**
     * The drawing part of an update: the header, the column labels and one
     * row per stored train (at most four), each ROW_PITCH below the last.
     */
    method Draw(timeText: string) returns (ops: seq<DrawOp>)
      ensures ops == BoardOps(stationName, trains, timeText, display.width, measure(timeText))
    {
      var y := HEADER_Y;
      var stationText := StationText(stationName);
      ops := [Text(INSET, y, stationText, HeaderFont)];
      var timeWidth := measure(timeText);
      ops := ops + [Text(display.width - timeWidth - INSET, y, timeText, HeaderFont)];
      ops := ops + [Line(0, SEPARATOR_Y, display.width, SEPARATOR_Y)];

      y := LABEL_Y;
      ops := ops + [Text(LINE_X, y, "Ln", SmallFont), Text(DESTINATION_X, y, "Destination", SmallFont),
                    Text(CAR_X, y, "Car", SmallFont), Text(ARRIVAL_X, y, "Arrival", SmallFont)];
      ghost var header := ops;
      assert header == HeaderOps(stationText, timeText, display.width - timeWidth - INSET, display.width);

      y := FIRST_ROW_Y;
      var rowHeight := ROW_PITCH;
      var shown := ShownTrains(trains);
      var i := 0;
      while i < |shown|
        invariant 0 <= i <= |shown|
        invariant y == FIRST_ROW_Y + rowHeight * i
        invariant ops == header + RowsOps(FormatRows(shown[..i]), FIRST_ROW_Y)
      {
        var train := shown[i];
        var line := Get(train, "Line", "--");
        var car := Get(train, "Car", "-");
        var destination := Get(train, "DestinationName", "Unknown");
        var minVal := Get(train, "Min", "-");
        destination := Truncate(destination);
        ops := ops + [Text(LINE_X, y, line, TrainFont), Text(DESTINATION_X, y, destination, TrainFont),
                      Text(CAR_X, y, car, TrainFont)];
        var arrivalText := ArrivalText(minVal);
        ops := ops + [Text(ARRIVAL_X, y, arrivalText, TrainFont)];

        assert Row(line, destination, car, arrivalText) == FormatRow(train);
        FormatRowsPrefix(shown, i);
        DrawRowStep(header, FormatRows(shown[..i]), Row(line, destination, car, arrivalText), y);
        y := y + rowHeight;
        i := i + 1;
      }
      assert shown[..i] == shown;
    }
  }

  /** Drawing the next train's row formats one more train of `shown`. */
  lemma {:induction false} FormatRowsPrefix(shown: seq<Train>, i: int)
    requires 0 <= i < |shown|
    ensures |FormatRows(shown[..i])| == i
    ensures FormatRows(shown[..i + 1]) == FormatRows(shown[..i]) + [FormatRow(shown[i])]
  {
    assert shown[..i + 1] == shown[..i] + [shown[i]];
    FormatRowsSnoc(shown[..i], shown[i]);
    FormatRowsLength(shown[..i]);
  }

  /**
   * Drawing the four cells of `row` where the next row belongs extends the
   * operations of `rows` by exactly that row.
   */
  lemma DrawRowStep(header: seq<DrawOp>, rows: seq<Row>, row: Row, y: int)
    requires y == FIRST_ROW_Y + ROW_PITCH * |rows|
    ensures header + RowsOps(rows, FIRST_ROW_Y)
              + [Text(LINE_X, y, row.line, TrainFont), Text(DESTINATION_X, y, row.destination, TrainFont),
                 Text(CAR_X, y, row.car, TrainFont)]
              + [Text(ARRIVAL_X, y, row.arrival, TrainFont)]
            == header + RowsOps(rows + [row], FIRST_ROW_Y)
  {
    RowsOpsSnoc(rows, row, FIRST_ROW_Y);
    var three := [Text(LINE_X, y, row.line, TrainFont), Text(DESTINATION_X, y, row.destination, TrainFont),
                  Text(CAR_X, y, row.car, TrainFont)];
    var one := [Text(ARRIVAL_X, y, row.arrival, TrainFont)];
    assert three + one == RowOps(row, y);
    var drawn := RowsOps(rows, FIRST_ROW_Y);
    assert header + drawn + three + one == header + (drawn + (three + one));
  }

  // ---------------------------------------------------------------------------
  // Two boards worked through
  // ---------------------------------------------------------------------------

  /** A one-train snapshot shows its station and one row with "12 mins". */
  lemma MetroCenterScenario(time: string, width: int, timeWidth: int)
    ensures var train := map["LocationName" := "Metro Center", "DestinationName" := "Shady Grove",
                             "Line" := "RD", "Car" := "8", "Min" := "12"];
      var r := Ingest(MetroStatus(Some([train])));
      && r == Ok(Board("Metro Center", [train]))
      && BoardOps(Some(r.value.station), r.value.trains, time, width, timeWidth)[HEADER_OPS..]
         == [Text(5, 38, "RD", TrainFont), Text(40, 38, "Shady Grove", TrainFont),
             Text(160, 38, "8", TrainFont), Text(195, 38, "12 mins", TrainFont)]
  {
    var train := map["LocationName" := "Metro Center", "DestinationName" := "Shady Grove",
                     "Line" := "RD", "Car" := "8", "Min" := "12"];
    var r := Ingest(MetroStatus(Some([train])));
    assert "LocationName" in train && [train][..1] == [train];
    assert r == Ok(Board("Metro Center", [train]));
    var row := Row("RD", "Shady Grove", "8", "12 mins");
    assert ArrivalText("12") == "12 mins";
    assert FormatRow(train) == row;
    assert ShownTrains([train]) == [train];
    assert [train][1..] == [];
    assert FormatRows([train]) == [row];
    assert [row][1..] == [];
    assert RowsOps([row], FIRST_ROW_Y) == RowOps(row, FIRST_ROW_Y);
    var header := HeaderOps(StationText(Some("Metro Center")), time, width - timeWidth - INSET, width);
    assert BoardOps(Some(r.value.station), r.value.trains, time, width, timeWidth) == header + RowOps(row, FIRST_ROW_Y);
  }

  /** An empty snapshot shows "No Service" and the header alone. */
  lemma NoServiceScenario(time: string, width: int, timeWidth: int)
    ensures var r := Ingest(MetroStatus(Some([])));
      && r == Ok(Board(NO_SERVICE, []))
      && BoardOps(Some(r.value.station), r.value.trains, time, width, timeWidth)
         == HeaderOps(NO_SERVICE, time, width - timeWidth - INSET, width)
  {
    assert FormatRows(ShownTrains([])) == [];
  }
}
