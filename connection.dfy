/** `ExcelConnection` of `connection.py`: configuration checks, the choice of
    sheets, record cleaning and the sync loop. */
module Connection {
  import opened Wrappers
  import opened Values
  import opened Normalize
  import TapExcel

  /** A configuration value as JSON gives it. */
  datatype Json = JNull | JBool(b: bool) | JInt(i: int) | JFloat(x: real) | JString(s: string)

  /** The configuration entries the connection reads; `None` is an absent
      key. */
  datatype Config = Config(sheets: Option<seq<string>>, chunkSize: Option<Json>, floatPrecision: Option<int>)

  const DefaultChunkSize: int := 1000

  /** `config.get('chunk_size', 1000)` */
  function ConfiguredChunkSize(config: Config): Json {
    config.chunkSize.GetOr(JInt(DefaultChunkSize))
  }

  /** `isinstance(v, int) and not v <= 0`. A bool is an int in Python, and
      compares as 0 or 1. */
  predicate ChunkSizeValid(v: Json) {
    match v
    case JInt(i) => i > 0
    case JBool(b) => b
    case _ => false
  }

  datatype ConfigError = FileNotFound | BadChunkSize

  /** The configured chunk size is rejected exactly when it is not an int
      or not positive; the default 1000 is accepted. */
  lemma ChunkSizeRule(config: Config)
    ensures ChunkSizeValid(ConfiguredChunkSize(config)) <==>
      config.chunkSize.None? ||
      (config.chunkSize.value.JInt? && config.chunkSize.value.i > 0) ||
      config.chunkSize.value == JBool(true)
  {
  }

  // ---- choice of sheets ----

  datatype Selection = Selection(sheets: set<string>, warned: bool)

  /** `validate_requested_sheets` over the workbook's sheet names: all of
      them when nothing is requested, else the requested ones the workbook
      has; `warned` is the missing-sheets warning. */
  function ValidateRequestedSheets(requested: Option<seq<string>>, available: set<string>): (r: Selection)
    ensures r.sheets <= available
  {
    if requested.None? || requested.value == [] then Selection(available, false)
    else
      var wanted := set s | s in requested.value;
      var missing := wanted - available;
      Selection(wanted * available, missing != {})
  }

  /** With a non-empty request, a sheet is chosen exactly when it is both
      requested and available, and the warning is given exactly when some
      requested sheet is missing; with none, every sheet is chosen. */
  lemma ValidateRequestedSheetsSpec(requested: Option<seq<string>>, available: set<string>)
    ensures requested.None? || requested.value == [] ==>
      ValidateRequestedSheets(requested, available) == Selection(available, false)
    ensures requested.Some? && requested.value != [] ==>
      (forall x :: x in ValidateRequestedSheets(requested, available).sheets <==> x in requested.value && x in available)
      && (ValidateRequestedSheets(requested, available).warned <==> exists x :: x in requested.value && x !in available)
  {
    if requested.Some? && requested.value != [] {
      var wanted := set s | s in requested.value;
      if exists x :: x in requested.value && x !in available {
        var x :| x in requested.value && x !in available;
        assert x in wanted - available;
      }
    }
  }

  /** The two ways of choosing sheets agree: the connection chooses the set
      of sheets that discovery lists, and both warn in the same cases. */
  lemma SelectionsAgree(available: seq<string>, requested: Option<seq<string>>)
    ensures var d := TapExcel.DiscoverStreams(available, requested);
      var v := ValidateRequestedSheets(requested, set s | s in available);
      (set s | s in d.sheets) == v.sheets && d.warned == v.warned
  {
    if requested.Some? && requested.value != [] {
      var d := TapExcel.DiscoverStreams(available, requested);
      forall x ensures x in d.sheets <==> x in requested.value && x in available {
        TapExcel.KeepAvailableMember(requested.value, available, x);
      }
    }
  }

  // ---- sync ----

  /** The Singer state: stream name to bookmark. */
  type State = map<string, Json>

  /** `state or {}` */
  function StateOrEmpty(state: Option<State>): State {
    if state.None? then map[] else state.value
  }

  /** One `singer.write_record(stream, record)`. */
  datatype Emission = Emission(stream: string, record: Record)

  /** `read_sheet_chunks(sheet)`: the data frames a chunked read of a sheet
      yields with the configured chunk size. */
  type ChunkReader = (string, Json) -> seq<DataFrame>

  /** The rows of all chunks, chunk after chunk. */
  function AllRows(chunks: seq<DataFrame>): (rows: seq<Record>) {
    if chunks == [] then []
    else AllRows(chunks[..|chunks| - 1]) + Rows(chunks[|chunks| - 1])
  }

  /** What syncing one sheet writes: each row cleaned, in row order. */
  function SheetOutput(name: string, rows: seq<Record>, precision: int, round: Rounding): (es: seq<Emission>)
    ensures |es| == |rows|
  {
    if rows == [] then []
    else
      var last := rows[|rows| - 1];
      SheetOutput(name, rows[..|rows| - 1], precision, round) + [Emission(name, Cleaned(last, precision, round))]
  }

  /** What syncing the sheets in `order` writes, sheet after sheet, given
      what syncing each sheet writes. */
  function Concat(order: seq<string>, writes: string -> seq<Emission>): seq<Emission> {
    if order == [] then []
    else Concat(order[..|order| - 1], writes) + writes(order[|order| - 1])
  }

  /** What syncing each sheet writes with this reader and configuration. */
  function SheetWrites(reader: ChunkReader, chunkSize: Json, precision: int, round: Rounding): string -> seq<Emission> {
    name => SheetOutput(name, AllRows(reader(name, chunkSize)), precision, round)
  }

  /** What syncing the sheets in `order` writes. */
  function SyncOutput(order: seq<string>, reader: ChunkReader, chunkSize: Json, precision: int, round: Rounding): seq<Emission> {
    Concat(order, SheetWrites(reader, chunkSize, precision, round))
  }

  predicate Distinct(xs: seq<string>) {
    forall i, j :: 0 <= i < j < |xs| ==> xs[i] != xs[j]
  }

  class ExcelConnection {
    const config: Config
    /** `self.chunk_size`, set by `validate_config`. */
    var chunkSize: Json

    /** `__init__` stores the configuration; it then runs `validate_config`,
        whose failure is the exception `__init__` raises. */
    constructor (config: Config)
      ensures this.config == config && chunkSize == JNull
    {
      this.config := config;
      chunkSize := JNull;
    }

    /** `validate_config`: the file must exist; then the chunk size is set
        from the configuration (1000 by default) and must be a positive
        int. */
    method ValidateConfig(fileExists: bool) returns (r: Outcome<ConfigError>)
      modifies this
      ensures !fileExists ==> r == Fail(FileNotFound) && chunkSize == old(chunkSize)
      ensures fileExists ==> chunkSize == ConfiguredChunkSize(config)
      ensures fileExists ==> r == if ChunkSizeValid(chunkSize) then Pass else Fail(BadChunkSize)
    {
      if !fileExists {
        return Fail(FileNotFound);
      }
      chunkSize := ConfiguredChunkSize(config);
      match chunkSize {
        case JInt(i) =>
          if i <= 0 { return Fail(BadChunkSize); }
        case JBool(b) =>
          if !b { return Fail(BadChunkSize); }
        case _ =>
          return Fail(BadChunkSize);
      }
      r := Pass;
    }

    /** `clean_record(record, float_precision)`: builds the cleaned
        dictionary key by key. */
    method CleanRecord(round: Rounding, record: Record, floatPrecision: int := DefaultFloatPrecision)
      returns (cleaned: Record)
      ensures cleaned == Cleaned(record, floatPrecision, round)
    {
      cleaned := [];
      var i := 0;
      while i < |record|
        invariant 0 <= i <= |record|
        invariant cleaned == Cleaned(record[..i], floatPrecision, round)
      {
        var k, v := record[i].key, record[i].value;
        assert record[..i + 1][..i] == record[..i];
        if IsNa(v) {
          cleaned := cleaned + [Field(k, Null)];
        } else if v.Timestamp? {
          cleaned := cleaned + [Field(k, Text(v.iso))];
        } else if v.Timedelta? || v.DateTime? {
          cleaned := cleaned + [Field(k, Text(v.text))];
        } else if v.Float? {
          cleaned := cleaned + [Field(k, Float(round(v.x, floatPrecision)))];
        } else {
          cleaned := cleaned + [Field(k, v)];
        }
        i := i + 1;
      }
      assert record[..i] == record;
    }

    /** `sync(state)`: every chosen sheet, in the order the set yields them
        (`synced`, the sheets logged as synced), every chunk, every row is
        cleaned and written; the state comes back as given. */
    method Sync(round: Rounding, available: set<string>, reader: ChunkReader, state: Option<State> := None)
      returns (newState: State, synced: seq<string>, emitted: seq<Emission>)
      requires ChunkSizeValid(chunkSize)  // `__init__` has run `validate_config`
      ensures newState == StateOrEmpty(state)
      ensures Distinct(synced)
      ensures (set s | s in synced) == ValidateRequestedSheets(config.sheets, available).sheets
      ensures emitted == SyncOutput(synced, reader, chunkSize,
                                    config.floatPrecision.GetOr(DefaultFloatPrecision), round)
    {
      newState := StateOrEmpty(state);
      var precision := config.floatPrecision.GetOr(DefaultFloatPrecision);
      var selected := ValidateRequestedSheets(config.sheets, available).sheets;
      var remaining := selected;
      synced, emitted := [], [];
      while remaining != {}
        invariant remaining <= selected
        invariant forall s :: s in synced <==> s in selected && s !in remaining
        invariant Distinct(synced)
        invariant emitted == SyncOutput(synced, reader, chunkSize, precision, round)
        decreases remaining
      {
        var name :| name in remaining;
        var written := SyncSheet(round, name, reader(name, chunkSize), precision);
        assert (synced + [name])[..|synced|] == synced;
        assert SyncOutput(synced + [name], reader, chunkSize, precision, round) == emitted + written;
        emitted := emitted + written;
        synced := synced + [name];
        remaining := remaining - {name};
      }
      assert (set s | s in synced) == selected;
    }

    /** The chunk loop of `sync` for one sheet. */
    method SyncSheet(round: Rounding, name: string, chunks: seq<DataFrame>, precision: int)
      returns (written: seq<Emission>)
      ensures written == SheetOutput(name, AllRows(chunks), precision, round)
    {
      written := [];
      var c := 0;
      while c < |chunks|
        invariant 0 <= c <= |chunks|
        invariant written == SheetOutput(name, AllRows(chunks[..c]), precision, round)
      {
        var more := SyncChunk(round, name, chunks[c], precision);
        assert chunks[..c + 1][..c] == chunks[..c];
        SheetOutputAppend(name, AllRows(chunks[..c]), Rows(chunks[c]), precision, round);
        written := written + more;
        c := c + 1;
      }
      assert chunks[..c] == chunks;
    }

    /** The row loop of `sync` for one chunk. */
    method SyncChunk(round: Rounding, name: string, chunk: DataFrame, precision: int)
      returns (more: seq<Emission>)
      ensures more == SheetOutput(name, Rows(chunk), precision, round)
    {
      more := [];
      var i := 0;
      while i < chunk.height
        invariant 0 <= i <= chunk.height
        invariant more == SheetOutput(name, Rows(chunk)[..i], precision, round)
      {
        var record := CleanRecord(round, RowOf(chunk, i), precision);
        assert Rows(chunk)[..i + 1][..i] == Rows(chunk)[..i];
        more := more + [Emission(name, record)];
        i := i + 1;
      }
      assert Rows(chunk)[..i] == Rows(chunk);
    }
  }

  // ---- properties of the sync output ----

  /** The records written to one stream, in order. */
  function StreamEmissions(es: seq<Emission>, stream: string): seq<Emission> {
    if es == [] then []
    else
      StreamEmissions(es[..|es| - 1], stream)
        + (if es[|es| - 1].stream == stream then [es[|es| - 1]] else [])
  }

  lemma {:induction false} StreamEmissionsAppend(a: seq<Emission>, b: seq<Emission>, stream: string)
    ensures StreamEmissions(a + b, stream) == StreamEmissions(a, stream) + StreamEmissions(b, stream)
  {
    if b == [] {
      assert a + b == a;
    } else {
      var init := b[..|b| - 1];
      assert (a + b)[..|a + b| - 1] == a + init;
      StreamEmissionsAppend(a, init, stream);
    }
  }

  /** Syncing rows in two parts writes the same as syncing them at once:
      how the rows are split into chunks does not show in the output. */
  lemma {:induction false} SheetOutputAppend(name: string, a: seq<Record>, b: seq<Record>, precision: int, round: Rounding)
    ensures SheetOutput(name, a + b, precision, round) ==
      SheetOutput(name, a, precision, round) + SheetOutput(name, b, precision, round)
  {
    if b == [] {
      assert a + b == a;
    } else {
      var init := b[..|b| - 1];
      assert (a + b)[..|a + b| - 1] == a + init;
      SheetOutputAppend(name, a, init, precision, round);
    }
  }

  /** Syncing a sheet writes to that sheet's stream only. */
  lemma {:induction false} SheetOutputStream(name: string, rows: seq<Record>, precision: int, round: Rounding, stream: string)
    ensures StreamEmissions(SheetOutput(name, rows, precision, round), stream) ==
      if name == stream then SheetOutput(name, rows, precision, round) else []
  {
    if rows != [] {
      var out := SheetOutput(name, rows, precision, round);
      SheetOutputStream(name, rows[..|rows| - 1], precision, round, stream);
      assert out[..|out| - 1] == SheetOutput(name, rows[..|rows| - 1], precision, round);
    }
  }

  /** One sheet's output is its rows in order, each cleaned with the given
      precision. */
  lemma {:induction false} SheetOutputAt(name: string, rows: seq<Record>, precision: int, round: Rounding)
    ensures forall k :: 0 <= k < |rows| ==>
      SheetOutput(name, rows, precision, round)[k] == Emission(name, Cleaned(rows[k], precision, round))
  {
    if rows != [] {
      var init := rows[..|rows| - 1];
      SheetOutputAt(name, init, precision, round);
      forall k | 0 <= k < |rows| - 1
        ensures SheetOutput(name, rows, precision, round)[k] == Emission(name, Cleaned(rows[k], precision, round))
      {
        assert SheetOutput(name, rows, precision, round)[k] == SheetOutput(name, init, precision, round)[k];
      }
    }
  }

  /** When each sheet writes to its own stream only, a stream of the
      concatenation is exactly what its sheet wrote, or nothing for a sheet
      not in `order`. */
  lemma {:induction false} ConcatStream(order: seq<string>, writes: string -> seq<Emission>, stream: string)
    requires Distinct(order)
    requires forall s :: StreamEmissions(writes(s), stream) == if s == stream then writes(s) else []
    ensures StreamEmissions(Concat(order, writes), stream) == if stream in order then writes(stream) else []
  {
    if order != [] {
      var init, name := order[..|order| - 1], order[|order| - 1];
      assert order == init + [name];
      assert Distinct(init) by {
        forall i, j | 0 <= i < j < |init| ensures init[i] != init[j] {
          assert init[i] == order[i] && init[j] == order[j];
        }
      }
      ConcatStream(init, writes, stream);
      StreamEmissionsAppend(Concat(init, writes), writes(name), stream);
      if stream == name {
        assert stream !in init by {
          forall i | 0 <= i < |init| ensures init[i] != stream {
            assert init[i] == order[i];
          }
        }
      }
    }
  }

  /** Every row of every synced sheet is written exactly once: the records
      of a stream are exactly that sheet's rows, cleaned and in order, and a
      sheet not synced gets none. */
  lemma EveryRowOnce(order: seq<string>, reader: ChunkReader, chunkSize: Json, precision: int, round: Rounding, stream: string)
    requires Distinct(order)
    ensures StreamEmissions(SyncOutput(order, reader, chunkSize, precision, round), stream) ==
      if stream in order then SheetOutput(stream, AllRows(reader(stream, chunkSize)), precision, round) else []
  {
    var writes := SheetWrites(reader, chunkSize, precision, round);
    forall s ensures StreamEmissions(writes(s), stream) == if s == stream then writes(s) else [] {
      SheetOutputStream(s, AllRows(reader(s, chunkSize)), precision, round, stream);
    }
    ConcatStream(order, writes, stream);
  }
}
