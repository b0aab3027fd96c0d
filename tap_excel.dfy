/** The Singer tap of `tap_excel/__init__.py`: one stream per sheet with an
    inferred, cached schema and normalised records, and the discovery of the
    sheets to process. */
module TapExcel {
  import opened Wrappers
  import opened Values
  import opened Inference
  import opened Normalize

  /** The `engine` argument of the pandas reader; `DefaultEngine` is `None`. */
  datatype Engine = Xlrd | Odf | DefaultEngine

  /** The options a read passes: the schema read uses the defaults, the
      records read adds `parse_dates=True, keep_default_na=False`. */
  datatype ReadMode = SchemaRead | RecordsRead

  /** `pd.read_excel(file, sheet_name, engine, ...)`: the data frame, or the
      message of the exception it raised. */
  type SheetReader = (string, string, Engine, ReadMode) -> Result<DataFrame>

  // ---- engine choice by file suffix ----

  /** The position of the last '.' of `name`. */
  function LastDot(name: string): (r: Option<nat>)
    ensures r.Some? ==>
      r.value < |name| && name[r.value] == '.' && forall k :: r.value < k < |name| ==> name[k] != '.'
    ensures r.None? ==> forall k :: 0 <= k < |name| ==> name[k] != '.'
  {
    if name == [] then None
    else if name[|name| - 1] == '.' then Some(|name| - 1)
    else LastDot(name[..|name| - 1])
  }

  /** `Path(name).suffix` of a final path component: from the last dot on,
      unless that dot is the first or the last character. */
  function Suffix(name: string): (r: string)
    ensures r != "" ==> 2 <= |r| < |name| && r[0] == '.' && r == name[|name| - |r|..]
    ensures forall k :: 1 <= k < |r| ==> r[k] != '.'
  {
    match LastDot(name)
    case Some(i) => if 0 < i < |name| - 1 then name[i..] else ""
    case None => ""
  }

  /** The engine for a file, chosen by its suffix (the same choice in
      `_get_schema`, `get_records` and `_get_sheet_names`). */
  function EngineFor(name: string): Engine {
    var suffix := Suffix(name);
    if suffix == ".xls" then Xlrd
    else if suffix == ".ods" then Odf
    else DefaultEngine
  }

  /** An extension: a dot followed by at least one character that is not a dot. */
  predicate IsExtension(ext: string) {
    |ext| >= 2 && ext[0] == '.' && forall k :: 1 <= k < |ext| ==> ext[k] != '.'
  }

  /** A name has an extension as its suffix exactly when it ends with it and
      has something before it. */
  lemma SuffixIs(name: string, ext: string)
    requires IsExtension(ext)
    ensures Suffix(name) == ext <==> |name| > |ext| && name[|name| - |ext|..] == ext
  {
    if |name| > |ext| && name[|name| - |ext|..] == ext {
      var d := |name| - |ext|;
      assert name[d] == ext[0];
      assert forall k :: d < k < |name| ==> name[k] == ext[k - d];
      var r := LastDot(name);
      assert r.Some?;
      assert r.value == d;
    }
  }

  /** `.xls` files are read with xlrd and `.ods` files with odf; every other
      file with the reader's default engine. */
  lemma EngineChoice(name: string)
    ensures EngineFor(name) == Xlrd <==> |name| > 4 && name[|name| - 4..] == ".xls"
    ensures EngineFor(name) == Odf <==> |name| > 4 && name[|name| - 4..] == ".ods"
  {
    SuffixIs(name, ".xls");
    SuffixIs(name, ".ods");
  }

  // ---- schema assembly ----

  datatype Property = Property(name: string, kind: JsonType)

  /** The properties list of a stream, in column order. */
  type Schema = seq<Property>

  /** One property per column, in column order. */
  function Properties(cols: seq<Column>): (s: Schema)
    ensures |s| == |cols|
  {
    if cols == [] then []
    else
      var last := cols[|cols| - 1];
      Properties(cols[..|cols| - 1]) + [Property(last.name, InferColumnType(last, DefaultSampleSize))]
  }

  /** What `_get_schema` returns for a read: empty when the read failed. */
  function SchemaFor(read: Result<DataFrame>): Schema {
    match read
    case Err(_) => []
    case Ok(df) => Properties(df.columns)
  }

  /** The schema has exactly one property per column, named after it and
      typed by inference with the default sample size, in column order; a
      failed read gives an empty schema. */
  lemma {:induction false} SchemaForShape(read: Result<DataFrame>)
    ensures read.Err? ==> SchemaFor(read) == []
    ensures read.Ok? ==>
      |SchemaFor(read)| == |read.value.columns| &&
      forall j :: 0 <= j < |read.value.columns| ==>
        SchemaFor(read)[j] == Property(read.value.columns[j].name,
                                       InferColumnType(read.value.columns[j], DefaultSampleSize))
  {
    if read.Ok? {
      PropertiesAt(read.value.columns);
    }
  }

  lemma {:induction false} PropertiesAt(cols: seq<Column>)
    ensures forall j :: 0 <= j < |cols| ==>
      Properties(cols)[j] == Property(cols[j].name, InferColumnType(cols[j], DefaultSampleSize))
  {
    if cols != [] {
      var init := cols[..|cols| - 1];
      PropertiesAt(init);
      assert Properties(cols)[..|cols| - 1] == Properties(init);
      forall j | 0 <= j < |cols| - 1
        ensures Properties(cols)[j] == Property(cols[j].name, InferColumnType(cols[j], DefaultSampleSize))
      {
        assert Properties(cols)[j] == Properties(init)[j];
      }
    }
  }

  /** The records `get_records` yields for a read: none when the read failed,
      otherwise each row normalised, in row order. */
  function RecordsFor(read: Result<DataFrame>): seq<Record> {
    match read
    case Err(_) => []
    case Ok(df) => seq(df.height, i requires 0 <= i < df.height => NormalizeRecord(RowOf(df, i)))
  }

  /** A failed read yields no records; otherwise one record per row, in row
      order, keyed by the column names in column order, each cell
      normalised. */
  lemma RecordsForShape(read: Result<DataFrame>)
    ensures read.Err? ==> RecordsFor(read) == []
    ensures read.Ok? ==>
      |RecordsFor(read)| == read.value.height &&
      forall i, j :: 0 <= i < read.value.height && 0 <= j < |read.value.columns| ==>
        |RecordsFor(read)[i]| == |read.value.columns| &&
        RecordsFor(read)[i][j] == Field(read.value.columns[j].name, NormalizeValue(read.value.columns[j].values[i]))
  {
    if read.Ok? {
      var df := read.value;
      forall i | 0 <= i < df.height
        ensures |RecordsFor(read)[i]| == |df.columns|
        ensures forall j :: 0 <= j < |df.columns| ==>
          RecordsFor(read)[i][j] == Field(df.columns[j].name, NormalizeValue(df.columns[j].values[i]))
      {
        var row := RowOf(df, i);
        NormalizeRecordAt(row);
        forall j | 0 <= j < |df.columns|
          ensures RecordsFor(read)[i][j] == Field(df.columns[j].name, NormalizeValue(df.columns[j].values[i]))
        {
          assert Keys(NormalizeRecord(row))[j] == Keys(row)[j];
        }
      }
    }
  }

  /** A stream over one sheet of a workbook file. */
  class ExcelStream {
    const sheetName: string
    /** The final component of the stream's file path. */
    const fileName: string
    /** `_schema`: the schema once computed. */
    var cache: Option<Schema>
    /** How often the schema has been computed. */
    ghost var computations: nat

    ghost predicate Valid()
      reads this
    {
      computations <= 1 && (cache.None? <==> computations == 0)
    }

    /** `__init__` sets the sheet, the file and an empty `_schema`, then
        runs the base `Stream.__init__`, which reads `self.schema`: a new
        stream has its schema computed, once. */
    constructor (sheetName: string, fileName: string, reader: SheetReader)
      ensures Valid()
      ensures this.sheetName == sheetName && this.fileName == fileName
      ensures cache == Some(SchemaFor(reader(fileName, sheetName, EngineFor(fileName), SchemaRead)))
      ensures computations == 1
    {
      this.sheetName := sheetName;
      this.fileName := fileName;
      cache := None;
      computations := 0;
      new;
      var _ := CachedSchema(reader);
    }

    /** `_get_schema`: read the sheet and append one property per column. */
    method GetSchema(reader: SheetReader) returns (props: Schema)
      ensures props == SchemaFor(reader(fileName, sheetName, EngineFor(fileName), SchemaRead))
    {
      var read := reader(fileName, sheetName, EngineFor(fileName), SchemaRead);
      props := [];
      if read.Err? {
        return;  // the error is logged
      }
      var cols := read.value.columns;
      var i := 0;
      while i < |cols|
        invariant 0 <= i <= |cols|
        invariant props == Properties(cols[..i])
      {
        assert cols[..i + 1][..i] == cols[..i];
        props := props + [Property(cols[i].name, InferColumnType(cols[i], DefaultSampleSize))];
        i := i + 1;
      }
      assert cols[..i] == cols;
    }

    /** `schema`: computed on first access, then returned from the cache
        without reading the sheet again. */
    method CachedSchema(reader: SheetReader) returns (s: Schema)
      requires Valid()
      modifies this
      ensures Valid()
      ensures old(cache).Some? ==> s == old(cache).value && cache == old(cache) && computations == old(computations)
      ensures old(cache).None? ==>
        s == SchemaFor(reader(fileName, sheetName, EngineFor(fileName), SchemaRead))
        && cache == Some(s) && computations == 1
    {
      if cache.None? {
        var computed := GetSchema(reader);
        cache := Some(computed);
        computations := computations + 1;
      }
      s := cache.value;
    }

    /** `get_records`: read the sheet and rewrite each row dictionary in
        place before yielding it. */
    method GetRecords(reader: SheetReader) returns (records: seq<Record>)
      ensures records == RecordsFor(reader(fileName, sheetName, EngineFor(fileName), RecordsRead))
    {
      var read := reader(fileName, sheetName, EngineFor(fileName), RecordsRead);
      records := [];
      if read.Err? {
        return;  // the error is logged
      }
      var df := read.value;
      var i := 0;
      while i < df.height
        invariant 0 <= i <= df.height
        invariant |records| == i
        invariant forall k :: 0 <= k < i ==> records[k] == NormalizeRecord(RowOf(df, k))
      {
        var record := NormalizeInPlace(RowOf(df, i));
        records := records + [record];
        i := i + 1;
      }
    }
  }

  /** The body of the `get_records` loop: each value of the row dictionary
      is replaced in place, key by key. */
  method NormalizeInPlace(row: Record) returns (record: Record)
    ensures record == NormalizeRecord(row)
  {
    record := row;
    var j := 0;
    while j < |record|
      invariant 0 <= j <= |record| == |row|
      invariant record[..j] == NormalizeRecord(row[..j])
      invariant record[j..] == row[j..]
    {
      ghost var before := record;
      var k, v := record[j].key, record[j].value;
      assert before[j..][0] == row[j..][0];
      if IsNa(v) {
        record := record[j := Field(k, Null)];
      } else if v.Timestamp? {
        record := record[j := Field(k, Text(v.iso))];
      } else if v.Timedelta? || v.DateTime? {
        record := record[j := Field(k, Text(v.text))];
      }
      assert record[j] == Field(row[j].key, NormalizeValue(row[j].value));
      assert record[..j] == before[..j];
      assert row[..j + 1][..j] == row[..j] && row[..j + 1][j] == row[j];
      assert record[..j + 1] == record[..j] + [record[j]];
      assert record[j + 1..] == before[j..][1..];
      j := j + 1;
    }
    assert record == record[..j] && row[..j] == row;
  }

  /** A stream reads its schema while it is built; whatever the reader
      returns on later accesses, `schema` gives that first schema back. */
  method SchemaReadOnce(sheetName: string, fileName: string, first: SheetReader, second: SheetReader)
    returns (a: Schema, b: Schema)
    ensures a == b == SchemaFor(first(fileName, sheetName, EngineFor(fileName), SchemaRead))
  {
    var s := new ExcelStream(sheetName, fileName, first);
    a := s.CachedSchema(second);
    b := s.CachedSchema(second);
  }

  // ---- discovery ----

  /** The sheets `discover_streams` makes streams for, and whether it warns
      about requested sheets that are missing. */
  datatype Discovery = Discovery(sheets: seq<string>, warned: bool)

  /** `[s for s in requested if s in available]` */
  function KeepAvailable(requested: seq<string>, available: seq<string>): (r: seq<string>)
    ensures |r| <= |requested|
    ensures forall x :: x in r ==> x in requested && x in available
  {
    if requested == [] then []
    else if requested[0] in available then [requested[0]] + KeepAvailable(requested[1..], available)
    else KeepAvailable(requested[1..], available)
  }

  /** `discover_streams` over the workbook's sheet names and the configured
      `sheets` list. */
  function DiscoverStreams(available: seq<string>, configured: Option<seq<string>>): (r: Discovery)
    ensures forall s :: s in r.sheets ==> s in available
    ensures r.warned ==> configured.Some?
  {
    if configured.Some? && configured.value != [] then
      var requested := configured.value;
      var missing := (set s | s in requested) - (set s | s in available);
      Discovery(KeepAvailable(requested, available), missing != {})
    else
      Discovery(available, false)
  }

  /** `discover_streams`: one new stream per sheet to process, in order,
      each of which has read its sheet's schema once while being built; a
      sheet requested twice gets two distinct streams. */
  method DiscoverStreamObjects(available: seq<string>, configured: Option<seq<string>>, fileName: string, reader: SheetReader)
    returns (streams: seq<ExcelStream>, warned: bool)
    ensures warned == DiscoverStreams(available, configured).warned
    ensures |streams| == |DiscoverStreams(available, configured).sheets|
    ensures forall i :: 0 <= i < |streams| ==>
      fresh(streams[i]) && streams[i].Valid() && streams[i].computations == 1
      && streams[i].sheetName == DiscoverStreams(available, configured).sheets[i]
      && streams[i].fileName == fileName
      && streams[i].cache == Some(SchemaFor(reader(fileName, streams[i].sheetName, EngineFor(fileName), SchemaRead)))
    ensures forall a, b :: 0 <= a < b < |streams| ==> streams[a] != streams[b]
  {
    var d := DiscoverStreams(available, configured);
    warned := d.warned;
    streams := [];
    var i := 0;
    while i < |d.sheets|
      invariant 0 <= i <= |d.sheets| && |streams| == i
      invariant forall k :: 0 <= k < i ==>
        fresh(streams[k]) && streams[k].Valid() && streams[k].computations == 1
        && streams[k].sheetName == d.sheets[k] && streams[k].fileName == fileName
        && streams[k].cache == Some(SchemaFor(reader(fileName, d.sheets[k], EngineFor(fileName), SchemaRead)))
      invariant forall a, b :: 0 <= a < b < i ==> streams[a] != streams[b]
    {
      var s := new ExcelStream(d.sheets[i], fileName, reader);
      assert forall k :: 0 <= k < i ==> streams[k] != s;
      streams := streams + [s];
      i := i + 1;
    }
  }

  function Count(xs: seq<string>, x: string): nat {
    if xs == [] then 0 else (if xs[0] == x then 1 else 0) + Count(xs[1..], x)
  }

  /** `a` is `b` with some elements left out, order kept. */
  predicate IsSubsequence(a: seq<string>, b: seq<string>)
    decreases |b|
  {
    if a == [] then true
    else if b == [] then false
    else if a[0] == b[0] then IsSubsequence(a[1..], b[1..])
    else IsSubsequence(a, b[1..])
  }

  lemma {:induction false} KeepAvailableCount(requested: seq<string>, available: seq<string>, x: string)
    ensures Count(KeepAvailable(requested, available), x) == if x in available then Count(requested, x) else 0
  {
    if requested != [] {
      KeepAvailableCount(requested[1..], available, x);
      var rest := KeepAvailable(requested[1..], available);
      if requested[0] in available {
        assert ([requested[0]] + rest)[1..] == rest;
      }
    }
  }

  lemma {:induction false} KeepAvailableOrder(requested: seq<string>, available: seq<string>)
    ensures IsSubsequence(KeepAvailable(requested, available), requested)
  {
    if requested != [] {
      KeepAvailableOrder(requested[1..], available);
      var rest := KeepAvailable(requested[1..], available);
      if requested[0] in available {
        assert ([requested[0]] + rest)[1..] == rest;
      } else if rest != [] {
        SubsequenceDropHead(rest, requested);
      }
    }
  }

  /** A subsequence of the tail is a subsequence of the whole. */
  lemma SubsequenceDropHead(a: seq<string>, b: seq<string>)
    requires b != [] && IsSubsequence(a, b[1..])
    ensures IsSubsequence(a, b)
    decreases |b|, 0
  {
    if a != [] && a[0] == b[0] {
      SubsequenceDropFirst(a, b[1..]);
    }
  }

  /** Leaving out the first element keeps a subsequence. */
  lemma SubsequenceDropFirst(a: seq<string>, c: seq<string>)
    requires a != [] && IsSubsequence(a, c)
    ensures IsSubsequence(a[1..], c)
    decreases |c|, 1
  {
    if a[0] == c[0] {
      SubsequenceDropHead(a[1..], c);
    } else {
      SubsequenceDropFirst(a, c[1..]);
      SubsequenceDropHead(a[1..], c);
    }
  }

  lemma {:induction false} KeepAvailableMember(requested: seq<string>, available: seq<string>, x: string)
    ensures x in KeepAvailable(requested, available) <==> x in requested && x in available
  {
    if requested != [] {
      KeepAvailableMember(requested[1..], available, x);
      assert x in requested <==> x == requested[0] || x in requested[1..];
    }
  }

  /** With no sheets configured, every sheet of the workbook is processed
      in workbook order, without a warning. */
  lemma DiscoverUnconfigured(available: seq<string>, configured: Option<seq<string>>)
    requires configured.None? || configured.value == []
    ensures DiscoverStreams(available, configured) == Discovery(available, false)
  {
  }

  /** With sheets configured, the requested names that the workbook has are
      processed in request order with duplicates kept, and the warning is
      given exactly when some requested name is missing. */
  lemma DiscoverConfigured(available: seq<string>, requested: seq<string>)
    requires requested != []
    ensures var d := DiscoverStreams(available, Some(requested));
      && (forall x :: x in d.sheets ==> x in available)
      && IsSubsequence(d.sheets, requested)
      && (forall x :: x in available ==> Count(d.sheets, x) == Count(requested, x))
      && (d.warned <==> exists x :: x in requested && x !in available)
  {
    var d := DiscoverStreams(available, Some(requested));
    forall x | x in d.sheets ensures x in available {
      KeepAvailableMember(requested, available, x);
    }
    KeepAvailableOrder(requested, available);
    forall x | x in available ensures Count(d.sheets, x) == Count(requested, x) {
      KeepAvailableCount(requested, available, x);
    }
    var missing := (set s | s in requested) - (set s | s in available);
    if exists x :: x in requested && x !in available {
      var x :| x in requested && x !in available;
      assert x in missing;
    }
  }
}
