/** Column type inference (`ExcelStream._infer_column_type`): a first-match
    classifier from a column to one of seven JSON Schema types. */
module Inference {
  import opened Wrappers
  import opened Values
  import opened Patterns

  datatype JsonType = StringType | DateTimeType | BooleanType | IntegerType | NumberType | DateType | TimeType

  const DefaultSampleSize: nat := 100

  /** `dropna()`: the values that are not missing, in order
      (`NonNullKeeps`, `NonNullSingle` and `NonNullAppend` pin it down). */
  function NonNull(vs: seq<Value>): (r: seq<Value>)
    ensures |r| <= |vs|
    ensures forall k :: 0 <= k < |r| ==> !IsNa(r[k])
  {
    if vs == [] then []
    else if IsNa(vs[0]) then NonNull(vs[1..])
    else [vs[0]] + NonNull(vs[1..])
  }

  /** `dropna().head(n)`: the first `n` values that are not missing. */
  function Sample(vs: seq<Value>, n: nat): (r: seq<Value>)
    ensures |r| == if |NonNull(vs)| <= n then |NonNull(vs)| else n
    ensures r == NonNull(vs)[..|r|]
  {
    var nn := NonNull(vs);
    if |nn| <= n then nn else nn[..n]
  }

  /** `isna().all()`, true of an empty column too. */
  predicate AllNa(vs: seq<Value>) {
    forall k :: 0 <= k < |vs| ==> IsNa(vs[k])
  }

  /** `str(v).lower()` is "true" or "false". */
  predicate LooksBoolean(v: Value) {
    var t := Lower(Str(v));
    t == "true" || t == "false"
  }

  predicate AllLookBoolean(sample: seq<Value>) {
    forall k :: 0 <= k < |sample| ==> LooksBoolean(sample[k])
  }

  /** `v % 1 == 0` for a number. */
  predicate IsWhole(v: Value) {
    match v
    case Int(_) => true
    case Bool(_) => true
    case Float(x) => x.Floor as real == x
    case _ => false
  }

  /** `(series.dropna() % 1 == 0).all()`: every value of the whole column,
      not only of the sample, is whole. */
  predicate AllWhole(vs: seq<Value>) {
    forall k :: 0 <= k < |vs| && !IsNa(vs[k]) ==> IsWhole(vs[k])
  }

  /** `sample.astype(str)` */
  function Texts(sample: seq<Value>): (strs: seq<string>)
    ensures |strs| == |sample|
    ensures forall k :: 0 <= k < |sample| ==> strs[k] == Str(sample[k])
  {
    seq(|sample|, k requires 0 <= k < |sample| => Str(sample[k]))
  }

  function FormatType(f: Format): JsonType {
    match f
    case DateFmt => DateType
    case TimeFmt => TimeType
    case DateTimeFmt => DateTimeType
  }

  /** `_infer_column_type(series, sample_size)`. */
  function InferColumnType(c: Column, sampleSize: nat): JsonType {
    if AllNa(c.values) then StringType
    else
      var sample := Sample(c.values, sampleSize);
      if c.dtype == DatetimeDtype then DateTimeType
      else if c.dtype == BoolDtype || AllLookBoolean(sample) then BooleanType
      else if c.dtype == NumericDtype then
        if AllWhole(c.values) then IntegerType else NumberType
      else TextType(Texts(sample))
  }

  /** The last steps of `_infer_column_type`, on the sampled texts: the
      first matching format, then the currency rule, then string. */
  function TextType(strs: seq<string>): JsonType {
    match FirstFormat(DateFormats, strs)
    case Some(f) => FormatType(f)
    case None =>
      if AnyCurrency(strs) then StringType  // the currency rule
      else StringType
  }

  // ---- properties ----

  /** An empty or all-missing column is a string column, whatever its dtype. */
  lemma AllMissingIsString(c: Column, n: nat)
    requires AllNa(c.values)
    ensures InferColumnType(c, n) == StringType
  {
  }

  /** A datetime column with some value is date-time; the dtype test comes
      before the boolean and numeric tests. */
  lemma DatetimeDtypeIsDateTime(c: Column, n: nat)
    requires c.dtype == DatetimeDtype && !AllNa(c.values)
    ensures InferColumnType(c, n) == DateTimeType
  {
  }

  /** A column is boolean exactly when it has a value, is not a datetime
      column, and either has the bool dtype or every sampled value reads as
      "true" or "false". */
  lemma BooleanIff(c: Column, n: nat)
    ensures InferColumnType(c, n) == BooleanType <==>
      !AllNa(c.values) && c.dtype != DatetimeDtype &&
      (c.dtype == BoolDtype || AllLookBoolean(Sample(c.values, n)))
  {
    if InferColumnType(c, n) == BooleanType && !AllNa(c.values) && c.dtype == OtherDtype {
      var strs := Texts(Sample(c.values, n));
      var r := FirstFormat(DateFormats, strs);
      if !AllLookBoolean(Sample(c.values, n)) && r.Some? {
        assert FormatType(r.value) != BooleanType;
      }
    }
  }

  /** Integer and number come only from numeric columns: text that merely
      looks numeric is never typed as a number. */
  lemma NumbersOnlyFromNumericDtype(c: Column, n: nat)
    ensures c.dtype != NumericDtype ==>
      InferColumnType(c, n) != IntegerType && InferColumnType(c, n) != NumberType
  {
    if c.dtype == OtherDtype && !AllNa(c.values) && !AllLookBoolean(Sample(c.values, n)) {
      var r := FirstFormat(DateFormats, Texts(Sample(c.values, n)));
      if r.Some? {
        assert FormatType(r.value) != IntegerType && FormatType(r.value) != NumberType;
      }
    }
  }

  /** A number never reads as "true" or "false". */
  lemma NumberNotBoolean(v: Value)
    requires v.Int? || v.Float?
    ensures !LooksBoolean(v)
  {
    NumberTextStart(v);
    var t := Lower(Str(v));
    assert t[0] == LowerChar(Str(v)[0]);
    assert t[0] != 't' && t[0] != 'f';
    assert "true"[0] == 't' && "false"[0] == 'f';
  }

  lemma {:induction false} NonNullHasValue(vs: seq<Value>)
    requires !AllNa(vs)
    ensures |NonNull(vs)| >= 1
  {
    if IsNa(vs[0]) {
      assert !AllNa(vs[1..]) by {
        var k :| 0 <= k < |vs| && !IsNa(vs[k]);
        assert vs[1..][k - 1] == vs[k];
      }
      NonNullHasValue(vs[1..]);
    }
  }

  /** Every value that `dropna` keeps comes from the column. */
  lemma {:induction false} NonNullFrom(vs: seq<Value>, k: nat)
    requires k < |NonNull(vs)|
    ensures NonNull(vs)[k] in vs
  {
    if IsNa(vs[0]) {
      NonNullFrom(vs[1..], k);
    } else if k > 0 {
      NonNullFrom(vs[1..], k - 1);
    }
  }

  /** A numeric column with some value is integer when every value of the
      whole column is whole, and number otherwise (for a sample size of at
      least one). */
  lemma NumericIntegerIff(c: Column, n: nat)
    requires c.dtype == NumericDtype && WellTyped(c) && !AllNa(c.values) && n >= 1
    ensures InferColumnType(c, n) == (if AllWhole(c.values) then IntegerType else NumberType)
  {
    var sample := Sample(c.values, n);
    NonNullHasValue(c.values);
    NonNullFrom(c.values, 0);
    var k :| 0 <= k < |c.values| && c.values[k] == sample[0];
    assert FitsDtype(c.dtype, c.values[k]);
    NumberNotBoolean(sample[0]);
  }

  /** One fractional value anywhere in a numeric column, also beyond the
      sample, makes it a number column. */
  lemma FractionAnywhereIsNumber(c: Column, n: nat, k: nat)
    requires c.dtype == NumericDtype && WellTyped(c) && n >= 1
    requires k < |c.values| && c.values[k].Float? && c.values[k].x.Floor as real != c.values[k].x
    ensures InferColumnType(c, n) == NumberType
  {
    assert !AllNa(c.values);
    NumericIntegerIff(c, n);
  }

  /** The first matching format is never date-time: whatever the
      date-time pattern matches, the date pattern before it matches too. */
  lemma FirstFormatNeverDateTime(strs: seq<string>)
    ensures FirstFormat(DateFormats, strs) != Some(DateTimeFmt)
  {
    if !AnyMatches(DateFormats[0].pattern, strs) {
      forall m | 0 <= m < |strs| ensures !MatchesPrefix(DateFormats[6].pattern, strs[m]) {
        DateTimePatternImpliesDate(strs[m]);
      }
      assert forall i :: 0 <= i < |DateFormats| && DateFormats[i].format == DateTimeFmt ==> i == 6;
    }
  }

  /** Outside a datetime column the result is never date-time. */
  lemma DateTimeOnlyFromDatetimeDtype(c: Column, n: nat)
    requires c.dtype != DatetimeDtype
    ensures InferColumnType(c, n) != DateTimeType
  {
    if !AllNa(c.values) && c.dtype == OtherDtype && !AllLookBoolean(Sample(c.values, n)) {
      var strs := Texts(Sample(c.values, n));
      FirstFormatNeverDateTime(strs);
      assert TextType(strs) != DateTimeType;
    }
  }

  /** A text starting with a digit never reads as "true" or "false". */
  lemma DigitTextNotBoolean(v: Value)
    requires |Str(v)| >= 1 && IsDigit(Str(v)[0])
    ensures !LooksBoolean(v)
  {
    var t := Lower(Str(v));
    assert t[0] == LowerChar(Str(v)[0]);
    assert "true"[0] == 't' && "false"[0] == 'f';
  }

  /** One sampled value shaped "YYYY-MM-DD HH:MM:SS" in a column of the
      other dtype makes the column a date column: the plain date pattern
      comes first and matches its start. */
  lemma FullTimestampTextIsDate(c: Column, n: nat, k: nat)
    requires c.dtype == OtherDtype
    requires k < |Sample(c.values, n)| && MatchesPrefix(DateFormats[6].pattern, Str(Sample(c.values, n)[k]))
    ensures InferColumnType(c, n) == DateType
  {
    var sample := Sample(c.values, n);
    NonNullFrom(c.values, k);
    assert !AllNa(c.values);
    assert TokMatches(DateFormats[6].pattern[0], Str(sample[k])[0]);
    DigitTextNotBoolean(sample[k]);
    var strs := Texts(sample);
    DateTimePatternImpliesDate(strs[k]);
    assert AnyMatches(DateFormats[0].pattern, strs);
  }

  /** The currency rule and the default both give string: with no format
      matching, the result is string whether or not a currency amount was
      seen. */
  lemma NoFormatIsString(c: Column, n: nat)
    requires c.dtype == OtherDtype && !AllNa(c.values)
    requires !AllLookBoolean(Sample(c.values, n))
    requires FirstFormat(DateFormats, Texts(Sample(c.values, n))).None?
    ensures InferColumnType(c, n) == StringType
  {
  }

  /** `dropna` distributes over concatenation. */
  lemma {:induction false} NonNullAppend(vs: seq<Value>, ws: seq<Value>)
    ensures NonNull(vs + ws) == NonNull(vs) + NonNull(ws)
  {
    if vs != [] {
      assert (vs + ws)[1..] == vs[1..] + ws;
      NonNullAppend(vs[1..], ws);
    } else {
      assert vs + ws == ws;
    }
  }

  /** `dropna` keeps every value that is present. */
  lemma {:induction false} NonNullKeeps(vs: seq<Value>, k: nat)
    requires k < |vs| && !IsNa(vs[k])
    ensures vs[k] in NonNull(vs)
  {
    if k > 0 {
      assert vs[1..][k - 1] == vs[k];
      NonNullKeeps(vs[1..], k - 1);
    }
  }

  /** On a single value `dropna` keeps it exactly when it is present. */
  lemma NonNullSingle(v: Value)
    ensures NonNull([v]) == if IsNa(v) then [] else [v]
  {
    assert [v][1..] == [];
  }

  /** Once the first `n` values are found, what follows does not change the
      sample. */
  lemma SampleIgnoresTail(vs: seq<Value>, tail: seq<Value>, n: nat)
    requires |NonNull(vs)| >= n
    ensures Sample(vs + tail, n) == Sample(vs, n)
  {
    NonNullAppend(vs, tail);
    assert NonNull(vs + tail)[..n] == NonNull(vs)[..n];
  }

  /** Outside numeric columns the result depends only on the sample. */
  lemma NonNumericDecidedBySample(c: Column, d: Column, n: nat)
    requires c.dtype == d.dtype && c.dtype != NumericDtype
    requires n >= 1 && Sample(c.values, n) == Sample(d.values, n)
    ensures InferColumnType(c, n) == InferColumnType(d, n)
  {
    SampleEmptyIffAllNa(c.values, n);
    SampleEmptyIffAllNa(d.values, n);
  }

  lemma SampleEmptyIffAllNa(vs: seq<Value>, n: nat)
    requires n >= 1
    ensures Sample(vs, n) == [] <==> AllNa(vs)
  {
    if !AllNa(vs) {
      NonNullHasValue(vs);
    } else {
      AllNaHasNoValue(vs);
    }
  }

  lemma {:induction false} AllNaHasNoValue(vs: seq<Value>)
    requires AllNa(vs)
    ensures NonNull(vs) == []
  {
    if vs != [] {
      AllNaHasNoValue(vs[1..]);
    }
  }

  /** Values after the first `n` present ones are ignored by a column of
      the other, bool or datetime dtype. */
  lemma ValuesAfterSampleIgnored(c: Column, tail: seq<Value>, n: nat)
    requires c.dtype != NumericDtype && n >= 1 && |NonNull(c.values)| >= n
    ensures InferColumnType(Column(c.name, c.dtype, c.values + tail), n) == InferColumnType(c, n)
  {
    SampleIgnoresTail(c.values, tail, n);
    NonNumericDecidedBySample(Column(c.name, c.dtype, c.values + tail), c, n);
  }
}
