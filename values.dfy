/** Cell values as pandas hands them over, columns with their dtype, and the
    data frames that a sheet read produces. */
module Values {

  /** A cell value. `Null` stands for everything `pd.isna` reports as missing
      except a float NaN (None, NaT, pd.NA); `NaN` is the float NaN. The
      temporal kinds carry the text that the datetime library renders for
      them (`text` is `str(v)`, `iso` is `v.isoformat()`). */
  datatype Value =
    | Null
    | NaN
    | Bool(b: bool)
    | Int(i: int)
    | Float(x: real)
    | Text(s: string)
    | Timestamp(iso: string, text: string)   // pd.Timestamp
    | Timedelta(text: string)                // pd.Timedelta
    | DateTime(text: string)                 // datetime.datetime that is not a pd.Timestamp
    | Date(text: string)                     // datetime.date
    | Time(text: string)                     // datetime.time

  /** `pd.isna(v)` */
  predicate IsNa(v: Value) {
    v.Null? || v.NaN?
  }

  /** The dtype of a column, as the two pandas dtype tests and the
      `dtype == 'bool'` test see it. */
  datatype Dtype = DatetimeDtype | BoolDtype | NumericDtype | OtherDtype

  datatype Column = Column(name: string, dtype: Dtype, values: seq<Value>)

  /** A column whose values are the kind its dtype allows: a numeric column
      holds numbers and NaN, a bool column booleans, a datetime column
      timestamps and NaT. pandas keeps every column this way. */
  predicate WellTyped(c: Column) {
    forall i :: 0 <= i < |c.values| ==> FitsDtype(c.dtype, c.values[i])
  }

  predicate FitsDtype(d: Dtype, v: Value) {
    match d
    case NumericDtype => v.Int? || v.Float? || v.NaN?
    case BoolDtype => v.Bool?
    case DatetimeDtype => v.Timestamp? || v.Null?
    case OtherDtype => true
  }

  /** A table of columns, each holding `height` values. */
  datatype Table = Table(columns: seq<Column>, height: nat)

  predicate Rectangular(t: Table) {
    && (forall j :: 0 <= j < |t.columns| ==> |t.columns[j].values| == t.height)
    && (forall i, j :: 0 <= i < j < |t.columns| ==> t.columns[i].name != t.columns[j].name)
  }

  /** What `pd.read_excel` returns: every column as long as the table, and
      no two columns with the same name (pandas renames duplicate headers
      `x`, `x.1`, ...). */
  type DataFrame = t: Table | Rectangular(t) witness Table([], 0)

  /** One entry of a row dictionary. */
  datatype Field = Field(key: string, value: Value)

  /** A row as a dictionary, in column order (`row.to_dict()`). */
  type Record = seq<Field>

  function Keys(r: Record): (ks: seq<string>)
    ensures |ks| == |r|
    ensures forall i :: 0 <= i < |r| ==> ks[i] == r[i].key
  {
    seq(|r|, i requires 0 <= i < |r| => r[i].key)
  }

  /** Row `i` of a data frame as a dictionary: one entry per column, in
      column order, so no key twice. */
  function RowOf(df: DataFrame, i: nat): (r: Record)
    requires i < df.height
    ensures Keys(r) == seq(|df.columns|, j requires 0 <= j < |df.columns| => df.columns[j].name)
    ensures forall a, b :: 0 <= a < b < |r| ==> r[a].key != r[b].key
    ensures forall j :: 0 <= j < |df.columns| ==> r[j].value == df.columns[j].values[i]
  {
    seq(|df.columns|, j requires 0 <= j < |df.columns| => Field(df.columns[j].name, df.columns[j].values[i]))
  }

  /** All rows of a data frame, in order (`df.iterrows()`). */
  function Rows(df: DataFrame): (rs: seq<Record>)
    ensures |rs| == df.height
    ensures forall i :: 0 <= i < df.height ==> rs[i] == RowOf(df, i)
  {
    seq(df.height, i requires 0 <= i < df.height => RowOf(df, i))
  }

  // ---- str(v), the text form that `astype(str)` gives each value ----

  function DigitChar(d: nat): char
    requires d < 10
  {
    "0123456789"[d]
  }

  predicate IsDigit(c: char) {
    '0' <= c <= '9'
  }

  /** Decimal digits of a natural number, without leading zeros. */
  function NatText(n: nat): (s: string)
    ensures |s| >= 1 && forall k :: 0 <= k < |s| ==> IsDigit(s[k])
  {
    if n < 10 then [DigitChar(n)] else NatText(n / 10) + [DigitChar(n % 10)]
  }

  /** `str(i)` for an integer. */
  function IntText(i: int): string {
    if i < 0 then "-" + NatText(-i) else NatText(i)
  }

  /** Up to `n` decimal digits of a fraction, stopping early once the
      remainder is zero. */
  function FractionDigits(f: real, n: nat): string
    requires 0.0 <= f < 1.0
    decreases n
  {
    if n == 0 || f == 0.0 then ""
    else
      var d := (f * 10.0).Floor;
      [DigitChar(d)] + FractionDigits(f * 10.0 - d as real, n - 1)
  }

  /** `str(x)` for a float in positional notation: sign, integer digits, a
      point, and the fraction digits (".0" for a whole number). */
  function FloatText(x: real): string {
    var a := if x < 0.0 then -x else x;
    var whole := a.Floor;
    var frac := a - whole as real;
    (if x < 0.0 then "-" else "")
    + NatText(whole) + "."
    + (if frac == 0.0 then "0" else FractionDigits(frac, 17))
  }

  /** `str(v)` */
  function Str(v: Value): string {
    match v
    case Null => "None"
    case NaN => "nan"
    case Bool(b) => if b then "True" else "False"
    case Int(i) => IntText(i)
    case Float(x) => FloatText(x)
    case Text(s) => s
    case Timestamp(_, text) => text
    case Timedelta(text) => text
    case DateTime(text) => text
    case Date(text) => text
    case Time(text) => text
  }

  /** The text of a number starts with a digit or a minus sign. */
  lemma NumberTextStart(v: Value)
    requires v.Int? || v.Float?
    ensures |Str(v)| >= 1 && (IsDigit(Str(v)[0]) || Str(v)[0] == '-')
  {
  }

  /** `s.lower()` on ASCII letters. */
  function LowerChar(c: char): char {
    if 'A' <= c <= 'Z' then (c as int + 32) as char else c
  }

  function Lower(s: string): (t: string)
    ensures |t| == |s|
    ensures forall k :: 0 <= k < |s| ==> t[k] == LowerChar(s[k])
  {
    seq(|s|, k requires 0 <= k < |s| => LowerChar(s[k]))
  }
}
