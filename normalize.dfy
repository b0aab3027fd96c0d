/** Record normalisation: the per-value rewrite rules of the `get_records`
    loop and of `ExcelConnection.clean_record`. */
module Normalize {
  import opened Values

  /** Python's `round(x, ndigits)` on a float. The model leaves the
      floating-point arithmetic uninterpreted. */
  type Rounding = (real, int) -> real

  const DefaultFloatPrecision: int := 2

  /** The value rule of the `get_records` loop. */
  function NormalizeValue(v: Value): Value {
    if IsNa(v) then Null
    else if v.Timestamp? then Text(v.iso)
    else if v.Timedelta? || v.DateTime? then Text(v.text)
    else v
  }

  /** The value rule of `clean_record`. */
  function CleanValue(v: Value, precision: int, round: Rounding): Value {
    if IsNa(v) then Null
    else if v.Timestamp? then Text(v.iso)
    else if v.Timedelta? || v.DateTime? then Text(v.text)
    else if v.Float? then Float(round(v.x, precision))
    else v
  }

  /** Which of the two rules rewrites a record. */
  datatype Rule = RecordsRule | CleanRule(precision: int, round: Rounding)

  function Rewrite(rule: Rule, v: Value): Value {
    match rule
    case RecordsRule => NormalizeValue(v)
    case CleanRule(p, round) => CleanValue(v, p, round)
  }

  /** A record with every value rewritten by `rule`, keys kept. */
  function RewriteRecord(rule: Rule, r: Record): (out: Record)
    ensures |out| == |r|
  {
    if r == [] then []
    else RewriteRecord(rule, r[..|r| - 1]) + [Field(r[|r| - 1].key, Rewrite(rule, r[|r| - 1].value))]
  }

  /** The record that the `get_records` loop yields for a row. */
  function NormalizeRecord(r: Record): Record {
    RewriteRecord(RecordsRule, r)
  }

  /** The dictionary that `clean_record(record, float_precision)` returns. */
  function Cleaned(r: Record, precision: int, round: Rounding): Record {
    RewriteRecord(CleanRule(precision, round), r)
  }

  // ---- properties ----

  /** A rewritten record has exactly the keys of the input, in order, and
      each value is the rewritten input value under the same key. */
  lemma {:induction false} RewriteRecordAt(rule: Rule, r: Record)
    ensures Keys(RewriteRecord(rule, r)) == Keys(r)
    ensures forall i :: 0 <= i < |r| ==> RewriteRecord(rule, r)[i].value == Rewrite(rule, r[i].value)
  {
    if r != [] {
      var init := r[..|r| - 1];
      RewriteRecordAt(rule, init);
      var out := RewriteRecord(rule, r);
      assert out[..|r| - 1] == RewriteRecord(rule, init);
      forall i | 0 <= i < |r|
        ensures out[i].key == r[i].key && out[i].value == Rewrite(rule, r[i].value)
      {
        if i < |r| - 1 {
          assert out[i] == RewriteRecord(rule, init)[i];
          assert Keys(RewriteRecord(rule, init))[i] == Keys(init)[i];
        }
      }
    }
  }

  /** The `get_records` loop keeps exactly the keys of the row, in order,
      and rewrites each value by the value rule. */
  lemma NormalizeRecordAt(r: Record)
    ensures Keys(NormalizeRecord(r)) == Keys(r)
    ensures forall i :: 0 <= i < |r| ==> NormalizeRecord(r)[i].value == NormalizeValue(r[i].value)
  {
    RewriteRecordAt(RecordsRule, r);
  }

  /** `clean_record` returns a dictionary with exactly the input's keys, in
      order, each value cleaned with the given precision. */
  lemma CleanedAt(r: Record, precision: int, round: Rounding)
    ensures Keys(Cleaned(r, precision, round)) == Keys(r)
    ensures forall i :: 0 <= i < |r| ==> Cleaned(r, precision, round)[i].value == CleanValue(r[i].value, precision, round)
  {
    RewriteRecordAt(CleanRule(precision, round), r);
  }

  /** The two variants differ only on floats: `clean_record` rounds a float
      that is not NaN, and treats every other value as `get_records` does. */
  lemma CleanDiffersOnlyOnFloats(v: Value, precision: int, round: Rounding)
    ensures CleanValue(v, precision, round) ==
      if v.Float? then Float(round(v.x, precision)) else NormalizeValue(v)
  {
  }

  /** A NaN becomes None before the float rule is reached, so it is never
      rounded; a Timestamp takes the isoformat branch before the generic
      datetime branch. */
  lemma CleanPrecedence(precision: int, round: Rounding, iso: string, text: string)
    ensures CleanValue(NaN, precision, round) == Null
    ensures CleanValue(Timestamp(iso, text), precision, round) == Text(iso)
  {
  }

  /** A value that normalisation leaves alone: not NaN and not one of the
      temporal kinds that are turned into text. */
  predicate Normal(v: Value) {
    !v.NaN? && !v.Timestamp? && !v.Timedelta? && !v.DateTime?
  }

  /** Normalisation yields a normal value and fixes exactly the normal
      values. */
  lemma NormalizeValueFixes(v: Value)
    ensures Normal(NormalizeValue(v))
    ensures NormalizeValue(v) == v <==> Normal(v)
  {
  }

  /** Normalising an already normalised record changes nothing. */
  lemma {:induction false} NormalizeRecordIdempotent(r: Record)
    ensures NormalizeRecord(NormalizeRecord(r)) == NormalizeRecord(r)
  {
    if r != [] {
      var init := r[..|r| - 1];
      NormalizeRecordIdempotent(init);
      var once := NormalizeRecord(r);
      assert once[..|r| - 1] == NormalizeRecord(init);
      NormalizeValueFixes(r[|r| - 1].value);
    }
  }
}
