/** The regular expressions of the column-type inference, as predicates on
    strings. `\d` is taken to be an ASCII digit and `\s` ASCII white space. */
module Patterns {
  import opened Wrappers
  import opened Values

  /** One position of a fixed-width pattern: `\d` or a literal character. */
  datatype Tok = Digit | Lit(c: char)

  type Pattern = seq<Tok>

  predicate TokMatches(t: Tok, c: char) {
    match t
    case Digit => IsDigit(c)
    case Lit(l) => c == l
  }

  /** `re.match(p, s)`: the pattern matches at the start of `s`; whatever
      follows the match is ignored. */
  predicate MatchesPrefix(p: Pattern, s: string) {
    |p| <= |s| && forall k :: 0 <= k < |p| ==> TokMatches(p[k], s[k])
  }

  /** Matching a pattern means matching each of its prefixes. */
  lemma PrefixOfPatternMatches(p: Pattern, q: Pattern, s: string)
    requires p <= q
    requires MatchesPrefix(q, s)
    ensures MatchesPrefix(p, s)
  {
  }

  function Digits(n: nat): (p: Pattern)
    ensures |p| == n && forall k :: 0 <= k < n ==> p[k] == Digit
  {
    seq(n, _ => Digit)
  }

  /** The fixed-width pattern that `text` spells, with `d` for `\d`. */
  function Spell(text: string): (p: Pattern)
    ensures |p| == |text|
  {
    seq(|text|, k requires 0 <= k < |text| => if text[k] == 'd' then Digit else Lit(text[k]))
  }

  /** What a matching format makes of the column. */
  datatype Format = DateFmt | TimeFmt | DateTimeFmt

  datatype Entry = Entry(pattern: Pattern, format: Format)

  /** The ordered format list of the inference. */
  const DateFormats: seq<Entry> := [
    Entry(Spell("dddd-dd-dd"), DateFmt),            // \d{4}-\d{2}-\d{2}
    Entry(Spell("dd/dd/dddd"), DateFmt),            // \d{2}/\d{2}/\d{4}
    Entry(Spell("dddd/dd/dd"), DateFmt),            // \d{4}/\d{2}/\d{2}
    Entry(Spell("dd-dd-dddd"), DateFmt),            // \d{2}-\d{2}-\d{4}
    Entry(Spell("dddd.dd.dd"), DateFmt),            // \d{4}\.\d{2}\.\d{2}
    Entry(Spell("dd:dd:dd"), TimeFmt),              // \d{2}:\d{2}:\d{2}
    Entry(Spell("dddd-dd-dd dd:dd:dd"), DateTimeFmt) // \d{4}-\d{2}-\d{2} \d{2}:\d{2}:\d{2}
  ]

  /** The date pattern is a prefix of the date-time pattern, so any text
      the date-time pattern matches is matched by the date pattern too. */
  lemma DateTimePatternImpliesDate(s: string)
    ensures MatchesPrefix(DateFormats[6].pattern, s) ==> MatchesPrefix(DateFormats[0].pattern, s)
  {
    var p, q := DateFormats[0].pattern, DateFormats[6].pattern;
    assert p == q[..|p|];
    if MatchesPrefix(q, s) {
      PrefixOfPatternMatches(p, q, s);
    }
  }

  /** Some string of `strs` matches `p` (`str.match(p).any()`). */
  predicate AnyMatches(p: Pattern, strs: seq<string>) {
    exists i :: 0 <= i < |strs| && MatchesPrefix(p, strs[i])
  }

  /** The format of the first entry that some string matches, trying the
      entries in list order. */
  function FirstFormat(formats: seq<Entry>, strs: seq<string>): (r: Option<Format>)
    ensures r.None? <==> forall i :: 0 <= i < |formats| ==> !AnyMatches(formats[i].pattern, strs)
    ensures r.Some? ==>
      exists i :: 0 <= i < |formats| && r.value == formats[i].format
        && AnyMatches(formats[i].pattern, strs)
        && forall j :: 0 <= j < i ==> !AnyMatches(formats[j].pattern, strs)
  {
    if formats == [] then None
    else if AnyMatches(formats[0].pattern, strs) then Some(formats[0].format)
    else
      var r := FirstFormat(formats[1..], strs);
      assert forall i :: 1 <= i < |formats| ==> formats[i] == formats[1..][i - 1];
      r
  }

  // ---- r'^[£$€¥]\s?\d+\.?\d*$' ----

  predicate IsCurrencySymbol(c: char) {
    c == '£' || c == '$' || c == '€' || c == '¥'
  }

  predicate IsSpace(c: char) {
    c == ' ' || c == '\t' || c == '\n' || c == '\r' || c == '\U{000B}' || c == '\U{000C}'
  }

  /** `s` without its leading digits. */
  function DropDigits(s: string): (t: string)
    ensures |t| <= |s| && t == s[|s| - |t|..]
    ensures t == [] || !IsDigit(t[0])
  {
    if s != [] && IsDigit(s[0]) then DropDigits(s[1..]) else s
  }

  predicate AllDigits(s: string) {
    forall k :: 0 <= k < |s| ==> IsDigit(s[k])
  }

  /** The whole of `s` is `\d+\.?\d*`. */
  predicate IsAmount(s: string) {
    |s| >= 1 && IsDigit(s[0]) &&
    var rest := DropDigits(s);
    rest == [] || (rest[0] == '.' && AllDigits(rest[1..]))
  }

  /** `re.match(r'^[£$€¥]\s?\d+\.?\d*$', s)`. Python's `$` also matches just
      before a final newline. */
  predicate CurrencyMatches(s: string) {
    |s| >= 2 && IsCurrencySymbol(s[0]) &&
    var t := if IsSpace(s[1]) then s[2..] else s[1..];
    IsAmount(t) || (|t| >= 1 && t[|t| - 1] == '\n' && IsAmount(t[..|t| - 1]))
  }

  predicate AnyCurrency(strs: seq<string>) {
    exists i :: 0 <= i < |strs| && CurrencyMatches(strs[i])
  }
}
