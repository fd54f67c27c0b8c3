/**
 * The string operations the schema library borrows from PHP: `trim(x) == ''`,
 * ASCII `strtolower`/`strtoupper`, the substring test `preg_match('/unsigned/', ...)`,
 * the literal scanner `preg_match_all("/'([^']+)'/", ...)` and `implode`.
 */
module Text {
  import opened Wrappers

  const Quote: char := '\''

  /** The characters PHP's `trim` strips by default. */
  predicate IsTrimmed(c: char) {
    c == ' ' || c == '\t' || c == '\n' || c == '\r' || c == '\0' || c == '\U{0B}'
  }

  /** `trim(s) == ''`: the string is empty or made only of trimmed characters. */
  predicate IsBlank(s: string) {
    forall i :: 0 <= i < |s| ==> IsTrimmed(s[i])
  }

  function LowerChar(c: char): char {
    if 'A' <= c <= 'Z' then (c as int + 32) as char else c
  }

  function UpperChar(c: char): char {
    if 'a' <= c <= 'z' then (c as int - 32) as char else c
  }

  /** ASCII `strtolower`: every letter A-Z is mapped to a-z, nothing else changes. */
  function ToLower(s: string): (r: string)
    ensures |r| == |s|
    ensures forall i :: 0 <= i < |s| ==> r[i] == LowerChar(s[i])
  {
    seq(|s|, i requires 0 <= i < |s| => LowerChar(s[i]))
  }

  /** ASCII `strtoupper`. */
  function ToUpper(s: string): (r: string)
    ensures |r| == |s|
    ensures forall i :: 0 <= i < |s| ==> r[i] == UpperChar(s[i])
  {
    seq(|s|, i requires 0 <= i < |s| => UpperChar(s[i]))
  }

  predicate OccursAt(s: string, p: string, i: int) {
    0 <= i && i + |p| <= |s| && s[i..i + |p|] == p
  }

  /** `preg_match('/p/', s)` for a pattern `p` without metacharacters. */
  function Contains(s: string, p: string): (r: bool)
    ensures r <==> exists i :: OccursAt(s, p, i)
    decreases |s|
  {
    if |p| > |s| then false
    else if s[..|p|] == p then (assert OccursAt(s, p, 0); true)
    else
      ContainsShift(s, p);
      Contains(s[1..], p)
  }

  /** Past a non-occurrence at 0, the occurrences in `s` are those in `s[1..]`, shifted by one. */
  lemma ContainsShift(s: string, p: string)
    requires |p| <= |s| && s[..|p|] != p
    ensures (exists i :: OccursAt(s, p, i)) <==> (exists i :: OccursAt(s[1..], p, i))
  {
    if exists i :: OccursAt(s, p, i) {
      var i :| OccursAt(s, p, i);
      assert i != 0;
      assert s[1..][i - 1..i - 1 + |p|] == s[i..i + |p|];
      assert OccursAt(s[1..], p, i - 1);
    }
    if exists i :: OccursAt(s[1..], p, i) {
      var i :| OccursAt(s[1..], p, i);
      assert s[1..][i..i + |p|] == s[i + 1..i + 1 + |p|];
      assert OccursAt(s, p, i + 1);
    }
  }

  predicate NoQuote(s: string) {
    forall i :: 0 <= i < |s| ==> s[i] != Quote
  }

  /** The index of the first quote at or after `from`, if any. */
  function FindQuote(s: string, from: nat): (r: Option<nat>)
    requires from <= |s|
    ensures r.Some? ==> from <= r.value < |s| && s[r.value] == Quote && NoQuote(s[from..r.value])
    ensures r.None? ==> NoQuote(s[from..])
    decreases |s| - from
  {
    if from == |s| then None
    else if s[from] == Quote then Some(from)
    else
      var r := FindQuote(s, from + 1);
      assert s[from..] == [s[from]] + s[from + 1..];
      assert r.Some? ==> s[from..r.value] == [s[from]] + s[from + 1..r.value];
      r
  }

  /**
   * `preg_match_all("/'([^']+)'/", s)` group 1: a match starts at a quote followed by at
   * least one non-quote character and ends at the next quote; scanning resumes after the
   * closing quote, or one character further on when no match starts here.
   */
  function QuotedLiterals(s: string): seq<string>
    decreases |s|
  {
    if |s| < 2 then []
    else if s[0] == Quote && s[1] != Quote then
      match FindQuote(s, 2)
      case Some(j) => [s[1..j]] + QuotedLiterals(s[j + 1..])
      case None => QuotedLiterals(s[1..])
    else QuotedLiterals(s[1..])
  }

  /** The comma-separated list of quoted values MySQL prints inside `enum(...)` or `set(...)`. */
  function EnumBody(values: seq<string>): string
    decreases |values|
  {
    if values == [] then ""
    else [Quote] + values[0] + [Quote] + (if |values| == 1 then "" else "," + EnumBody(values[1..]))
  }

  /** A value that can be listed in an enum definition and read back by the scanner. */
  predicate Listable(v: string) {
    |v| > 0 && NoQuote(v)
  }

  /** Text without quotes contributes no literal, wherever it stands before the rest. */
  lemma {:induction false} QuotedLiteralsSkipsPlainText(p: string, s: string)
    requires NoQuote(p)
    ensures QuotedLiterals(p + s) == QuotedLiterals(s)
    decreases |p|
  {
    if |p| > 0 {
      assert (p + s)[0] == p[0] != Quote;
      assert (p + s)[1..] == p[1..] + s;
      QuotedLiteralsSkipsPlainText(p[1..], s);
      if |p + s| < 2 {
        assert QuotedLiterals(p + s) == [];
        assert QuotedLiterals(s) == [];
      } else {
        assert QuotedLiterals(p + s) == QuotedLiterals(p[1..] + s);
      }
    } else {
      assert p + s == s;
    }
  }

  /** One quoted non-empty value is read back whole, and scanning resumes after it. */
  lemma QuotedLiteralsReadsOne(v: string, rest: string)
    requires Listable(v)
    ensures QuotedLiterals([Quote] + v + [Quote] + rest) == [v] + QuotedLiterals(rest)
  {
    var s := [Quote] + v + [Quote] + rest;
    var close := |v| + 1;
    assert s[0] == Quote && s[1] == v[0] != Quote && s[close] == Quote;
    match FindQuote(s, 2)
    case Some(j) =>
      if j < close {
        assert false;
      } else if j > close {
        assert false;
      }
      assert s[1..j] == v;
      assert s[j + 1..] == rest;
    case None =>
      assert false;
  }

  /** The scanner reads back exactly the listed values, in order. */
  lemma {:induction false} QuotedLiteralsOfEnumBody(values: seq<string>, tail: string)
    requires forall i :: 0 <= i < |values| ==> Listable(values[i])
    requires NoQuote(tail)
    ensures QuotedLiterals(EnumBody(values) + tail) == values
    decreases |values|
  {
    if values == [] {
      assert EnumBody(values) + tail == tail;
      QuotedLiteralsSkipsPlainText(tail, []);
      assert tail + [] == tail;
    } else if |values| == 1 {
      assert EnumBody(values) + tail == [Quote] + values[0] + [Quote] + tail;
      QuotedLiteralsReadsOne(values[0], tail);
      QuotedLiteralsSkipsPlainText(tail, []);
      assert tail + [] == tail;
    } else {
      var more := EnumBody(values[1..]) + tail;
      EnumBodySplit(values, tail);
      QuotedLiteralsReadsOne(values[0], "," + more);
      QuotedLiteralsSkipsPlainText(",", more);
      QuotedLiteralsOfEnumBody(values[1..], tail);
      assert [values[0]] + values[1..] == values;
    }
  }

  /** A list of two or more values, followed by `tail`, is its first value quoted, a comma and the rest. */
  lemma EnumBodySplit(values: seq<string>, tail: string)
    requires |values| > 1
    ensures EnumBody(values) + tail == [Quote] + values[0] + [Quote] + ("," + (EnumBody(values[1..]) + tail))
  {
  }

  /**
   * The values of a MySQL column type `kind(...)` such as `enum('a','b','c')` are read back
   * in declaration order, provided each is non-empty and holds no quote.
   */
  lemma EnumValuesRoundTrip(kind: string, values: seq<string>)
    requires NoQuote(kind)
    requires forall i :: 0 <= i < |values| ==> Listable(values[i])
    ensures QuotedLiterals(kind + "(" + EnumBody(values) + ")") == values
  {
    QuotedLiteralsOfEnumBody(values, ")");
    QuotedLiteralsSkipsPlainText(kind + "(", EnumBody(values) + ")");
    assert kind + "(" + EnumBody(values) + ")" == (kind + "(") + (EnumBody(values) + ")");
  }

  /** `implode(sep, parts)`. */
  function Join(parts: seq<string>, sep: string): string
    decreases |parts|
  {
    if parts == [] then ""
    else if |parts| == 1 then parts[0]
    else parts[0] + sep + Join(parts[1..], sep)
  }
}
