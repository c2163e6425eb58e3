/**
 * String helpers with Python's meaning: `sep.join(parts)`, `s.split(sep)`,
 * repeated `+=` concatenation, and `str()` of an integer.
 */
module Text {

  /** True when `p` is a prefix of `s` (Python's `s.startswith(p)`). */
  predicate StartsWith(s: string, p: string)
  {
    |p| <= |s| && s[..|p|] == p
  }

  /** Python's `sep.join(parts)`. */
  function Join(parts: seq<string>, sep: string): string
  {
    if |parts| == 0 then ""
    else if |parts| == 1 then parts[0]
    else parts[0] + sep + Join(parts[1..], sep)
  }

  /**
   * Python's `s.split(sep)` for a non-empty separator: the pieces between
   * the leftmost non-overlapping occurrences of `sep`.
   */
  function Split(s: string, sep: string): (r: seq<string>)
    requires |sep| > 0
    ensures |r| > 0
    decreases |s|
  {
    if |s| < |sep| then [s]
    else if s[..|sep|] == sep then [""] + Split(s[|sep|..], sep)
    else
      var rest := Split(s[1..], sep);
      [[s[0]] + rest[0]] + rest[1..]
  }

  /** The concatenation of `parts`, in order: what a loop of `acc += part` builds from `""`. */
  function Concat(parts: seq<string>): string
  {
    if parts == [] then "" else Concat(parts[..|parts| - 1]) + parts[|parts| - 1]
  }

  /**
   * A Python f-string: its literal parts, with one replacement field's text
   * between each two consecutive parts.
   */
  function Format(parts: seq<string>, fields: seq<string>): string
    requires |parts| == |fields| + 1
  {
    if fields == [] then parts[0] else parts[0] + fields[0] + Format(parts[1..], fields[1..])
  }

  /** `n` empty replacement fields. */
  function Blanks(n: nat): seq<string>
  {
    seq(n, _ => "")
  }

  /** The occurrences of `c` in the fields, added up. */
  function FieldsCount(fields: seq<string>, c: char): nat
  {
    if fields == [] then 0 else CountChar(fields[0], c) + FieldsCount(fields[1..], c)
  }

  /** The number of occurrences of `c` in `s` (Python's `s.count(c)`). */
  function CountChar(s: string, c: char): nat
  {
    if s == [] then 0 else (if s[0] == c then 1 else 0) + CountChar(s[1..], c)
  }

  /** The decimal digit for `d`. */
  function DigitChar(d: nat): (c: char)
    requires d < 10
    ensures '0' <= c <= '9'
  {
    "0123456789"[d]
  }

  /** The value of a decimal digit character (0 for any other character). */
  function DigitValue(c: char): (d: nat)
    ensures d < 10
  {
    if '0' <= c <= '9' then c as int - '0' as int else 0
  }

  predicate IsDigits(s: string)
  {
    forall i :: 0 <= i < |s| ==> '0' <= s[i] <= '9'
  }

  /** Python's `str(n)` for a non-negative integer: its decimal digits. */
  function NatToString(n: nat): (r: string)
    ensures |r| > 0 && IsDigits(r)
  {
    if n < 10 then [DigitChar(n)] else NatToString(n / 10) + [DigitChar(n % 10)]
  }

  /** Python's `str(n)` for any integer: a leading `-` for negative numbers. */
  function IntToString(n: int): (r: string)
    ensures |r| > 0
    ensures n >= 0 ==> IsDigits(r)
    ensures n < 0 ==> r[0] == '-' && IsDigits(r[1..])
  {
    if n < 0 then "-" + NatToString(-n) else NatToString(n)
  }

  /** Reads a string of decimal digits back as a number (Python's `int(s)` on digits). */
  function ParseNat(s: string): nat
  {
    if s == [] then 0 else ParseNat(s[..|s| - 1]) * 10 + DigitValue(s[|s| - 1])
  }

  // ---------------------------------------------------------------------
  // Lemmas

  /** `str(n)` is read back by `int(...)`: the decimal rendering loses nothing. */
  lemma {:induction false} ParseNatToString(n: nat)
    ensures ParseNat(NatToString(n)) == n
  {
    var s := NatToString(n);
    if n >= 10 {
      ParseNatToString(n / 10);
      assert s[..|s| - 1] == NatToString(n / 10);
      assert DigitValue(s[|s| - 1]) == n % 10;
    }
  }

  /** A prefix survives appending. */
  lemma StartsWithAppend(s: string, t: string, p: string)
    requires StartsWith(s, p)
    ensures StartsWith(s + t, p)
  {
    assert (s + t)[..|p|] == s[..|p|];
  }

  /** Counting distributes over concatenation. */
  lemma {:induction false} CountCharAppend(a: string, b: string, c: char)
    ensures CountChar(a + b, c) == CountChar(a, c) + CountChar(b, c)
  {
    if a == [] {
      assert a + b == b;
    } else {
      assert (a + b)[1..] == a[1..] + b;
      CountCharAppend(a[1..], b, c);
    }
  }

  /** When every part holds `k` copies of `c`, the concatenation holds `k` per part. */
  lemma {:induction false} CountCharConcat(parts: seq<string>, c: char, k: nat)
    requires forall i :: 0 <= i < |parts| ==> CountChar(parts[i], c) == k
    ensures CountChar(Concat(parts), c) == k * |parts|
  {
    if parts != [] {
      var init := parts[..|parts| - 1];
      CountCharConcat(init, c, k);
      CountCharAppend(Concat(init), parts[|parts| - 1], c);
    }
  }

  lemma {:induction false} CountCharAbsent(s: string, c: char)
    requires c !in s
    ensures CountChar(s, c) == 0
  {
    if s != [] {
      assert s[0] != c;
      assert forall x :: x in s[1..] ==> x in s;
      CountCharAbsent(s[1..], c);
    }
  }

  lemma {:induction false} CountCharPresent(s: string, c: char)
    requires c in s
    ensures CountChar(s, c) > 0
  {
    if s[0] != c {
      assert c in s[1..];
      CountCharPresent(s[1..], c);
    }
  }

  /**
   * The copies of `c` in a formatted string are those of its literal parts
   * plus those its fields bring in.
   */
  lemma {:induction false} FormatCount(parts: seq<string>, fields: seq<string>, c: char)
    requires |parts| == |fields| + 1
    ensures CountChar(Format(parts, fields), c)
            == CountChar(Format(parts, Blanks(|fields|)), c) + FieldsCount(fields, c)
  {
    if fields != [] {
      var blanks := Blanks(|fields|);
      assert blanks[1..] == Blanks(|fields| - 1);
      FormatCount(parts[1..], fields[1..], c);
      CountCharAppend(parts[0], fields[0], c);
      CountCharAppend(parts[0] + fields[0], Format(parts[1..], fields[1..]), c);
      CountCharAppend(parts[0], "", c);
      assert parts[0] + "" == parts[0];
      CountCharAppend(parts[0], Format(parts[1..], blanks[1..]), c);
    }
  }

  /** A formatted string opens with its first literal part. */
  lemma FormatStartsWith(parts: seq<string>, fields: seq<string>)
    requires |parts| == |fields| + 1
    ensures StartsWith(Format(parts, fields), parts[0])
  {
    if fields != [] {
      assert Format(parts, fields)[..|parts[0]|] == parts[0];
    }
  }

  lemma {:induction false} FieldsCountZero(fields: seq<string>, c: char)
    requires forall i :: 0 <= i < |fields| ==> c !in fields[i]
    ensures FieldsCount(fields, c) == 0
  {
    if fields != [] {
      CountCharAbsent(fields[0], c);
      FieldsCountZero(fields[1..], c);
    }
  }

  /** Fields free of `c` add no `c`: the formatted string has only the template's copies. */
  lemma FormatFieldsFree(parts: seq<string>, fields: seq<string>, c: char)
    requires |parts| == |fields| + 1
    requires forall i :: 0 <= i < |fields| ==> c !in fields[i]
    ensures CountChar(Format(parts, fields), c) == CountChar(Format(parts, Blanks(|fields|)), c)
  {
    FormatCount(parts, fields, c);
    FieldsCountZero(fields, c);
  }

  /** Appending one part to a concatenation is the next step of an `acc += part` loop. */
  lemma ConcatSnoc(parts: seq<string>, k: nat)
    requires k < |parts|
    ensures Concat(parts[..k + 1]) == Concat(parts[..k]) + parts[k]
  {
    assert parts[..k + 1][..k] == parts[..k];
  }

  /** A piece that does not hold the separator's first character is not split. */
  lemma {:induction false} SplitNoSep(p: string, sep: string)
    requires |sep| > 0 && sep[0] !in p
    ensures Split(p, sep) == [p]
    decreases |p|
  {
    if |p| >= |sep| {
      assert p[..|sep|][0] == p[0];
      SplitNoSep(p[1..], sep);
      assert [p[0]] + p[1..] == p;
    }
  }

  /** Splitting `p + sep + rest` yields `p` first when `p` cannot start a separator. */
  lemma {:induction false} SplitPrefix(p: string, sep: string, rest: string)
    requires |sep| > 0 && sep[0] !in p
    ensures Split(p + sep + rest, sep) == [p] + Split(rest, sep)
    decreases |p|
  {
    var s := p + sep + rest;
    if p == [] {
      assert s == sep + rest;
      assert s[..|sep|] == sep;
      assert s[|sep|..] == rest;
    } else {
      assert s[..|sep|][0] == p[0];
      assert s[1..] == p[1..] + sep + rest;
      SplitPrefix(p[1..], sep, rest);
      assert [p[0]] + p[1..] == p;
    }
  }

  /**
   * `s.split(sep)` undoes `sep.join(parts)` when no part holds the
   * separator's first character.
   */
  lemma {:induction false} SplitJoin(parts: seq<string>, sep: string)
    requires |parts| > 0 && |sep| > 0
    requires forall i :: 0 <= i < |parts| ==> sep[0] !in parts[i]
    ensures Split(Join(parts, sep), sep) == parts
  {
    if |parts| == 1 {
      SplitNoSep(parts[0], sep);
    } else {
      SplitJoin(parts[1..], sep);
      SplitPrefix(parts[0], sep, Join(parts[1..], sep));
      assert [parts[0]] + parts[1..] == parts;
    }
  }
}
