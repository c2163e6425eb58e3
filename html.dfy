/**
 * HTML escaping of model- and mail-derived text: Python's `html.escape` with
 * its default `quote=True`, `str()` of the JSON scalars the briefing holds,
 * and the `clean_text` helper of app.py built from both.
 */
module Html {
  import opened Text

  /** A scalar of the parsed JSON briefing (or `None` for a missing field). */
  datatype Value = Null | Bool(b: bool) | Int(n: int) | Str(s: string)

  /** Python's `str(v)`. */
  function PyStr(v: Value): (r: string)
    ensures r == "" <==> v == Str("")
  {
    match v
    case Null => "None"
    case Bool(b) => if b then "True" else "False"
    case Int(n) => IntToString(n)
    case Str(s) => s
  }

  /** Python's truth test `not v`. */
  predicate Falsy(v: Value)
  {
    match v
    case Null => true
    case Bool(b) => !b
    case Int(n) => n == 0
    case Str(s) => s == ""
  }

  // ---------------------------------------------------------------------
  // html.escape as CPython writes it: five `str.replace` calls in a row

  /** Python's `s.replace(c, rep)` for a one-character pattern. */
  function ReplaceChar(s: string, c: char, rep: string): string
  {
    if s == [] then [] else (if s[0] == c then rep else [s[0]]) + ReplaceChar(s[1..], c, rep)
  }

  /** `html.escape(s, quote=True)`: `&` first, then `<`, `>`, `"` and `'`. */
  function PyHtmlEscape(s: string): string
  {
    var s1 := ReplaceChar(s, '&', "&amp;");
    var s2 := ReplaceChar(s1, '<', "&lt;");
    var s3 := ReplaceChar(s2, '>', "&gt;");
    var s4 := ReplaceChar(s3, '"', "&quot;");
    ReplaceChar(s4, '\'', "&#x27;")
  }

  // ---------------------------------------------------------------------
  // The same escape, one character at a time

  /** The characters that `html.escape` leaves raw nowhere in its output. */
  predicate IsMarkup(c: char)
  {
    c == '<' || c == '>' || c == '"' || c == '\''
  }

  /** The characters that `html.escape` rewrites. */
  predicate NeedsEscape(c: char)
  {
    c == '&' || IsMarkup(c)
  }

  function EscapeChar(c: char): (e: string)
    ensures |e| > 0
  {
    if c == '&' then "&amp;"
    else if c == '<' then "&lt;"
    else if c == '>' then "&gt;"
    else if c == '"' then "&quot;"
    else if c == '\'' then "&#x27;"
    else [c]
  }

  function Escape(s: string): string
  {
    if s == [] then [] else EscapeChar(s[0]) + Escape(s[1..])
  }

  /** Decodes exactly the five entities `html.escape` produces; every other character is kept. */
  function Unescape(s: string): string
    decreases |s|
  {
    if s == [] then []
    else if StartsWith(s, "&amp;") then "&" + Unescape(s[5..])
    else if StartsWith(s, "&lt;") then "<" + Unescape(s[4..])
    else if StartsWith(s, "&gt;") then ">" + Unescape(s[4..])
    else if StartsWith(s, "&quot;") then "\"" + Unescape(s[6..])
    else if StartsWith(s, "&#x27;") then "'" + Unescape(s[6..])
    else [s[0]] + Unescape(s[1..])
  }

  predicate StartsWithEntity(s: string)
  {
    StartsWith(s, "&amp;") || StartsWith(s, "&lt;") || StartsWith(s, "&gt;")
    || StartsWith(s, "&quot;") || StartsWith(s, "&#x27;")
  }

  /** Safe to embed in markup: no raw `<`, `>`, `"` or `'`, and every `&` opens an entity. */
  predicate IsEscaped(s: string)
  {
    && (forall i :: 0 <= i < |s| ==> !IsMarkup(s[i]))
    && (forall i :: 0 <= i < |s| && s[i] == '&' ==> StartsWithEntity(s[i..]))
  }

  /** `clean_text(text)`: `""` for a falsy value, else `html.escape(str(text))`. */
  function CleanText(v: Value): (r: string)
    ensures IsEscaped(r)
    ensures r == "" <==> Falsy(v)
  {
    if Falsy(v) then ""
    else
      EscapeIsEscaped(PyStr(v));
      EscapeLength(PyStr(v));
      Escape(PyStr(v))
  }

  // ---------------------------------------------------------------------
  // Lemmas

  lemma {:induction false} ReplaceCharAppend(a: string, b: string, c: char, rep: string)
    ensures ReplaceChar(a + b, c, rep) == ReplaceChar(a, c, rep) + ReplaceChar(b, c, rep)
  {
    if a == [] {
      assert a + b == b;
    } else {
      assert (a + b)[1..] == a[1..] + b;
      ReplaceCharAppend(a[1..], b, c, rep);
    }
  }

  lemma {:induction false} ReplaceCharAbsent(s: string, c: char, rep: string)
    requires c !in s
    ensures ReplaceChar(s, c, rep) == s
  {
    if s != [] {
      ReplaceCharAbsent(s[1..], c, rep);
      assert [s[0]] + s[1..] == s;
    }
  }

  lemma PyHtmlEscapeAppend(a: string, b: string)
    ensures PyHtmlEscape(a + b) == PyHtmlEscape(a) + PyHtmlEscape(b)
  {
    var a1, b1 := ReplaceChar(a, '&', "&amp;"), ReplaceChar(b, '&', "&amp;");
    ReplaceCharAppend(a, b, '&', "&amp;");
    var a2, b2 := ReplaceChar(a1, '<', "&lt;"), ReplaceChar(b1, '<', "&lt;");
    ReplaceCharAppend(a1, b1, '<', "&lt;");
    var a3, b3 := ReplaceChar(a2, '>', "&gt;"), ReplaceChar(b2, '>', "&gt;");
    ReplaceCharAppend(a2, b2, '>', "&gt;");
    var a4, b4 := ReplaceChar(a3, '"', "&quot;"), ReplaceChar(b3, '"', "&quot;");
    ReplaceCharAppend(a3, b3, '"', "&quot;");
    ReplaceCharAppend(a4, b4, '\'', "&#x27;");
  }

  /** A string free of the five rewritten characters passes the replace chain unchanged. */
  lemma PyHtmlEscapePlain(s: string)
    requires '&' !in s && '<' !in s && '>' !in s && '"' !in s && '\'' !in s
    ensures PyHtmlEscape(s) == s
  {
    ReplaceCharAbsent(s, '&', "&amp;");
    ReplaceCharAbsent(s, '<', "&lt;");
    ReplaceCharAbsent(s, '>', "&gt;");
    ReplaceCharAbsent(s, '"', "&quot;");
    ReplaceCharAbsent(s, '\'', "&#x27;");
  }

  lemma ReplaceCharOne(x: char, c: char, rep: string)
    ensures ReplaceChar([x], c, rep) == if x == c then rep else [x]
  {
    assert [x][1..] == [];
  }

  /** An entity passes every later stage of the chain unchanged. */
  lemma EntityStable(e: string)
    requires '<' !in e && '>' !in e && '"' !in e && '\'' !in e
    ensures ReplaceChar(e, '<', "&lt;") == e && ReplaceChar(e, '>', "&gt;") == e
    ensures ReplaceChar(e, '"', "&quot;") == e && ReplaceChar(e, '\'', "&#x27;") == e
  {
    ReplaceCharAbsent(e, '<', "&lt;");
    ReplaceCharAbsent(e, '>', "&gt;");
    ReplaceCharAbsent(e, '"', "&quot;");
    ReplaceCharAbsent(e, '\'', "&#x27;");
  }

  lemma PyHtmlEscapeChar(c: char)
    ensures PyHtmlEscape([c]) == EscapeChar(c)
  {
    var e := EscapeChar(c);
    ReplaceCharOne(c, '&', "&amp;");
    if c == '&' {
      EntityStable("&amp;");
    } else {
      ReplaceCharOne(c, '<', "&lt;");
      if c == '<' {
        EntityStable("&lt;");
      } else {
        ReplaceCharOne(c, '>', "&gt;");
        if c == '>' {
          EntityStable("&gt;");
        } else {
          ReplaceCharOne(c, '"', "&quot;");
          if c == '"' {
            EntityStable("&quot;");
          } else {
            ReplaceCharOne(c, '\'', "&#x27;");
          }
        }
      }
    }
  }

  /** The character-wise escape is exactly CPython's chain of replacements. */
  lemma {:induction false} EscapeIsPyHtmlEscape(s: string)
    ensures Escape(s) == PyHtmlEscape(s)
  {
    if s == [] {
      PyHtmlEscapePlain(s);
    } else {
      assert s == [s[0]] + s[1..];
      PyHtmlEscapeAppend([s[0]], s[1..]);
      PyHtmlEscapeChar(s[0]);
      EscapeIsPyHtmlEscape(s[1..]);
    }
  }

  lemma IsEscapedAppend(a: string, b: string)
    requires IsEscaped(a) && IsEscaped(b)
    ensures IsEscaped(a + b)
  {
    var s := a + b;
    forall i | 0 <= i < |s| && s[i] == '&'
      ensures StartsWithEntity(s[i..])
    {
      if i < |a| {
        assert s[i..] == a[i..] + b;
        var t := a[i..];
        assert StartsWithEntity(t);
        if StartsWith(t, "&amp;") { StartsWithAppend(t, b, "&amp;"); }
        else if StartsWith(t, "&lt;") { StartsWithAppend(t, b, "&lt;"); }
        else if StartsWith(t, "&gt;") { StartsWithAppend(t, b, "&gt;"); }
        else if StartsWith(t, "&quot;") { StartsWithAppend(t, b, "&quot;"); }
        else { StartsWithAppend(t, b, "&#x27;"); }
      } else {
        assert s[i..] == b[i - |a|..];
      }
    }
  }

  /** Each of the five entities is itself safe: one `&` that opens it, then plain characters. */
  lemma {:induction false} EntityIsEscaped(e: string)
    requires e == "&amp;" || e == "&lt;" || e == "&gt;" || e == "&quot;" || e == "&#x27;"
    ensures IsEscaped(e)
  {
    assert e[0..] == e;
    assert forall i :: 1 <= i < |e| ==> e[i] != '&' && !IsMarkup(e[i]);
  }

  lemma EscapeCharIsEscaped(c: char)
    ensures IsEscaped(EscapeChar(c))
  {
    if NeedsEscape(c) {
      EntityIsEscaped(EscapeChar(c));
    }
  }

  /** Everything `html.escape` returns is safe to embed in markup. */
  lemma {:induction false} EscapeIsEscaped(s: string)
    ensures IsEscaped(Escape(s))
  {
    if s != [] {
      EscapeCharIsEscaped(s[0]);
      EscapeIsEscaped(s[1..]);
      IsEscapedAppend(EscapeChar(s[0]), Escape(s[1..]));
    }
  }

  /** Escaping never shortens, and keeps the length only when nothing needed escaping. */
  lemma {:induction false} EscapeLength(s: string)
    ensures |Escape(s)| >= |s|
    ensures |Escape(s)| == |s| ==> forall i :: 0 <= i < |s| ==> !NeedsEscape(s[i])
  {
    if s != [] {
      EscapeLength(s[1..]);
      assert forall i :: 1 <= i < |s| ==> s[i] == s[1..][i - 1];
    }
  }

  /** `html.escape(s) == s` exactly when `s` holds none of `&`, `<`, `>`, `"`, `'`. */
  lemma {:induction false} EscapeUnchanged(s: string)
    ensures Escape(s) == s <==> forall i :: 0 <= i < |s| ==> !NeedsEscape(s[i])
  {
    EscapeLength(s);
    if s != [] && forall i :: 0 <= i < |s| ==> !NeedsEscape(s[i]) {
      assert !NeedsEscape(s[0]);
      assert forall i :: 0 <= i < |s[1..]| ==> !NeedsEscape(s[1..][i]);
      EscapeUnchanged(s[1..]);
      assert [s[0]] + s[1..] == s;
    }
  }

  lemma UnescapeAmp(t: string)
    ensures Unescape("&amp;" + t) == "&" + Unescape(t)
  {
    var s := "&amp;" + t;
    assert s[..5] == "&amp;" && s[5..] == t;
  }

  lemma UnescapeLt(t: string)
    ensures Unescape("&lt;" + t) == "<" + Unescape(t)
  {
    var s := "&lt;" + t;
    assert !StartsWith(s, "&amp;") by { assert s[1] == 'l'; }
    assert s[..4] == "&lt;" && s[4..] == t;
  }

  lemma UnescapeGt(t: string)
    ensures Unescape("&gt;" + t) == ">" + Unescape(t)
  {
    var s := "&gt;" + t;
    assert !StartsWith(s, "&amp;") && !StartsWith(s, "&lt;") by { assert s[1] == 'g'; }
    assert s[..4] == "&gt;" && s[4..] == t;
  }

  lemma UnescapeQuot(t: string)
    ensures Unescape("&quot;" + t) == "\"" + Unescape(t)
  {
    var s := "&quot;" + t;
    assert !StartsWith(s, "&amp;") && !StartsWith(s, "&lt;") && !StartsWith(s, "&gt;") by {
      assert s[1] == 'q';
    }
    assert s[..6] == "&quot;" && s[6..] == t;
  }

  lemma UnescapeApos(t: string)
    ensures Unescape("&#x27;" + t) == "'" + Unescape(t)
  {
    var s := "&#x27;" + t;
    assert !StartsWith(s, "&amp;") && !StartsWith(s, "&lt;") && !StartsWith(s, "&gt;")
      && !StartsWith(s, "&quot;") by {
      assert s[1] == '#';
    }
    assert s[..6] == "&#x27;" && s[6..] == t;
  }

  lemma UnescapePlain(c: char, t: string)
    requires c != '&'
    ensures Unescape([c] + t) == [c] + Unescape(t)
  {
    var s := [c] + t;
    assert s[0] == c && s[1..] == t;
    assert !StartsWithEntity(s) by {
      if |s| >= 4 { assert s[..4][0] == c; }
      if |s| >= 5 { assert s[..5][0] == c; }
      if |s| >= 6 { assert s[..6][0] == c; }
    }
  }

  lemma UnescapeStep(c: char, t: string)
    ensures Unescape(EscapeChar(c) + t) == [c] + Unescape(t)
  {
    if c == '&' { UnescapeAmp(t); }
    else if c == '<' { UnescapeLt(t); }
    else if c == '>' { UnescapeGt(t); }
    else if c == '"' { UnescapeQuot(t); }
    else if c == '\'' { UnescapeApos(t); }
    else { UnescapePlain(c, t); }
  }

  /** Decoding the five entities gives back exactly the escaped text. */
  lemma {:induction false} UnescapeEscape(s: string)
    ensures Unescape(Escape(s)) == s
  {
    if s != [] {
      UnescapeStep(s[0], Escape(s[1..]));
      UnescapeEscape(s[1..]);
      assert [s[0]] + s[1..] == s;
    }
  }

  /** `clean_text` loses nothing: decoding it gives `str(text)`, or `""` for a falsy value. */
  lemma CleanTextRoundTrip(v: Value)
    ensures Unescape(CleanText(v)) == if Falsy(v) then "" else PyStr(v)
  {
    if !Falsy(v) {
      UnescapeEscape(PyStr(v));
    }
  }

  /** Two values with different `str()` forms are never cleaned to the same text. */
  lemma CleanTextInjective(v: Value, w: Value)
    requires !Falsy(v) && !Falsy(w) && PyStr(v) != PyStr(w)
    ensures CleanText(v) != CleanText(w)
  {
    CleanTextRoundTrip(v);
    CleanTextRoundTrip(w);
  }

  /** `str(n)` of an integer needs no escaping. */
  lemma IntToStringPlain(n: int)
    ensures Escape(IntToString(n)) == IntToString(n)
  {
    var r := IntToString(n);
    assert forall i :: 0 <= i < |r| ==> !NeedsEscape(r[i]) by {
      if n < 0 {
        assert forall i :: 1 <= i < |r| ==> r[i] == r[1..][i - 1];
      }
    }
    EscapeUnchanged(r);
  }

  /** A non-zero count passes `clean_text` as its plain decimal form. */
  lemma CleanTextInt(n: int)
    requires n != 0
    ensures CleanText(Int(n)) == IntToString(n)
  {
    IntToStringPlain(n);
  }
}
