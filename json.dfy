/**
 * The JSON text of the write handler's success body,
 * `JSON.stringify({ short, original })`, and a reader for it. Strings are
 * quoted as ECMAScript's QuoteJSONString does: `"` and `\` and the control
 * characters with short forms get them, other control characters become
 * `\u00xx` with lower-case hexadecimal digits, everything else is copied.
 * A Dafny `char` is a Unicode scalar value, so a string here cannot hold a
 * lone surrogate, which QuoteJSONString would write as `\udxxx`.
 */
module Json {
  import opened Wrappers

  const HexDigits := "0123456789abcdef"

  /** No control character: what JSON allows unescaped inside a string. */
  predicate Printable(s: string) {
    forall i :: 0 <= i < |s| ==> ' ' <= s[i]
  }

  /** The value of a hexadecimal digit, either case. */
  function HexValue(c: char): Option<nat> {
    if '0' <= c <= '9' then Some(c as nat - '0' as nat)
    else if 'a' <= c <= 'f' then Some(c as nat - 'a' as nat + 10)
    else if 'A' <= c <= 'F' then Some(c as nat - 'A' as nat + 10)
    else None
  }

  /** The escaped form of one character inside a JSON string literal. */
  function EscapeChar(c: char): (e: string)
    ensures 1 <= |e|
    ensures Printable(e)
  {
    if c == '"' then "\\\""
    else if c == '\\' then "\\\\"
    else if c as int == 0x08 then "\\b"
    else if c as int == 0x0C then "\\f"
    else if c == '\n' then "\\n"
    else if c == '\r' then "\\r"
    else if c == '\t' then "\\t"
    else if c < ' ' then "\\u00" + [HexDigits[c as int / 16], HexDigits[c as int % 16]]
    else [c]
  }

  /**
   * The characters between the quotes of the literal for `s`: never shorter
   * than `s`, and free of control characters, as a JSON string must be.
   */
  function Escape(s: string): (e: string)
    ensures |s| <= |e|
    ensures Printable(e)
  {
    if s == [] then []
    else
      var head, tail := EscapeChar(s[0]), Escape(s[1..]);
      PrintableJoin(head, tail);
      head + tail
  }

  lemma PrintableJoin(a: string, b: string)
    requires Printable(a) && Printable(b)
    ensures Printable(a + b)
  {
    forall i | 0 <= i < |a + b|
      ensures ' ' <= (a + b)[i]
    {
      if i >= |a| {
        assert (a + b)[i] == b[i - |a|];
      }
    }
  }

  /**
   * Decodes the escape sequence that follows a backslash: the character it
   * stands for and how many characters it spans.
   */
  function Unescape(s: string): (r: Option<(char, nat)>)
    ensures r.Some? ==> 1 <= r.value.1 <= |s|
  {
    if s == [] then None
    else if s[0] == '"' || s[0] == '\\' || s[0] == '/' then Some((s[0], 1))
    else if s[0] == 'b' then Some((8 as char, 1))
    else if s[0] == 'f' then Some((12 as char, 1))
    else if s[0] == 'n' then Some(('\n', 1))
    else if s[0] == 'r' then Some(('\r', 1))
    else if s[0] == 't' then Some(('\t', 1))
    else if s[0] == 'u' && |s| >= 5 then
      var d1, d2, d3, d4 := HexValue(s[1]), HexValue(s[2]), HexValue(s[3]), HexValue(s[4]);
      if d1.None? || d2.None? || d3.None? || d4.None? then None
      else
        var v := ((d1.value * 16 + d2.value) * 16 + d3.value) * 16 + d4.value;
        // a lone surrogate is not a character here; the writer never emits one
        if 0xD800 <= v < 0xE000 || v >= 0x1_0000 then None else Some((v as char, 5))
    else None
  }

  /**
   * Reads the rest of a JSON string literal whose opening quote has been
   * consumed: the decoded string and what follows the closing quote.
   */
  function ReadString(s: string): Option<(string, string)>
    decreases |s|
  {
    if s == [] then None
    else if s[0] == '"' then Some(([], s[1..]))
    else if s[0] == '\\' then
      match Unescape(s[1..])
      case None => None
      case Some((c, n)) =>
        match ReadString(s[1 + n..])
        case None => None
        case Some((t, rest)) => Some(([c] + t, rest))
    else if s[0] < ' ' then None
    else
      match ReadString(s[1..])
      case None => None
      case Some((t, rest)) => Some(([s[0]] + t, rest))
  }

  lemma HexDigitValue(n: nat)
    requires n < 16
    ensures HexValue(HexDigits[n]) == Some(n)
  {
  }

  /** Reading past one escaped character yields that character. */
  lemma ReadEscapedChar(c: char, tail: string)
    ensures ReadString(EscapeChar(c) + tail) ==
            match ReadString(tail)
            case None => None
            case Some((t, rest)) => Some(([c] + t, rest))
  {
    var s := EscapeChar(c) + tail;
    if c == '"' || c == '\\' || c as int == 0x08 || c as int == 0x0C || c == '\n' || c == '\r' || c == '\t' {
      assert s[1..][1..] == tail;
      assert s[2..] == tail;
    } else if c < ' ' {
      UnicodeEscape(c, tail);
    } else {
      assert s[1..] == tail;
    }
  }

  /** A control character without a short form is read back from its `\u00xx` form. */
  lemma UnicodeEscape(c: char, tail: string)
    requires c < ' ' && c as int != 0x08 && c as int != 0x0C && c != '\n' && c != '\r' && c != '\t'
    ensures Unescape((EscapeChar(c) + tail)[1..]) == Some((c, 5))
    ensures (EscapeChar(c) + tail)[6..] == tail
  {
    var hi, lo := c as int / 16, c as int % 16;
    HexDigitValue(hi);
    HexDigitValue(lo);
    var e := EscapeChar(c);
    assert e == "\\u00" + [HexDigits[hi], HexDigits[lo]];
    var u := (e + tail)[1..];
    assert u[0] == 'u' && u[1] == '0' && u[2] == '0';
    assert u[3] == HexDigits[hi] && u[4] == HexDigits[lo];
    assert ((0 * 16 + 0) * 16 + hi) * 16 + lo == c as int;
  }

  /** The reader undoes the writer, whatever follows the closing quote. */
  lemma {:induction false} ReadEscaped(s: string, rest: string)
    ensures ReadString(Escape(s) + "\"" + rest) == Some((s, rest))
  {
    if s == [] {
      assert Escape(s) + "\"" + rest == "\"" + rest;
    } else {
      var tail := Escape(s[1..]) + "\"" + rest;
      assert Escape(s) + "\"" + rest == EscapeChar(s[0]) + tail;
      ReadEscapedChar(s[0], tail);
      ReadEscaped(s[1..], rest);
      assert [s[0]] + s[1..] == s;
    }
  }

  const ShortKey := "{\"short\":\""
  const OriginalKey := ",\"original\":\""
  const BodyClose := "\"}"

  /** `JSON.stringify({ short: short, original: original })`. */
  function ShortUrlBody(short: string, original: string): (body: string)
    ensures StartsWith(body, ShortKey)
    ensures |short| + |original| + |ShortKey| + |OriginalKey| + |BodyClose| + 1 <= |body|
    ensures Printable(body)
    ensures var a := |ShortKey|;
            a + |Escape(short)| <= |body| && body[a..a + |Escape(short)|] == Escape(short)
    ensures var b := |ShortKey| + |Escape(short)| + 1 + |OriginalKey|;
            b + |Escape(original)| <= |body| && body[b..b + |Escape(original)|] == Escape(original)
  {
    KeysPrintable();
    BodyShape(ShortKey, Escape(short), "\"", OriginalKey, Escape(original), BodyClose);
    ShortKey + Escape(short) + "\"" + OriginalKey + Escape(original) + BodyClose
  }

  /** Reads the two fields back out of a success body. */
  function ParseShortUrlBody(body: string): Option<(string, string)> {
    if !StartsWith(body, ShortKey) then None
    else
      match ReadString(body[|ShortKey|..])
      case None => None
      case Some((short, rest)) =>
        if !StartsWith(rest, OriginalKey) then None
        else
          match ReadString(rest[|OriginalKey|..])
          case None => None
          case Some((original, tail)) => if tail == "}" then Some((short, original)) else None
  }

  /** The body carries both URLs verbatim, whatever characters they hold. */
  lemma {:induction false} ShortUrlBodyRoundTrip(short: string, original: string)
    ensures ParseShortUrlBody(ShortUrlBody(short, original)) == Some((short, original))
  {
    var body := ShortUrlBody(short, original);
    var second := OriginalKey + Escape(original) + BodyClose;
    var first := Escape(short) + "\"" + second;
    Regroup(ShortKey, Escape(short), "\"", OriginalKey, Escape(original), BodyClose);
    AfterPrefix(ShortKey, first);
    ReadEscaped(short, second);
    assert BodyClose == "\"" + "}";
    Regroup3(OriginalKey, Escape(original), "\"", "}");
    AfterPrefix(OriginalKey, Escape(original) + "\"" + "}");
    ReadEscaped(original, "}");
  }

  lemma Regroup(k: string, x: string, q: string, l: string, y: string, c: string)
    ensures k + x + q + l + y + c == k + (x + q + (l + y + c))
  {
  }

  lemma KeysPrintable()
    ensures Printable(ShortKey) && Printable("\"") && Printable(OriginalKey) && Printable(BodyClose)
  {
  }

  /** The success body's shape, over abstract pieces to keep the literals out. */
  lemma BodyShape(k: string, x: string, q: string, l: string, y: string, c: string)
    requires Printable(k) && Printable(x) && Printable(q) && Printable(l) && Printable(y) && Printable(c)
    ensures Printable(k + x + q + l + y + c)
    ensures StartsWith(k + x + q + l + y + c, k)
    ensures |k + x + q + l + y + c| == |k| + |x| + |q| + |l| + |y| + |c|
    ensures (k + x + q + l + y + c)[|k|..|k| + |x|] == x
    ensures (k + x + q + l + y + c)[|k + x + q + l|..|k + x + q + l| + |y|] == y
  {
    PrintableJoin(k, x);
    PrintableJoin(k + x, q);
    PrintableJoin(k + x + q, l);
    PrintableJoin(k + x + q + l, y);
    PrintableJoin(k + x + q + l + y, c);
    AfterPrefix(k, x + q + l + y + c);
    assert k + x + q + l + y + c == k + (x + q + l + y + c);
    assert k + x + q + l + y + c == k + x + (q + l + y + c);
    Middle(k, x, q + l + y + c);
    Middle(k + x + q + l, y, c);
  }

  lemma Regroup3(k: string, x: string, q: string, c: string)
    ensures k + x + (q + c) == k + (x + q + c)
  {
  }

  lemma AfterPrefix(k: string, s: string)
    ensures StartsWith(k + s, k) && (k + s)[|k|..] == s
  {
    assert (k + s)[..|k|] == k;
    assert forall i :: 0 <= i < |s| ==> (k + s)[|k|..][i] == s[i];
  }
}
