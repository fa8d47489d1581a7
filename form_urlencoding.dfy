/**
 * The `application/x-www-form-urlencoded` serialisation that Python's
 * `urllib.parse.urlencode` produces with its default `quote_plus`, and the
 * parsing (`unquote_plus`, `parse_qsl`) that inverts it.
 *
 * A byte that encodes an RFC 3986 section 2.3 unreserved character passes
 * through, the space byte becomes `+`, and every other byte becomes a `%HH`
 * triple with upper-case hex digits (RFC 3986 section 2.1).
 */
module FormUrlEncoding {
  import opened Wrappers
  import opened Utf8
  import Text

  /** RFC 3986 section 2.3: ALPHA / DIGIT / "-" / "." / "_" / "~". */
  predicate IsUnreserved(c: char)
  {
    'A' <= c <= 'Z' || 'a' <= c <= 'z' || '0' <= c <= '9' || c == '-' || c == '.' || c == '_' || c == '~'
  }

  function HexDigit(d: int): (c: char)
    requires 0 <= d < 16
  {
    if d < 10 then ('0' as int + d) as char else ('A' as int + d - 10) as char
  }

  predicate IsHex(c: char)
  {
    '0' <= c <= '9' || 'A' <= c <= 'F' || 'a' <= c <= 'f'
  }

  function HexValue(c: char): (d: int)
    requires IsHex(c)
    ensures 0 <= d < 16
  {
    if c <= '9' then c as int - '0' as int
    else if c <= 'F' then c as int - 'A' as int + 10
    else c as int - 'a' as int + 10
  }

  /** How `quote_plus` writes one byte of the UTF-8 encoding. */
  function QuoteByte(b: Byte): string
  {
    if b < 0x80 && IsUnreserved(b as char) then [b as char]
    else if b == 0x20 then "+"
    else ['%', HexDigit(b / 16), HexDigit(b % 16)]
  }

  /** Only unreserved characters, `+` and `%`: never a raw `&`, `=`, `?`, `#` or space. */
  predicate InQuotedAlphabet(c: char)
  {
    IsUnreserved(c) || c == '+' || c == '%'
  }

  function QuoteBytes(bs: seq<Byte>): (r: string)
    ensures forall i :: 0 <= i < |r| ==> InQuotedAlphabet(r[i])
  {
    if |bs| == 0 then "" else QuoteByte(bs[0]) + QuoteBytes(bs[1..])
  }

  /** `urllib.parse.quote_plus(s)`: safe characters none beyond the unreserved set, encoding UTF-8. */
  function QuotePlus(s: string): string
  {
    QuoteBytes(Encode(s))
  }

  /** Text made only of unreserved characters is its own encoding. */
  lemma {:induction false} QuotePlusUnreserved(s: string)
    requires forall i :: 0 <= i < |s| ==> IsUnreserved(s[i])
    ensures QuotePlus(s) == s
  {
    if |s| > 0 {
      var n := s[0] as int;
      assert EncodeChar(s[0]) == [n];
      assert Encode(s) == [n] + Encode(s[1..]);
      assert ([n] + Encode(s[1..]))[1..] == Encode(s[1..]);
      assert n as char == s[0];
      QuotePlusUnreserved(s[1..]);
      assert [s[0]] + s[1..] == s;
    }
  }

  /** The percent-encoded shape: unreserved characters, `+`, and `%HH` triples with upper-case hex. */
  predicate WellQuoted(s: string)
    decreases |s|
  {
    if |s| == 0 then true
    else if IsUnreserved(s[0]) || s[0] == '+' then WellQuoted(s[1..])
    else s[0] == '%' && |s| >= 3 && IsHex(s[1]) && IsHex(s[2]) && !('a' <= s[1] <= 'f') && !('a' <= s[2] <= 'f')
         && WellQuoted(s[3..])
  }

  lemma {:induction false} QuoteBytesWellQuoted(bs: seq<Byte>)
    ensures WellQuoted(QuoteBytes(bs))
  {
    if |bs| > 0 {
      var head, tail := QuoteByte(bs[0]), QuoteBytes(bs[1..]);
      QuoteBytesWellQuoted(bs[1..]);
      var s := head + tail;
      assert s[|head|..] == tail;
    }
  }

  /** The `name=value` fields `urlencode` joins with `&`. */
  function Fields(pairs: seq<(string, string)>): (r: seq<string>)
    ensures |r| == |pairs|
  {
    if |pairs| == 0 then [] else [QuotePlus(pairs[0].0) + "=" + QuotePlus(pairs[0].1)] + Fields(pairs[1..])
  }

  /** `urllib.parse.urlencode(pairs)` for string keys and values, in the pairs' order. */
  function UrlEncode(pairs: seq<(string, string)>): string
  {
    Text.Join(Fields(pairs), "&")
  }

  /** The bytes `unquote_plus` reads: `+` is a space, a valid `%HH` is one byte, any other character its own UTF-8. */
  function UnquoteBytes(s: string): seq<Byte>
    decreases |s|
  {
    if |s| == 0 then []
    else if s[0] == '+' then [0x20] + UnquoteBytes(s[1..])
    else if s[0] == '%' && |s| >= 3 && IsHex(s[1]) && IsHex(s[2]) then
      [HexValue(s[1]) * 16 + HexValue(s[2])] + UnquoteBytes(s[3..])
    else EncodeChar(s[0]) + UnquoteBytes(s[1..])
  }

  /** `urllib.parse.unquote_plus(s)`, decoding strictly: None where Python would substitute U+FFFD. */
  function UnquotePlus(s: string): Option<string>
  {
    Decode(UnquoteBytes(s))
  }

  lemma UnquoteQuoteByte(b: Byte, rest: string)
    ensures UnquoteBytes(QuoteByte(b) + rest) == [b] + UnquoteBytes(rest)
  {
    var s := QuoteByte(b) + rest;
    if b < 0x80 && IsUnreserved(b as char) {
      assert s[1..] == rest;
    } else if b == 0x20 {
      assert s[1..] == rest;
    } else {
      assert s[3..] == rest;
      assert HexValue(HexDigit(b / 16)) == b / 16;
      assert HexValue(HexDigit(b % 16)) == b % 16;
    }
  }

  lemma {:induction false} UnquoteQuoteBytes(bs: seq<Byte>)
    ensures UnquoteBytes(QuoteBytes(bs)) == bs
  {
    if |bs| > 0 {
      UnquoteQuoteByte(bs[0], QuoteBytes(bs[1..]));
      UnquoteQuoteBytes(bs[1..]);
    }
  }

  /** `unquote_plus` inverts `quote_plus`: the form-encoded text decodes to the original string. */
  lemma UnquotePlusQuotePlus(s: string)
    ensures UnquotePlus(QuotePlus(s)) == Some(s)
  {
    UnquoteQuoteBytes(Encode(s));
    DecodeEncode(s);
  }

  /** Distinct strings have distinct encodings. */
  lemma QuotePlusInjective(s: string, t: string)
    requires QuotePlus(s) == QuotePlus(t)
    ensures s == t
  {
    UnquotePlusQuotePlus(s);
    UnquotePlusQuotePlus(t);
  }

  /** `s.split(c, 1)`: the text before the first `c`, and the rest when there is a `c`. */
  function SplitFirst(s: string, c: char): (r: (string, Option<string>))
    ensures c !in s ==> r == (s, None)
    decreases |s|
  {
    if |s| == 0 then ("", None)
    else if s[0] == c then ("", Some(s[1..]))
    else
      var (before, after) := SplitFirst(s[1..], c);
      assert c !in s ==> [s[0]] + s[1..] == s;
      ([s[0]] + before, after)
  }

  lemma {:induction false} SplitFirstAt(a: string, b: string, c: char)
    requires c !in a
    ensures SplitFirst(a + [c] + b, c) == (a, Some(b))
    decreases |a|
  {
    var s := a + [c] + b;
    if |a| == 0 {
      assert s == [c] + b;
    } else {
      assert s[1..] == a[1..] + [c] + b;
      SplitFirstAt(a[1..], b, c);
      assert [a[0]] + a[1..] == a;
    }
  }

  /** The pairs of `name=value` fields, as `parse_qsl(qs, keep_blank_values=True)` reads them. */
  function ParseFields(fields: seq<string>): Option<seq<(string, string)>>
  {
    if |fields| == 0 then Some([])
    else if fields[0] == "" then ParseFields(fields[1..])
    else
      var (rawName, rawValue) := SplitFirst(fields[0], '=');
      var value := if rawValue.Some? then rawValue.value else "";
      match (UnquotePlus(rawName), UnquotePlus(value), ParseFields(fields[1..]))
      case (Some(n), Some(v), Some(rest)) => Some([(n, v)] + rest)
      case _ => None
  }

  /** `urllib.parse.parse_qsl(qs, keep_blank_values=True)`, with strict UTF-8 decoding. */
  function ParseQsl(qs: string): Option<seq<(string, string)>>
  {
    ParseFields(Text.Split(qs, '&'))
  }

  lemma QuotePlusAvoids(s: string, c: char)
    requires !InQuotedAlphabet(c)
    ensures c !in QuotePlus(s)
  {
  }

  lemma {:induction false} ParseFieldsOfFields(pairs: seq<(string, string)>)
    ensures ParseFields(Fields(pairs)) == Some(pairs)
  {
    if |pairs| > 0 {
      var (k, v) := pairs[0];
      var f := Fields(pairs);
      assert f[1..] == Fields(pairs[1..]);
      QuotePlusAvoids(k, '=');
      SplitFirstAt(QuotePlus(k), QuotePlus(v), '=');
      assert f[0] == QuotePlus(k) + ['='] + QuotePlus(v);
      assert f[0] != "";
      UnquotePlusQuotePlus(k);
      UnquotePlusQuotePlus(v);
      ParseFieldsOfFields(pairs[1..]);
      assert [(k, v)] + pairs[1..] == pairs;
    }
  }

  /**
   * `parse_qsl` inverts `urlencode`: the serialised query yields exactly the
   * pairs it was built from, in order, so no value can inject a parameter.
   */
  lemma {:induction false} ParseQslUrlEncode(pairs: seq<(string, string)>)
    ensures ParseQsl(UrlEncode(pairs)) == Some(pairs)
  {
    var f := Fields(pairs);
    if |pairs| == 0 {
      assert Text.Split("", '&') == [""];
    } else {
      forall k | 0 <= k < |f|
        ensures '&' !in f[k]
      {
        FieldsAvoidAmpersand(pairs, k);
      }
      Text.SplitJoin(f, '&');
      ParseFieldsOfFields(pairs);
    }
  }

  lemma {:induction false} FieldsAvoidAmpersand(pairs: seq<(string, string)>, k: nat)
    requires k < |pairs|
    ensures '&' !in Fields(pairs)[k]
  {
    if k == 0 {
      QuotePlusAvoids(pairs[0].0, '&');
      QuotePlusAvoids(pairs[0].1, '&');
    } else {
      FieldsAvoidAmpersand(pairs[1..], k - 1);
    }
  }
}
