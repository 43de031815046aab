/** Content-Disposition headers for untrusted filenames (app/api/http_headers.py). */
module HttpHeaders {
  import opened Common

  newtype byte = x: int | 0 <= x < 256

  // ---------------------------------------------------------------------------------------------
  // UTF-8
  // ---------------------------------------------------------------------------------------------

  function EncodeChar(c: char): seq<byte> {
    var n := c as int;
    if n < 0x80 then [n as byte]
    else if n < 0x800 then [(0xC0 + n / 64) as byte, (0x80 + n % 64) as byte]
    else if n < 0x10000 then [(0xE0 + n / 4096) as byte, (0x80 + n / 64 % 64) as byte, (0x80 + n % 64) as byte]
    else [(0xF0 + n / 262144) as byte, (0x80 + n / 4096 % 64) as byte, (0x80 + n / 64 % 64) as byte, (0x80 + n % 64) as byte]
  }

  function EncodeUtf8(s: string): seq<byte> {
    if s == "" then [] else EncodeChar(s[0]) + EncodeUtf8(s[1..])
  }

  predicate Continuation(b: byte) { 0x80 <= b < 0xC0 }

  /** A Unicode scalar value that needs at least `least` to justify its length. */
  function Scalar(n: int, least: nat): Option<char> {
    if least <= n < 0xD800 || (0xE000 <= n < 0x110000 && least <= n) then Some(n as char) else None
  }

  function Low(b: byte): int { b as int % 64 }

  /** The first character of a well-formed sequence and its length in bytes; strict about overlong forms. */
  function DecodeChar(b: seq<byte>): Option<(char, nat)> {
    if b == [] then None
    else if b[0] < 0x80 then Some((b[0] as char, 1))
    else if 0xC0 <= b[0] < 0xE0 && |b| >= 2 && Continuation(b[1]) then
      match Scalar((b[0] as int - 0xC0) * 64 + Low(b[1]), 0x80)
      case Some(c) => Some((c, 2))
      case None => None
    else if 0xE0 <= b[0] < 0xF0 && |b| >= 3 && Continuation(b[1]) && Continuation(b[2]) then
      match Scalar((b[0] as int - 0xE0) * 4096 + Low(b[1]) * 64 + Low(b[2]), 0x800)
      case Some(c) => Some((c, 3))
      case None => None
    else if 0xF0 <= b[0] < 0xF8 && |b| >= 4 && Continuation(b[1]) && Continuation(b[2]) && Continuation(b[3]) then
      match Scalar((b[0] as int - 0xF0) * 262144 + Low(b[1]) * 4096 + Low(b[2]) * 64 + Low(b[3]), 0x10000)
      case Some(c) => Some((c, 4))
      case None => None
    else None
  }

  function DecodeUtf8(b: seq<byte>): Option<string>
    decreases |b|
  {
    if b == [] then Some("")
    else
      match DecodeChar(b)
      case None => None
      case Some((c, n)) =>
        if n == 0 || n > |b| then None
        else
          match DecodeUtf8(b[n..])
          case None => None
          case Some(rest) => Some([c] + rest)
  }

  lemma LowBits(b: byte, n: int)
    requires 0 <= n < 64 && b as int == 0x80 + n
    ensures Continuation(b) && Low(b) == n
  {}

  lemma Digits(n: int)
    requires 0 <= n
    ensures n == n / 64 * 64 + n % 64
    ensures n == n / 4096 * 4096 + n / 64 % 64 * 64 + n % 64
    ensures n == n / 262144 * 262144 + n / 4096 % 64 * 4096 + n / 64 % 64 * 64 + n % 64
  {
    assert n / 64 / 64 == n / 4096;
    assert n / 4096 / 64 == n / 262144;
    assert n / 64 == n / 4096 * 64 + n / 64 % 64;
    assert n / 4096 == n / 262144 * 64 + n / 4096 % 64;
  }

  lemma DecodesItsChar(c: char, rest: seq<byte>)
    ensures DecodeChar(EncodeChar(c) + rest) == Some((c, |EncodeChar(c)|))
  {
    hide Low, Continuation;
    var n, e := c as int, EncodeChar(c);
    var b := e + rest;
    assert forall i :: 0 <= i < |e| ==> b[i] == e[i];
    Digits(n);
    LowBits((0x80 + n % 64) as byte, n % 64);
    if n >= 0x800 { LowBits((0x80 + n / 64 % 64) as byte, n / 64 % 64); }
    if n >= 0x10000 { LowBits((0x80 + n / 4096 % 64) as byte, n / 4096 % 64); }
  }

  lemma {:induction false} Utf8RoundTrip(s: string)
    ensures DecodeUtf8(EncodeUtf8(s)) == Some(s)
  {
    if s != "" {
      hide DecodeChar;
      Utf8RoundTrip(s[1..]);
      var first, rest := EncodeChar(s[0]), EncodeUtf8(s[1..]);
      DecodesItsChar(s[0], rest);
      assert EncodeUtf8(s) == first + rest && |first| >= 1;
      assert (first + rest)[|first|..] == rest;
      assert [s[0]] + s[1..] == s;
    }
  }

  // ---------------------------------------------------------------------------------------------
  // Percent-encoding
  // ---------------------------------------------------------------------------------------------

  predicate Alpha(c: char) { 'A' <= c <= 'Z' || 'a' <= c <= 'z' }

  predicate Digit(c: char) { '0' <= c <= '9' }

  /** The characters that `urllib.parse.quote(…, safe="")` leaves alone. */
  predicate Unreserved(c: char) { Alpha(c) || Digit(c) || c in "_.-~" }

  function HexDigit(n: int): char
    requires 0 <= n < 16
  {
    if n < 10 then ('0' as int + n) as char else ('A' as int + n - 10) as char
  }

  function QuoteByte(b: byte): string {
    if b < 0x80 && Unreserved(b as char) then [b as char]
    else ['%', HexDigit(b as int / 16), HexDigit(b as int % 16)]
  }

  function QuoteBytes(bytes: seq<byte>): string {
    if bytes == [] then "" else QuoteByte(bytes[0]) + QuoteBytes(bytes[1..])
  }

  function Quote(s: string): string { QuoteBytes(EncodeUtf8(s)) }

  /** RFC 5987 allows hexadecimal digits of either case. */
  function HexValue(c: char): Option<int> {
    if Digit(c) then Some(c as int - '0' as int)
    else if 'A' <= c <= 'F' then Some(c as int - 'A' as int + 10)
    else if 'a' <= c <= 'f' then Some(c as int - 'a' as int + 10)
    else None
  }

  /** `attr-char` of section 3.2.1 of RFC 5987. */
  predicate AttrChar(c: char) { Alpha(c) || Digit(c) || c in "!#$&+-.^_`|~" }

  /** `value-chars` of section 3.2.1 of RFC 5987. */
  function PercentDecode(s: string): Option<seq<byte>> {
    if s == "" then Some([])
    else if s[0] == '%' then
      if |s| < 3 then None
      else
        match (HexValue(s[1]), HexValue(s[2]), PercentDecode(s[3..]))
        case (Some(h), Some(l), Some(rest)) => Some([(h * 16 + l) as byte] + rest)
        case _ => None
    else if AttrChar(s[0]) then
      match PercentDecode(s[1..])
      case Some(rest) => Some([s[0] as byte] + rest)
      case None => None
    else None
  }

  lemma HexRoundTrip(n: int)
    requires 0 <= n < 16
    ensures HexValue(HexDigit(n)) == Some(n)
  {}

  /** Decoding one quoted byte gives it back, whatever follows. */
  lemma QuotedByteDecodes(b: byte, rest: string)
    ensures PercentDecode(QuoteByte(b) + rest) ==
            match PercentDecode(rest) case Some(bytes) => Some([b] + bytes) case None => None
  {
    hide HexDigit, HexValue;
    var quoted := QuoteByte(b) + rest;
    assert quoted[|QuoteByte(b)|..] == rest;
    if QuoteByte(b)[0] == '%' {
      HexRoundTrip(b as int / 16);
      HexRoundTrip(b as int % 16);
    }
  }

  lemma {:induction false} PercentRoundTrip(bytes: seq<byte>)
    ensures PercentDecode(QuoteBytes(bytes)) == Some(bytes)
  {
    if bytes != [] {
      hide PercentDecode, QuoteByte;
      PercentRoundTrip(bytes[1..]);
      QuotedByteDecodes(bytes[0], QuoteBytes(bytes[1..]));
      assert [bytes[0]] + bytes[1..] == bytes;
    }
  }

  predicate ExtChar(c: char) { AttrChar(c) || c == '%' }

  lemma {:induction false} QuotedChars(bytes: seq<byte>)
    ensures forall c :: c in QuoteBytes(bytes) ==> ExtChar(c)
  {
    if bytes != [] { QuotedChars(bytes[1..]); }
  }

  // ---------------------------------------------------------------------------------------------
  // Building the header
  // ---------------------------------------------------------------------------------------------

  /** Printable ASCII that can neither end a quoted string nor read as a path separator. */
  predicate FallbackChar(c: char) {
    ' ' <= c <= '~' && c != '"' && c != '\\' && c != '/'
  }

  function Filter(s: string, keep: char -> bool): string {
    if s == "" then "" else (if keep(s[0]) then [s[0]] else "") + Filter(s[1..], keep)
  }

  function Fallback(filename: string): string { Filter(filename, FallbackChar) }

  const DROP: set<char> := {'"', '\\', '/'}

  method AsciiFallback(filename: string) returns (out: string)
    ensures out == Fallback(filename)
  {
    out := "";
    var i := 0;
    while i < |filename|
      invariant 0 <= i <= |filename|
      invariant out + Fallback(filename[i..]) == Fallback(filename)
    {
      var ch := filename[i];
      var codepoint := ch as int;
      assert filename[i..][0] == ch && filename[i..][1..] == filename[i + 1..];
      assert out + ([ch] + Fallback(filename[i + 1..])) == (out + [ch]) + Fallback(filename[i + 1..]);
      i := i + 1;
      if codepoint < 0x20 || codepoint == 0x7F { continue; }
      if 0x80 <= codepoint <= 0x9F { continue; }
      if codepoint > 0x9F { continue; }
      if ch in DROP { continue; }
      out := out + [ch];
    }
  }

  lemma {:induction false} FilterKeeps(s: string, keep: char -> bool)
    ensures forall c :: c in Filter(s, keep) <==> c in s && keep(c)
    ensures (forall c :: c in s ==> keep(c)) ==> Filter(s, keep) == s
  {
    if s != "" {
      FilterKeeps(s[1..], keep);
      assert forall c :: c in s <==> c == s[0] || c in s[1..];
    }
  }

  /** The filename of the plain parameter. */
  function AsciiName(filename: Option<string>, fallback: string): string {
    if filename.None? || Fallback(filename.value) == "" then fallback else Fallback(filename.value)
  }

  function SafeContentDispositionHeader(filename: Option<string>, fallback: string, disposition: string): string {
    if filename.None? || filename.value == "" then disposition + "; filename=\"" + fallback + "\""
    else
      disposition + "; filename=\"" + AsciiName(filename, fallback) + "\"; filename*=UTF-8''" + Quote(filename.value)
  }

  // ---------------------------------------------------------------------------------------------
  // An independent reader of the header, after section 4 of RFC 6266 and section 3.2 of RFC 5987
  // ---------------------------------------------------------------------------------------------

  datatype Value = Plain(text: string) | Extended(charset: string, language: string, bytes: seq<byte>)

  datatype Param = Param(name: string, value: Value)

  datatype Disposition = Disposition(kind: string, params: seq<Param>)

  /** `tchar` of RFC 7230. */
  predicate TokenChar(c: char) { Alpha(c) || Digit(c) || c in "!#$%&'*+-.^_`|~" }

  predicate CharsetChar(c: char) { Alpha(c) || Digit(c) || c in "!#$%&+-^_`{}~" }

  predicate LanguageChar(c: char) { Alpha(c) || Digit(c) || c == '-' }

  predicate Space(c: char) { c == ' ' || c == '\t' }

  /** The length of the longest prefix of such characters. */
  function Span(s: string, ok: char -> bool): (n: nat)
    ensures n <= |s|
  {
    if s == "" || !ok(s[0]) then 0 else 1 + Span(s[1..], ok)
  }

  function SkipSpace(s: string): string { s[Span(s, Space)..] }

  /** The rest of a quoted string after its opening quote, and what follows it. */
  function ReadQuoted(s: string): Option<(string, string)> {
    if s == "" then None
    else if s[0] == '"' then Some(("", s[1..]))
    else if s[0] == '\\' && |s| >= 2 && ' ' <= s[1] <= '~' then
      match ReadQuoted(s[2..])
      case Some((text, rest)) => Some(([s[1]] + text, rest))
      case None => None
    else if s[0] != '\\' && (s[0] == '\t' || ' ' <= s[0] <= '~') then
      match ReadQuoted(s[1..])
      case Some((text, rest)) => Some(([s[0]] + text, rest))
      case None => None
    else None
  }

  function ReadValue(s: string): Option<(Value, string)> {
    if s != "" && s[0] == '"' then
      match ReadQuoted(s[1..])
      case Some((text, rest)) => Some((Plain(text), rest))
      case None => None
    else
      var n := Span(s, TokenChar);
      if n == 0 then None else Some((Plain(s[..n]), s[n..]))
  }

  /** `ext-value`: charset, optional language, percent-encoded octets. */
  function ReadExtended(s: string): Option<(Value, string)> {
    var n := Span(s, CharsetChar);
    if n == 0 || n >= |s| || s[n] != '\'' then None
    else
      var s1 := s[n + 1..];
      var m := Span(s1, LanguageChar);
      if m >= |s1| || s1[m] != '\'' then None
      else
        var s2 := s1[m + 1..];
        var k := Span(s2, ExtChar);
        match PercentDecode(s2[..k])
        case Some(bytes) => Some((Extended(s[..n], s1[..m], bytes), s2[k..]))
        case None => None
  }

  /** A name, an equals sign and a value; a name that ends in an asterisk has an extended value. */
  function ReadNamed(s: string): Option<(Param, string)> {
    var n := Span(s, TokenChar);
    if n == 0 || n >= |s| || s[n] != '=' then None
    else
      match (if s[n - 1] == '*' then ReadExtended(s[n + 1..]) else ReadValue(s[n + 1..]))
      case Some((value, rest)) => Some((Param(s[..n], value), rest))
      case None => None
  }

  function ReadParams(s: string): Option<seq<Param>>
    decreases |s|
  {
    if s == "" then Some([])
    else
      var s1 := SkipSpace(s);
      if s1 == "" || s1[0] != ';' then None
      else
        match ReadNamed(SkipSpace(s1[1..]))
        case None => None
        case Some((param, rest)) =>
          if |rest| >= |s| then None
          else
            match ReadParams(rest)
            case Some(params) => Some([param] + params)
            case None => None
  }

  function ReadHeader(s: string): Option<Disposition> {
    var n := Span(s, TokenChar);
    if n == 0 then None
    else
      match ReadParams(s[n..])
      case Some(params) => Some(Disposition(s[..n], params))
      case None => None
  }

  function Find(params: seq<Param>, name: string): Option<Value> {
    if params == [] then None
    else if params[0].name == name then Some(params[0].value)
    else Find(params[1..], name)
  }

  /** The filename a recipient uses: `filename*` when it decodes, else `filename` (section 4.3 of RFC 6266). */
  function ReceivedFilename(d: Disposition): Option<string> {
    var plain := match Find(d.params, "filename")
      case Some(Plain(text)) => Some(text)
      case _ => None;
    match Find(d.params, "filename*")
    case Some(Extended(charset, _, bytes)) =>
      if charset == "UTF-8" && DecodeUtf8(bytes).Some? then DecodeUtf8(bytes) else plain
    case _ => plain
  }

  // ---------------------------------------------------------------------------------------------
  // The round trip
  // ---------------------------------------------------------------------------------------------

  /** What callers promise of the disposition and the fallback label. */
  predicate Token(s: string) { s != "" && forall c :: c in s ==> TokenChar(c) }

  predicate SafeLabel(s: string) { forall c :: c in s ==> ' ' <= c <= '~' && c != '"' && c != '\\' }

  lemma {:induction false} SpanStops(a: string, b: string, ok: char -> bool)
    requires forall c :: c in a ==> ok(c)
    requires b != "" ==> !ok(b[0])
    ensures Span(a + b, ok) == |a|
  {
    if a == "" {
      assert a + b == b;
    } else {
      assert a[0] in a;
      assert (a + b)[1..] == a[1..] + b;
      SpanStops(a[1..], b, ok);
    }
  }

  lemma {:induction false} QuotedReads(text: string, rest: string)
    requires SafeLabel(text)
    ensures ReadQuoted(text + "\"" + rest) == Some((text, rest))
  {
    var s := text + "\"" + rest;
    if text == "" {
      assert s[1..] == rest;
    } else {
      assert text[0] in text && forall c :: c in text[1..] ==> c in text;
      assert s[1..] == text[1..] + "\"" + rest;
      QuotedReads(text[1..], rest);
      assert text == [text[0]] + text[1..];
    }
  }

  lemma AsciiNameIsSafe(filename: Option<string>, fallback: string)
    requires SafeLabel(fallback)
    ensures SafeLabel(AsciiName(filename, fallback))
  {
    if filename.Some? { FilterKeeps(filename.value, FallbackChar); }
  }

  lemma SeparatorSkipped(tail: string)
    requires tail != "" && !Space(tail[0])
    ensures var s := ";" + (" " + tail); SkipSpace(s) == s && SkipSpace(s[1..]) == tail
  {
    var s := ";" + (" " + tail);
    assert s[1..] == " " + tail;
    SpanStops(" ", tail, Space);
    assert (" " + tail)[1..] == tail;
    assert s[0..] == s;
  }

  lemma NamedReads(name: string, rest: string, value: Value, left: string)
    requires Token(name)
    requires (if name[|name| - 1] == '*' then ReadExtended(rest) else ReadValue(rest)) == Some((value, left))
    ensures ReadNamed(name + ("=" + rest)) == Some((Param(name, value), left))
  {
    hide ReadExtended, ReadValue, TokenChar, Span;
    var tail := name + ("=" + rest);
    EqualsIsNoToken();
    SpanStops(name, "=" + rest, TokenChar);
    assert tail[..|name|] == name && tail[|name| + 1..] == rest;
    assert tail[|name|] == '=' && tail[|name| - 1] == name[|name| - 1];
  }

  /** One parameter is read off the front: separator, name, equals sign, value. */
  lemma ParamReads(name: string, rest: string, value: Value, left: string)
    requires Token(name) && |left| < |rest|
    requires (if name[|name| - 1] == '*' then ReadExtended(rest) else ReadValue(rest)) == Some((value, left))
    ensures ReadParams(";" + (" " + (name + ("=" + rest)))) ==
            match ReadParams(left)
            case Some(params) => Some([Param(name, value)] + params)
            case None => None
  {
    hide ReadExtended, ReadValue, TokenChar, Space, SkipSpace, ReadNamed;
    var tail := name + ("=" + rest);
    TokenIsNoSpace(name);
    SeparatorSkipped(tail);
    NamedReads(name, rest, value, left);
  }

  lemma TokenIsNoSpace(name: string)
    requires Token(name)
    ensures !Space(name[0])
  {
    assert name[0] in name;
  }

  lemma EqualsIsNoToken()
    ensures !TokenChar('=')
  {}

  lemma PlainParamReads(text: string, rest: string)
    requires SafeLabel(text)
    ensures ReadParams("; filename=\"" + text + "\"" + rest) ==
            match ReadParams(rest)
            case Some(params) => Some([Param("filename", Plain(text))] + params)
            case None => None
  {
    hide ReadQuoted, ReadParams;
    var quoted := "\"" + (text + "\"" + rest);
    assert quoted[1..] == text + "\"" + rest;
    QuotedReads(text, rest);
    assert ReadValue(quoted) == Some((Plain(text), rest));
    ParamReads("filename", quoted, Plain(text), rest);
    assert "; filename=\"" == ";" + (" " + ("filename" + ("=" + "\"")));
    assert "; filename=\"" + text + "\"" + rest == ";" + (" " + ("filename" + ("=" + quoted)));
  }

  lemma ExtendedParamReads(filename: string)
    ensures ReadParams("; filename*=UTF-8''" + Quote(filename)) ==
            Some([Param("filename*", Extended("UTF-8", "", EncodeUtf8(filename)))])
  {
    hide ReadParams, ReadExtended, Quote;
    var q := Quote(filename);
    var value := "UTF-8" + ("''" + q);
    ExtendedReads(filename);
    ParamReads("filename*", value, Extended("UTF-8", "", EncodeUtf8(filename)), "");
    NoParams();
    var param := Param("filename*", Extended("UTF-8", "", EncodeUtf8(filename)));
    assert [param] + [] == [param];
    ExtendedPrefix(q);
  }

  lemma ExtendedPrefix(q: string)
    ensures "; filename*=UTF-8''" + q == ";" + (" " + ("filename*" + ("=" + ("UTF-8" + ("''" + q)))))
  {
    assert "; filename*=UTF-8''" == ";" + (" " + ("filename*" + ("=" + ("UTF-8" + "''"))));
  }

  lemma ExtendedReads(filename: string)
    ensures ReadExtended("UTF-8" + ("''" + Quote(filename))) == Some((Extended("UTF-8", "", EncodeUtf8(filename)), ""))
  {
    hide PercentDecode, Quote, CharsetChar, LanguageChar, ExtChar;
    var q := Quote(filename);
    var s := "UTF-8" + ("''" + q);
    Utf8Charset(q);
    assert s[..5] == "UTF-8" && s[5] == '\'' && s[6..] == "'" + q;
    assert ("'" + q)[1..] == q && ("'" + q)[..0] == "";
    QuoteReads(filename);
    assert q[..|q|] == q && q[|q|..] == "";
  }

  lemma Utf8Charset(q: string)
    ensures Span("UTF-8" + ("''" + q), CharsetChar) == 5
    ensures Span("'" + q, LanguageChar) == 0
  {
    SpanStops("UTF-8", "''" + q, CharsetChar);
  }

  lemma QuoteReads(filename: string)
    ensures Span(Quote(filename), ExtChar) == |Quote(filename)|
    ensures PercentDecode(Quote(filename)) == Some(EncodeUtf8(filename))
  {
    hide PercentDecode;
    var q := Quote(filename);
    QuotedChars(EncodeUtf8(filename));
    assert q + "" == q;
    SpanStops(q, "", ExtChar);
    PercentRoundTrip(EncodeUtf8(filename));
  }

  /** The whole header is its disposition and its parameters. */
  lemma HeaderReads(disposition: string, tail: string, params: seq<Param>)
    requires Token(disposition) && tail != "" && tail[0] == ';' && ReadParams(tail) == Some(params)
    ensures ReadHeader(disposition + tail) == Some(Disposition(disposition, params))
  {
    hide ReadParams;
    SpanStops(disposition, tail, TokenChar);
    assert (disposition + tail)[|disposition|..] == tail;
    assert (disposition + tail)[..|disposition|] == disposition;
  }

  lemma PlainHeaderReads(fallback: string, disposition: string)
    requires Token(disposition) && SafeLabel(fallback)
    ensures ReadHeader(disposition + "; filename=\"" + fallback + "\"") ==
            Some(Disposition(disposition, [Param("filename", Plain(fallback))]))
  {
    hide ReadParams, ReadHeader;
    var tail := "; filename=\"" + fallback + "\"" + "";
    PlainParamReads(fallback, "");
    NoParams();
    assert [Param("filename", Plain(fallback))] + [] == [Param("filename", Plain(fallback))];
    HeaderReads(disposition, tail, [Param("filename", Plain(fallback))]);
    assert disposition + "; filename=\"" + fallback + "\"" == disposition + tail;
  }

  lemma FullHeaderReads(filename: string, name: string, disposition: string)
    requires Token(disposition) && SafeLabel(name)
    ensures ReadHeader(disposition + "; filename=\"" + name + "\"; filename*=UTF-8''" + Quote(filename)) ==
            Some(Disposition(disposition,
                             [Param("filename", Plain(name)), Param("filename*", Extended("UTF-8", "", EncodeUtf8(filename)))]))
  {
    hide ReadParams, ReadHeader, Quote;
    var ext := "; filename*=UTF-8''" + Quote(filename);
    var tail := "; filename=\"" + name + "\"" + ext;
    PlainParamReads(name, ext);
    ExtendedParamReads(filename);
    var plain, star := Param("filename", Plain(name)), Param("filename*", Extended("UTF-8", "", EncodeUtf8(filename)));
    assert [plain] + [star] == [plain, star];
    HeaderReads(disposition, tail, [plain, star]);
    assert "\"" + "; filename*=UTF-8''" == "\"; filename*=UTF-8''";
    assert disposition + "; filename=\"" + name + "\"; filename*=UTF-8''" + Quote(filename) == disposition + tail;
  }

  lemma FindStar(plain: Value, star: Value)
    ensures Find([Param("filename", plain)], "filename*") == None
    ensures Find([Param("filename", plain), Param("filename*", star)], "filename*") == Some(star)
    ensures Find([Param("filename", plain), Param("filename*", star)], "filename") == Some(plain)
    ensures Find([Param("filename", plain)], "filename") == Some(plain)
  {
    assert |"filename"| != |"filename*"|;
    assert [Param("filename", plain), Param("filename*", star)][1..] == [Param("filename*", star)];
    assert [Param("filename", plain)][1..] == [];
  }

  /**
   * The round trip.  Reading the header back gives the disposition, the separator-free fallback in
   * the plain parameter, and exactly the original filename, whatever Unicode it holds; every filename
   * that is not empty is also sent in the extended parameter.
   */
  lemma HeaderRoundTrip(filename: Option<string>, fallback: string, disposition: string)
    requires Token(disposition) && SafeLabel(fallback)
    ensures var d := ReadHeader(SafeContentDispositionHeader(filename, fallback, disposition));
      && d.Some? && d.value.kind == disposition
      && Find(d.value.params, "filename") ==
         Some(Plain(if filename.Some? && Fallback(filename.value) != "" then Fallback(filename.value) else fallback))
      && (Find(d.value.params, "filename*").Some? <==> filename.Some? && filename.value != "")
      && ReceivedFilename(d.value) ==
         Some(if filename.Some? && filename.value != "" then filename.value else fallback)
  {
    hide ReadHeader, Quote, EncodeUtf8, DecodeUtf8, Find;
    AsciiNameIsSafe(filename, fallback);
    var name := AsciiName(filename, fallback);
    if filename.None? || filename.value == "" {
      PlainHeaderReads(fallback, disposition);
      FindStar(Plain(fallback), Plain(fallback));
      assert name == fallback;
    } else {
      FullHeaderReads(filename.value, name, disposition);
      Utf8RoundTrip(filename.value);
      FindStar(Plain(name), Extended("UTF-8", "", EncodeUtf8(filename.value)));
    }
  }

  lemma NoParams()
    ensures ReadParams("") == Some([])
  {}

  predicate Printable(s: string) { forall c :: c in s ==> ' ' <= c <= '~' }

  lemma PrintableJoins(a: string, b: string)
    requires Printable(a) && Printable(b)
    ensures Printable(a + b)
  {}

  lemma ExtIsPrintable(s: string)
    requires forall c :: c in s ==> ExtChar(c)
    ensures Printable(s)
  {}

  lemma TokenIsPrintable(s: string)
    requires Token(s)
    ensures Printable(s)
  {}

  /** Every character of the header is printable ASCII: no line can be broken, whatever the filename. */
  lemma HeaderIsPrintable(filename: Option<string>, fallback: string, disposition: string)
    requires Token(disposition) && SafeLabel(fallback)
    ensures Printable(SafeContentDispositionHeader(filename, fallback, disposition))
  {
    hide TokenChar, ExtChar, Quote, Fallback;
    var opening := disposition + "; filename=\"";
    TokenIsPrintable(disposition);
    PrintableJoins(disposition, "; filename=\"");
    AsciiNameIsSafe(filename, fallback);
    var name := AsciiName(filename, fallback);
    PrintableJoins(opening, name);
    PrintableJoins(opening, fallback);
    PrintableJoins(opening + fallback, "\"");
    if filename.Some? {
      QuotedPrintable(filename.value);
      PrintableJoins(opening + name, "\"; filename*=UTF-8''");
      PrintableJoins(opening + name + "\"; filename*=UTF-8''", Quote(filename.value));
    }
  }

  lemma QuotedPrintable(filename: string)
    ensures Printable(Quote(filename))
  {
    QuotedChars(EncodeUtf8(filename));
    ExtIsPrintable(Quote(filename));
  }

  /**
   * The plain parameter holds exactly the characters of the filename that are printable ASCII and
   * neither a quote nor a path separator, and it is the filename itself exactly when these are all.
   */
  lemma FallbackIsSeparatorFree(filename: string)
    ensures '/' !in Fallback(filename) && '\\' !in Fallback(filename) && '"' !in Fallback(filename)
    ensures forall c :: c in Fallback(filename) <==> c in filename && 0x20 <= c as int <= 0x7E && c !in "/\\\""
    ensures Fallback(filename) == filename <==>
            forall c :: c in filename ==> 0x20 <= c as int <= 0x7E && c !in "/\\\""
  {
    FilterKeeps(filename, FallbackChar);
    forall c: char ensures FallbackChar(c) <==> 0x20 <= c as int <= 0x7E && c !in "/\\\"" {}
  }

  lemma FilterStep(c: char, rest: string, keep: char -> bool)
    ensures Filter([c] + rest, keep) == (if keep(c) then [c] else "") + Filter(rest, keep)
  {
    assert ([c] + rest)[1..] == rest;
  }

  lemma Regroup(a: string, b: string, c: string)
    ensures a + (b + c) == (a + b) + c
  {}

  lemma {:induction false} FilterAppends(a: string, b: string, keep: char -> bool)
    ensures Filter(a + b, keep) == Filter(a, keep) + Filter(b, keep)
  {
    if a == "" {
      assert a + b == b;
    } else {
      hide Filter;
      var c, rest := a[0], a[1..];
      assert a == [c] + rest;
      FilterAppends(rest, b, keep);
      Regroup([c], rest, b);
      FilterStep(c, rest, keep);
      FilterStep(c, rest + b, keep);
      Regroup(if keep(c) then [c] else "", Filter(rest, keep), Filter(b, keep));
    }
  }

  /** Each character is kept or dropped on its own, in its place and as often as it occurs. */
  lemma FallbackKeepsOrder(before: string, c: char, after: string)
    ensures Fallback(before + [c] + after) ==
            Fallback(before) + (if 0x20 <= c as int <= 0x7E && c !in "/\\\"" then [c] else "") + Fallback(after)
  {
    FilterAppends(before + [c], after, FallbackChar);
    FilterAppends(before, [c], FallbackChar);
    assert [c][1..] == "";
    assert FallbackChar(c) <==> 0x20 <= c as int <= 0x7E && c !in "/\\\"";
  }

  /** Letters, digits and "_.-~" stand for themselves; every other byte is two upper-case digits behind a percent sign. */
  lemma QuotedByte(b: byte)
    ensures QuoteBytes([b]) ==
      if b < 0x80 && ('A' <= b as char <= 'Z' || 'a' <= b as char <= 'z' || '0' <= b as char <= '9' || b as char in "_.-~")
      then [b as char]
      else ['%', "0123456789ABCDEF"[b as int / 16], "0123456789ABCDEF"[b as int % 16]]
  {
    hide HexDigit;
    assert [b][1..] == [];
    DigitText(b as int / 16);
    DigitText(b as int % 16);
  }

  lemma DigitText(n: int)
    requires 0 <= n < 16
    ensures HexDigit(n) == "0123456789ABCDEF"[n]
  {}

  /** Every byte is quoted on its own, in its place. */
  lemma {:induction false} QuotesInOrder(before: seq<byte>, after: seq<byte>)
    ensures QuoteBytes(before + after) == QuoteBytes(before) + QuoteBytes(after)
  {
    if before == [] {
      assert before + after == after;
    } else {
      assert (before + after)[1..] == before[1..] + after;
      QuotesInOrder(before[1..], after);
    }
  }
}
