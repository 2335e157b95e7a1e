/**
 * The Chrome runtime-port codec of `src/browser/chrome-port-websocket.ts`: a JSON-only port carries
 * text, base64 (section 4 of RFC 4648) and close frames. `Btoa` and `Atob` are the platform's two
 * functions; `Atob` is forgiving, so the parser re-encodes to refuse every non-canonical string.
 */
module ChromeFrames {
  import opened Prelude

  newtype Byte = x: int | 0 <= x < 256
  newtype Sextet = x: int | 0 <= x < 64

  // ---- The alphabet ----

  function Symbol(n: Sextet): char {
    var i := n as int;
    if i < 26 then (i + 65) as char
    else if i < 52 then (i - 26 + 97) as char
    else if i < 62 then (i - 52 + 48) as char
    else if i == 62 then '+' else '/'
  }

  function SextetOf(c: char): Option<Sextet> {
    if 'A' <= c <= 'Z' then Some((c as int - 65) as Sextet)
    else if 'a' <= c <= 'z' then Some((c as int - 97 + 26) as Sextet)
    else if '0' <= c <= '9' then Some((c as int - 48 + 52) as Sextet)
    else if c == '+' then Some(62)
    else if c == '/' then Some(63)
    else None
  }

  predicate Whitespace(c: char) {
    c == '\t' || c == '\n' || c as int == 12 || c == '\r' || c == ' '
  }

  // ---- btoa and atob ----

  // The four 6-bit groups of three bytes, most significant first.
  function First(x: Byte): Sextet { (x as int / 4) as Sextet }
  function Second(x: Byte, y: Byte): Sextet { (x as int % 4 * 16 + y as int / 16) as Sextet }
  function Third(y: Byte, z: Byte): Sextet { (y as int % 16 * 4 + z as int / 64) as Sextet }
  function Fourth(z: Byte): Sextet { (z as int % 64) as Sextet }

  /** The symbols for `bytes`, before padding: three bytes to four symbols, missing bits zero. */
  function Symbols(bytes: seq<Byte>): string {
    if |bytes| == 0 then []
    else if |bytes| == 1 then [Symbol(First(bytes[0])), Symbol(Second(bytes[0], 0))]
    else if |bytes| == 2 then
      [Symbol(First(bytes[0])), Symbol(Second(bytes[0], bytes[1])), Symbol(Third(bytes[1], 0))]
    else Quad(bytes[0], bytes[1], bytes[2]) + Symbols(bytes[3..])
  }

  function Quad(x: Byte, y: Byte, z: Byte): string {
    [Symbol(First(x)), Symbol(Second(x, y)), Symbol(Third(y, z)), Symbol(Fourth(z))]
  }

  function Padding(length: nat): string {
    match length % 3
    case 0 => ""
    case 1 => "=="
    case 2 => "="
  }

  function Base64(bytes: seq<Byte>): string {
    Symbols(bytes) + Padding(|bytes|)
  }

  // The three bytes of four 6-bit groups.
  function ByteOne(w: Sextet, x: Sextet): Byte { (w as int * 4 + x as int / 16) as Byte }
  function ByteTwo(x: Sextet, y: Sextet): Byte { (x as int % 16 * 16 + y as int / 4) as Byte }
  function ByteThree(y: Sextet, z: Sextet): Byte { (y as int % 4 * 64 + z as int) as Byte }

  /** The bytes of a string of symbols; `Atob` refuses a lone last one, which would give none. */
  function Bytes(symbols: seq<Sextet>): seq<Byte> {
    if |symbols| <= 1 then []
    else if |symbols| == 2 then [ByteOne(symbols[0], symbols[1])]
    else if |symbols| == 3 then [ByteOne(symbols[0], symbols[1]), ByteTwo(symbols[1], symbols[2])]
    else Triple(symbols[0], symbols[1], symbols[2], symbols[3]) + Bytes(symbols[4..])
  }

  function Triple(w: Sextet, x: Sextet, y: Sextet, z: Sextet): seq<Byte> {
    [ByteOne(w, x), ByteTwo(x, y), ByteThree(y, z)]
  }

  function CharOf(b: Byte): char {
    (b as int) as char
  }

  /** A binary string: one character for each byte. */
  function BinaryString(bytes: seq<Byte>): (s: string)
    ensures |s| == |bytes| && forall i :: 0 <= i < |s| ==> s[i] == CharOf(bytes[i])
  {
    seq(|bytes|, i requires 0 <= i < |bytes| => CharOf(bytes[i]))
  }

  predicate Latin1(s: string) {
    forall i :: 0 <= i < |s| ==> s[i] as int < 256
  }

  /** `Uint8Array.from(s, c => c.charCodeAt(0))` on a string `Atob` returned. */
  function CharCodes(s: string): (bytes: seq<Byte>)
    requires Latin1(s)
    ensures BinaryString(bytes) == s
  {
    seq(|s|, i requires 0 <= i < |s| => s[i] as int as Byte)
  }

  function Btoa(s: string): Result<string> {
    if Latin1(s) then Ok(Base64(CharCodes(s))) else Threw
  }

  function StripWhitespace(s: string): string {
    if s == [] then []
    else (if Whitespace(s[0]) then [] else [s[0]]) + StripWhitespace(s[1..])
  }

  function DropPadding(s: string): string {
    if |s| % 4 != 0 then s
    else if |s| >= 2 && s[|s| - 1] == '=' && s[|s| - 2] == '=' then s[..|s| - 2]
    else if |s| >= 1 && s[|s| - 1] == '=' then s[..|s| - 1]
    else s
  }

  predicate AllSymbols(s: string) {
    forall i :: 0 <= i < |s| ==> SextetOf(s[i]).Some?
  }

  function Sextets(s: string): (r: seq<Sextet>)
    requires AllSymbols(s)
    ensures |r| == |s|
  {
    seq(|s|, i requires 0 <= i < |s| => SextetOf(s[i]).value)
  }

  function Atob(s: string): Result<string> {
    var kept := DropPadding(StripWhitespace(s));
    if |kept| % 4 == 1 || !AllSymbols(kept) then Threw
    else Ok(BinaryString(Bytes(Sextets(kept))))
  }

  lemma SymbolRoundTrip(n: Sextet)
    ensures SextetOf(Symbol(n)) == Some(n) && !Whitespace(Symbol(n)) && Symbol(n) != '='
  {
  }

  predicate CleanSymbol(c: char) {
    SextetOf(c).Some? && !Whitespace(c) && c != '='
  }

  predicate Clean(s: string) {
    forall i :: 0 <= i < |s| ==> CleanSymbol(s[i])
  }

  lemma QuadIsClean(x: Byte, y: Byte, z: Byte)
    ensures Clean(Quad(x, y, z))
  {
    SymbolRoundTrip(First(x));
    SymbolRoundTrip(Second(x, y));
    SymbolRoundTrip(Third(y, z));
    SymbolRoundTrip(Fourth(z));
  }

  lemma CleanConcat(a: string, b: string)
    requires Clean(a) && Clean(b)
    ensures Clean(a + b)
  {
  }

  lemma CleanPrefix(a: string, length: nat)
    requires Clean(a) && length <= |a|
    ensures Clean(a[..length])
  {
  }

  lemma {:induction false} SymbolsAreClean(bytes: seq<Byte>)
    ensures Clean(Symbols(bytes))
  {
    if |bytes| == 1 {
      QuadIsClean(bytes[0], 0, 0);
      CleanPrefix(Quad(bytes[0], 0, 0), 2);
      assert Symbols(bytes) == Quad(bytes[0], 0, 0)[..2];
    } else if |bytes| == 2 {
      QuadIsClean(bytes[0], bytes[1], 0);
      CleanPrefix(Quad(bytes[0], bytes[1], 0), 3);
      assert Symbols(bytes) == Quad(bytes[0], bytes[1], 0)[..3];
    } else if |bytes| >= 3 {
      QuadIsClean(bytes[0], bytes[1], bytes[2]);
      SymbolsAreClean(bytes[3..]);
      CleanConcat(Quad(bytes[0], bytes[1], bytes[2]), Symbols(bytes[3..]));
    }
  }

  function SymbolCount(length: nat): nat {
    if length < 3 then [0, 2, 3][length] else 4 + SymbolCount(length - 3)
  }

  lemma AddFour(n: int)
    ensures (n + 4) % 4 == n % 4
  {
  }

  lemma PaddingRepeats(length: nat)
    requires length >= 3
    ensures Padding(length) == Padding(length - 3)
  {
    assert length % 3 == (length - 3) % 3;
  }

  lemma {:induction false} PaddedCount(length: nat)
    ensures (SymbolCount(length) + |Padding(length)|) % 4 == 0 && SymbolCount(length) % 4 != 1
  {
    if length >= 3 {
      PaddedCount(length - 3);
      PaddingRepeats(length);
      hide Padding;
      AddFour(SymbolCount(length - 3) + |Padding(length)|);
      AddFour(SymbolCount(length - 3));
    } else {
      SmallCounts(length);
    }
  }

  lemma SmallCounts(length: nat)
    requires length < 3
    ensures (SymbolCount(length) + |Padding(length)|) % 4 == 0 && SymbolCount(length) % 4 != 1
  {
    assert length == 0 || length == 1 || length == 2;
  }

  lemma {:induction false} SymbolsCounted(bytes: seq<Byte>)
    ensures |Symbols(bytes)| == SymbolCount(|bytes|)
  {
    if |bytes| >= 3 { SymbolsCounted(bytes[3..]); }
  }

  lemma SymbolsLength(bytes: seq<Byte>)
    ensures (|Symbols(bytes)| + |Padding(|bytes|)|) % 4 == 0
    ensures |Symbols(bytes)| % 4 != 1
  {
    hide Symbols, Padding, SymbolCount;
    SymbolsCounted(bytes);
    PaddedCount(|bytes|);
  }

  lemma {:induction false} NothingToStrip(s: string)
    requires forall i :: 0 <= i < |s| ==> !Whitespace(s[i])
    ensures StripWhitespace(s) == s
  {
    if s != [] { NothingToStrip(s[1..]); }
  }

  lemma GroupsRoundTrip(x: Byte, y: Byte, z: Byte)
    ensures ByteOne(First(x), Second(x, y)) == x
    ensures ByteTwo(Second(x, y), Third(y, z)) == y
    ensures ByteThree(Third(y, z), Fourth(z)) == z
  {
  }

  lemma CleanSymbols(s: string)
    requires Clean(s)
    ensures AllSymbols(s)
  {
  }

  lemma BytesOfPair(x: Byte)
    ensures AllSymbols(Symbols([x])) && Bytes(Sextets(Symbols([x]))) == [x]
  {
    SymbolRoundTrip(First(x));
    SymbolRoundTrip(Second(x, 0));
    var symbols := Symbols([x]);
    assert symbols == [Symbol(First(x)), Symbol(Second(x, 0))];
    var groups := Sextets(symbols);
    assert groups[0] == First(x) && groups[1] == Second(x, 0);
    assert ByteOne(groups[0], groups[1]) == x by { GroupsRoundTrip(x, 0, 0); }
  }

  lemma BytesOfTriple(x: Byte, y: Byte)
    ensures AllSymbols(Symbols([x, y])) && Bytes(Sextets(Symbols([x, y]))) == [x, y]
  {
    SymbolRoundTrip(First(x));
    SymbolRoundTrip(Second(x, y));
    SymbolRoundTrip(Third(y, 0));
    var symbols := Symbols([x, y]);
    assert symbols == [Symbol(First(x)), Symbol(Second(x, y)), Symbol(Third(y, 0))];
    var groups := Sextets(symbols);
    assert groups[0] == First(x) && groups[1] == Second(x, y) && groups[2] == Third(y, 0);
    assert ByteOne(groups[0], groups[1]) == x && ByteTwo(groups[1], groups[2]) == y by { GroupsRoundTrip(x, y, 0); }
  }

  lemma {:induction false} BytesOfSymbols(bytes: seq<Byte>)
    ensures AllSymbols(Symbols(bytes)) && |Symbols(bytes)| % 4 != 1
    ensures Bytes(Sextets(Symbols(bytes))) == bytes
    decreases |bytes|, 1
  {
    SymbolsAreClean(bytes);
    CleanSymbols(Symbols(bytes));
    SymbolsLength(bytes);
    if |bytes| == 1 {
      assert bytes == [bytes[0]];
      BytesOfPair(bytes[0]);
    } else if |bytes| == 2 {
      assert bytes == [bytes[0], bytes[1]];
      BytesOfTriple(bytes[0], bytes[1]);
    } else if |bytes| >= 3 {
      BytesOfQuad(bytes);
    }
  }

  /** Four symbols before the rest read as their three bytes before those of the rest. */
  lemma QuadBytes(x: Byte, y: Byte, z: Byte, rest: string)
    requires AllSymbols(rest)
    ensures AllSymbols(Quad(x, y, z) + rest)
    ensures Bytes(Sextets(Quad(x, y, z) + rest)) == [x, y, z] + Bytes(Sextets(rest))
  {
    hide Symbol, SextetOf, First, Second, Third, Fourth, ByteOne, ByteTwo, ByteThree;
    GroupsRoundTrip(x, y, z);
    SymbolRoundTrip(First(x));
    SymbolRoundTrip(Second(x, y));
    SymbolRoundTrip(Third(y, z));
    SymbolRoundTrip(Fourth(z));
    var all := Sextets(Quad(x, y, z) + rest);
    assert all[4..] == Sextets(rest);
    assert all[0] == First(x) && all[1] == Second(x, y) && all[2] == Third(y, z) && all[3] == Fourth(z);
    hide Sextets, Quad;
    assert Bytes(all) == Triple(all[0], all[1], all[2], all[3]) + Bytes(all[4..]);
  }

  lemma {:induction false} BytesOfQuad(bytes: seq<Byte>)
    requires |bytes| >= 3 && AllSymbols(Symbols(bytes)) && |Symbols(bytes)| % 4 != 1
    ensures Bytes(Sextets(Symbols(bytes))) == bytes
    decreases |bytes|, 0
  {
    hide Quad, Bytes, Sextets, AllSymbols;
    var rest := bytes[3..];
    BytesOfSymbols(rest);
    QuadBytes(bytes[0], bytes[1], bytes[2], Symbols(rest));
    assert Symbols(bytes) == Quad(bytes[0], bytes[1], bytes[2]) + Symbols(rest);
    assert bytes == [bytes[0], bytes[1], bytes[2]] + rest;
  }

  lemma PaddingDrops(symbols: string, padding: string)
    requires Clean(symbols) && padding in {"", "=", "=="}
    requires (|symbols| + |padding|) % 4 == 0
    ensures DropPadding(symbols + padding) == symbols
  {
    var text := symbols + padding;
    assert text[..|symbols|] == symbols;
    if |symbols| > 0 {
      assert CleanSymbol(symbols[|symbols| - 1]);
      assert text[|symbols| - 1] != '=';
    }
  }

  lemma PaddedIsNotStripped(symbols: string, padding: string)
    requires Clean(symbols) && padding in {"", "=", "=="}
    ensures StripWhitespace(symbols + padding) == symbols + padding
  {
    var text := symbols + padding;
    forall i | 0 <= i < |text| ensures !Whitespace(text[i]) {
      assert i < |symbols| ==> CleanSymbol(symbols[i]);
    }
    NothingToStrip(text);
  }

  /** Decoding an encoding gives back the string, so the encoding loses nothing. */
  lemma AtobBtoa(bytes: seq<Byte>)
    ensures Atob(Base64(bytes)) == Ok(BinaryString(bytes))
  {
    SymbolsAreClean(bytes);
    SymbolsLength(bytes);
    PaddingDrops(Symbols(bytes), Padding(|bytes|));
    PaddedIsNotStripped(Symbols(bytes), Padding(|bytes|));
    BytesOfSymbols(bytes);
  }

  // ---- Binary envelopes ----

  const CHUNK := 0x8000

  /** Builds the binary string in chunks, because spreading a large array into one call overflows the stack. */
  method EncodeBinary(bytes: seq<Byte>) returns (value: string)
    ensures value == Base64(bytes)
  {
    var binary := "";
    var offset := 0;
    while offset < |bytes|
      invariant 0 <= offset
      invariant binary == BinaryString(bytes[..if offset < |bytes| then offset else |bytes|])
    {
      var stop := if offset + CHUNK < |bytes| then offset + CHUNK else |bytes|;
      binary := binary + BinaryString(bytes[offset..stop]);
      offset := offset + CHUNK;
    }
    assert bytes[..|bytes|] == bytes;
    CharCodesOfBinary(bytes);
    var encoded := Btoa(binary);
    value := encoded.value;
  }

  lemma CharCodesOfBinary(bytes: seq<Byte>)
    ensures Latin1(BinaryString(bytes)) && CharCodes(BinaryString(bytes)) == bytes
  {
    var s := BinaryString(bytes);
    assert forall i :: 0 <= i < |s| ==> CharOf(bytes[i]) as int == bytes[i] as int;
  }

  /** `DecodeBinary` is only reached with a value the parser accepted, so `Atob` does not throw. */
  function DecodeBinary(value: string): Result<seq<Byte>> {
    match Atob(value)
    case Ok(s) => if Latin1(s) then Ok(CharCodes(s)) else Threw
    case Threw => Threw
  }

  lemma AtobIsLatin1(value: string)
    ensures Atob(value).Ok? ==> Latin1(Atob(value).value)
  {
    if Atob(value).Ok? {
      var kept := DropPadding(StripWhitespace(value));
      CharCodesOfBinary(Bytes(Sextets(kept)));
    }
  }

  /** Decoding throws on exactly the strings `Atob` throws on. */
  lemma DecodeThrowsWithAtob(value: string)
    ensures DecodeBinary(value).Threw? <==> Atob(value).Threw?
  {
    AtobIsLatin1(value);
  }

  lemma DecodeEncoded(bytes: seq<Byte>)
    ensures DecodeBinary(Base64(bytes)) == Ok(bytes)
  {
    AtobBtoa(bytes);
    CharCodesOfBinary(bytes);
  }

  // ---- Frames ----

  /** A value as `runtime.Port` delivers it. Arrays are objects whose keys are never these names. */
  datatype JsValue =
    | Undefined | Null | Boolean(b: bool) | Number(n: JsNumber) | String(s: string)
    | Object(fields: map<string, JsValue>)

  /** A message of the socket wire contract; the type checker allows any number as a close code. */
  datatype WireMessage = Text(data: string) | Binary(bytes: seq<Byte>) | Close(code: JsNumber, reason: string)

  datatype Frame = TextFrame(data: string) | BinaryFrame(value: string)
    | CloseFrame(code: JsNumber, reason: string) | Ping | Pong

  function Field(value: JsValue, name: string): JsValue {
    if value.Object? && name in value.fields then value.fields[name] else Undefined
  }

  predicate WireCode(n: JsNumber) {
    n.Integer() && 0.0 <= n.value <= 65535.0
  }

  /** The object `post` sends for a message; `base64` is the result of `EncodeBinary`. */
  function EncodeFrame(message: WireMessage): JsValue {
    match message
    case Text(data) => Object(map["type" := String("message"), "data" := String(data)])
    case Binary(bytes) =>
      var envelope := Object(map["encoding" := String("base64"), "value" := String(Base64(bytes))]);
      Object(map["type" := String("message"), "data" := envelope])
    case Close(code, reason) =>
      Object(map["type" := String("close"), "code" := Number(code), "reason" := String(reason)])
  }

  predicate Canonical(value: string) {
    Atob(value).Ok? && Btoa(Atob(value).value) == Ok(value)
  }

  function ParseFrame(value: JsValue): Option<Frame> {
    if !value.Object? then None
    else
      var type_ := Field(value, "type");
      var keys := |value.fields|;
      if type_ == String("ping") && keys == 1 then Some(Ping)
      else if type_ == String("pong") && keys == 1 then Some(Pong)
      else if
        && type_ == String("close") && keys == 3
        && Field(value, "code").Number? && WireCode(Field(value, "code").n)
        && Field(value, "reason").String?
      then Some(CloseFrame(Field(value, "code").n, Field(value, "reason").s))
      else if type_ != String("message") || keys != 2 then None
      else
        var data := Field(value, "data");
        if data.String? then Some(TextFrame(data.s))
        else if !data.Object? then None
        else if |data.fields| != 2 || Field(data, "encoding") != String("base64") || !Field(data, "value").String? then None
        else
          var encoded := Field(data, "value").s;
          if Canonical(encoded) then Some(BinaryFrame(encoded)) else None
  }

  /** What the receiving side hands on for a parsed frame; pings and pongs stop here. */
  function Delivered(frame: Frame): Option<WireMessage> {
    match frame
    case TextFrame(data) => Some(Text(data))
    case BinaryFrame(value) =>
      (match DecodeBinary(value) case Ok(bytes) => Some(Binary(bytes)) case Threw => None)
    case CloseFrame(code, reason) => Some(Close(code, reason))
    case Ping => None
    case Pong => None
  }

  function Received(value: JsValue): Option<WireMessage> {
    match ParseFrame(value) case Some(frame) => Delivered(frame) case None => None
  }

  /** The strings the parser accepts are exactly the encodings. */
  lemma CanonicalIsEncoding(value: string)
    ensures Canonical(value) <==> exists bytes :: value == Base64(bytes)
  {
    if Canonical(value) {
      assert value == Base64(CharCodes(Atob(value).value));
    }
    if exists bytes :: value == Base64(bytes) {
      var bytes :| value == Base64(bytes);
      AtobBtoa(bytes);
      CharCodesOfBinary(bytes);
    }
  }

  /** Each byte sequence has one accepted wire string, and each accepted string carries one byte sequence. */
  lemma OneWireFormPerByteSequence(value: string, bytes: seq<Byte>)
    ensures Canonical(value) && DecodeBinary(value) == Ok(bytes) <==> value == Base64(bytes)
  {
    CanonicalIsEncoding(value);
    DecodeEncoded(bytes);
    if Canonical(value) {
      var original :| value == Base64(original);
      DecodeEncoded(original);
    }
  }

  /** An accepted binary frame always decodes: `DecodeBinary` cannot throw behind the parser. */
  lemma ParsedBinaryDecodes(value: JsValue)
    requires ParseFrame(value).Some? && ParseFrame(value).value.BinaryFrame?
    ensures Received(value).Some?
  {
    CanonicalIsEncoding(ParseFrame(value).value.value);
    var bytes :| ParseFrame(value).value.value == Base64(bytes);
    DecodeEncoded(bytes);
  }

  /** The parser takes a binary envelope around a canonical string, and no other. */
  lemma EnvelopeParses(text: string)
    ensures var envelope := Object(map["encoding" := String("base64"), "value" := String(text)]);
      ParseFrame(Object(map["type" := String("message"), "data" := envelope]))
      == if Canonical(text) then Some(BinaryFrame(text)) else None
  {
    hide Canonical;
    var envelope := Object(map["encoding" := String("base64"), "value" := String(text)]);
    var value := Object(map["type" := String("message"), "data" := envelope]);
    assert value.fields.Keys == {"type", "data"} && envelope.fields.Keys == {"encoding", "value"};
    assert Field(value, "type") == String("message") && Field(value, "data") == envelope;
    assert Field(envelope, "encoding") == String("base64") && Field(envelope, "value") == String(text);
  }

  lemma BinaryRoundTrip(bytes: seq<Byte>)
    ensures Received(EncodeFrame(Binary(bytes))) == Some(Binary(bytes))
  {
    hide Base64, DecodeBinary, Canonical, ParseFrame;
    CanonicalIsEncoding(Base64(bytes));
    DecodeEncoded(bytes);
    EnvelopeParses(Base64(bytes));
  }

  lemma CloseRoundTrip(code: JsNumber, reason: string)
    ensures Received(EncodeFrame(Close(code, reason))) == if WireCode(code) then Some(Close(code, reason)) else None
  {
    assert EncodeFrame(Close(code, reason)).fields.Keys == {"type", "code", "reason"};
  }

  /** A message survives the port, except a close whose code is not an unsigned 16-bit integer. */
  lemma FrameRoundTrip(message: WireMessage)
    ensures Received(EncodeFrame(message)) == Some(message) <==> (message.Close? ==> WireCode(message.code))
    ensures Received(EncodeFrame(message)) == None <==> message.Close? && !WireCode(message.code)
  {
    match message
    case Text(data) => assert EncodeFrame(message).fields.Keys == {"type", "data"};
    case Binary(bytes) => BinaryRoundTrip(bytes);
    case Close(code, reason) => CloseRoundTrip(code, reason);
  }

  /** The smallest witness: a peer that closes with code 65536 has its close refused as malformed. */
  lemma OversizedCloseIsRefused(reason: string)
    ensures ParseFrame(EncodeFrame(Close(Finite(65536.0), reason))) == None
  {
    FrameRoundTrip(Close(Finite(65536.0), reason));
  }
}
