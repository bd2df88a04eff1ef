// The envelope of an encrypted field: version, initialisation vector, authentication tag and
// ciphertext, each in base64url without padding (section 5 of RFC 4648), joined by dots. The
// cipher itself is left abstract.
module Envelope {
  import opened Wrappers

  type Byte = b: int | 0 <= b < 256
  type Bytes = seq<Byte>
  type Sextet = v: int | 0 <= v < 64

  const PREFIX := "v1"
  const IV_LENGTH := 12
  const TAG_LENGTH := 16
  const KEY_LENGTH := 32

  // ---- base64url --------------------------------------------------------------------------

  function CharOf(v: Sextet): char {
    if v < 26 then ('A' as int + v) as char
    else if v < 52 then ('a' as int + v - 26) as char
    else if v < 62 then ('0' as int + v - 52) as char
    else if v == 62 then '-'
    else '_'
  }

  // The decoder also takes the two characters of plain base64, and skips all others.
  function ValueOf(c: char): Option<Sextet> {
    if 'A' <= c <= 'Z' then Some(c as int - 'A' as int)
    else if 'a' <= c <= 'z' then Some(c as int - 'a' as int + 26)
    else if '0' <= c <= '9' then Some(c as int - '0' as int + 52)
    else if c == '-' || c == '+' then Some(62)
    else if c == '_' || c == '/' then Some(63)
    else None
  }

  function Sextets(bs: Bytes): seq<Sextet> {
    if |bs| == 0 then []
    else if |bs| == 1 then [bs[0] / 4, bs[0] % 4 * 16]
    else if |bs| == 2 then [bs[0] / 4, bs[0] % 4 * 16 + bs[1] / 16, bs[1] % 16 * 4]
    else [bs[0] / 4, bs[0] % 4 * 16 + bs[1] / 16, bs[1] % 16 * 4 + bs[2] / 64, bs[2] % 64] + Sextets(bs[3..])
  }

  function FirstByte(a: Sextet, b: Sextet): Byte { a * 4 + b / 16 }
  function SecondByte(b: Sextet, c: Sextet): Byte { b % 16 * 16 + c / 4 }
  function ThirdByte(c: Sextet, d: Sextet): Byte { c % 4 * 64 + d }

  function BytesOf(vs: seq<Sextet>): Bytes {
    if |vs| < 2 then []
    else if |vs| == 2 then [FirstByte(vs[0], vs[1])]
    else if |vs| == 3 then [FirstByte(vs[0], vs[1]), SecondByte(vs[1], vs[2])]
    else [FirstByte(vs[0], vs[1]), SecondByte(vs[1], vs[2]), ThirdByte(vs[2], vs[3])] + BytesOf(vs[4..])
  }

  function Chars(vs: seq<Sextet>): string {
    if vs == [] then "" else [CharOf(vs[0])] + Chars(vs[1..])
  }

  function Values(s: string): seq<Sextet> {
    if s == "" then []
    else (match ValueOf(s[0]) case Some(v) => [v] case None => []) + Values(s[1..])
  }

  function Encode(bs: Bytes): string {
    Chars(Sextets(bs))
  }

  function Decode(s: string): Bytes {
    BytesOf(Values(s))
  }

  lemma {:induction false} CharsAreInvertible(vs: seq<Sextet>)
    ensures Values(Chars(vs)) == vs && |Chars(vs)| == |vs| && '.' !in Chars(vs)
  {
    if vs == [] {
    } else {
      CharsAreInvertible(vs[1..]);
      assert Chars(vs)[1..] == Chars(vs[1..]);
      assert ValueOf(CharOf(vs[0])) == Some(vs[0]);
    }
  }

  lemma FirstByteIsBack(x: Byte, y: Byte)
    ensures FirstByte(x / 4, x % 4 * 16 + y / 16) == x == FirstByte(x / 4, x % 4 * 16)
  {
  }

  lemma SecondByteIsBack(x: Byte, y: Byte, z: Byte)
    ensures SecondByte(x % 4 * 16 + y / 16, y % 16 * 4 + z / 64) == y == SecondByte(x % 4 * 16 + y / 16, y % 16 * 4)
  {
  }

  lemma ThirdByteIsBack(y: Byte, z: Byte)
    ensures ThirdByte(y % 16 * 4 + z / 64, z % 64) == z
  {
  }

  lemma {:induction false} SextetsAreInvertible(bs: Bytes)
    ensures BytesOf(Sextets(bs)) == bs
  {
    if |bs| >= 1 {
      FirstByteIsBack(bs[0], if |bs| >= 2 then bs[1] else 0);
    }
    if |bs| >= 2 {
      SecondByteIsBack(bs[0], bs[1], if |bs| >= 3 then bs[2] else 0);
    }
    if |bs| >= 3 {
      ThirdByteIsBack(bs[1], bs[2]);
      SextetsAreInvertible(bs[3..]);
      assert Sextets(bs)[4..] == Sextets(bs[3..]);
      assert bs == [bs[0], bs[1], bs[2]] + bs[3..];
    } else if |bs| == 2 {
      assert bs == [bs[0], bs[1]];
    } else if |bs| == 1 {
      assert bs == [bs[0]];
    }
  }

  // Decoding undoes encoding, and an encoding contains no dot and is empty only for no bytes.
  lemma Base64RoundTrip(bs: Bytes)
    ensures Decode(Encode(bs)) == bs
    ensures '.' !in Encode(bs)
    ensures Encode(bs) == "" <==> bs == []
  {
    CharsAreInvertible(Sextets(bs));
    SextetsAreInvertible(bs);
  }

  // The alphabet of section 5 of RFC 4648: the upper case letters, the lower case letters, the digits,
  // a dash and an underscore.
  lemma CharsAreTheAlphabet(v: Sextet)
    ensures CharOf(0) == 'A' && CharOf(25) == 'Z' && CharOf(26) == 'a' && CharOf(51) == 'z'
    ensures CharOf(52) == '0' && CharOf(61) == '9' && CharOf(62) == '-' && CharOf(63) == '_'
    ensures v < 62 && v != 25 && v != 51 && v != 61 ==> CharOf(v + 1) as int == CharOf(v) as int + 1
  {
  }

  // The decoder reads this alphabet, takes the two characters of plain base64 for the last two, and
  // skips every other character.
  lemma DecoderReadsExactly(c: char, v: Sextet, rest: string)
    ensures Values([CharOf(v)] + rest) == [v] + Values(rest)
    ensures Values(['+'] + rest) == [62] + Values(rest) && Values(['/'] + rest) == [63] + Values(rest)
    ensures !('A' <= c <= 'Z' || 'a' <= c <= 'z' || '0' <= c <= '9' || c in {'-', '_', '+', '/'}) ==> Values([c] + rest) == Values(rest)
  {
    assert ([CharOf(v)] + rest)[1..] == rest && ([c] + rest)[1..] == rest;
    assert (['+'] + rest)[1..] == rest && (['/'] + rest)[1..] == rest;
    assert [] + Values(rest) == Values(rest);
  }

  // Three bytes are written as one number of four digits to the base 64; what is missing from the
  // last three counts as zero, and digits of which nothing is left are not written.
  lemma SextetsAreDigits(bs: Bytes)
    requires bs != []
    ensures var x, y, z := bs[0] as int, if |bs| > 1 then bs[1] as int else 0, if |bs| > 2 then bs[2] as int else 0;
            var vs := Sextets(bs);
            var n := if |bs| < 3 then |bs| + 1 else 4;
            && |vs| >= n && vs[n..] == Sextets(if |bs| < 3 then [] else bs[3..])
            && x * 65536 + y * 256 + z
            == vs[0] as int * 262144 + vs[1] as int * 4096 + (if n > 2 then vs[2] as int * 64 else 0) + if n > 3 then vs[3] as int else 0
  {
  }

  // ---- Joining and splitting at dots -----------------------------------------------------------

  function Join(parts: seq<string>): string {
    if |parts| == 0 then "" else if |parts| == 1 then parts[0] else parts[0] + "." + Join(parts[1..])
  }

  // The part before the first dot, and what follows it.
  function Split(s: string): seq<string> {
    if s == "" then [""]
    else
      var rest := Split(s[1..]);
      if s[0] == '.' then [""] + rest
      else if rest == [] then [[s[0]]]
      else [[s[0]] + rest[0]] + rest[1..]
  }

  lemma {:induction false} SplitNeverEmpty(s: string)
    ensures |Split(s)| >= 1
  {
    if s == "" {
    } else {
      SplitNeverEmpty(s[1..]);
    }
  }

  lemma {:induction false} SplitAfterPart(part: string, rest: string)
    requires '.' !in part
    ensures Split(part + "." + rest) == [part] + Split(rest)
    ensures Split(part) == [part]
  {
    var s := part + "." + rest;
    if part == "" {
      assert s[1..] == rest;
    } else {
      SplitAfterPart(part[1..], rest);
      assert s[1..] == part[1..] + "." + rest;
      assert part == [part[0]] + part[1..];
    }
  }

  lemma {:induction false} SplitUndoesJoin(parts: seq<string>)
    requires parts != [] && forall i :: 0 <= i < |parts| ==> '.' !in parts[i]
    ensures Split(Join(parts)) == parts
  {
    if |parts| == 1 {
      SplitAfterPart(parts[0], "");
    } else {
      SplitUndoesJoin(parts[1..]);
      SplitAfterPart(parts[0], Join(parts[1..]));
    }
  }

  // ---- The envelope -----------------------------------------------------------------------------

  // An authenticated cipher: seal yields ciphertext and tag, open the text or nothing.
  datatype Cipher = Cipher(
    seal: (Bytes, Bytes, string) -> (Bytes, Bytes),
    open: (Bytes, Bytes, Bytes, Bytes) -> Option<string>)

  // What is assumed of it: the tag has its length, a text that is not empty has a ciphertext
  // that is not empty, and opening undoes sealing on well-formed texts.
  ghost predicate Sound(cipher: Cipher, wellFormed: string -> bool) {
    forall key, iv, text :: wellFormed(text) ==>
      var sealed := cipher.seal(key, iv, text);
      && |sealed.1| == TAG_LENGTH
      && (text != "" ==> sealed.0 != [])
      && cipher.open(key, iv, sealed.1, sealed.0) == Some(text)
  }

  datatype CryptoError = EmptyPlaintext | InvalidKey | InvalidFormat | DecryptionFailed

  function Encrypt(cipher: Cipher, plaintext: string, key: Bytes, iv: Bytes): Result<string, CryptoError> {
    if plaintext == "" then Err(EmptyPlaintext)
    else if |key| != KEY_LENGTH then Err(InvalidKey)
    else
      var (ciphertext, tag) := cipher.seal(key, iv, plaintext);
      Ok(Join([PREFIX, Encode(iv), Encode(tag), Encode(ciphertext)]))
  }

  function Decrypt(cipher: Cipher, payload: string, key: Bytes): Result<string, CryptoError> {
    if |key| != KEY_LENGTH then Err(InvalidKey)
    else if payload == "" then Err(InvalidFormat)
    else
      var parts := Split(payload);
      if |parts| != 4 || parts[0] != PREFIX then Err(InvalidFormat)
      else if parts[1] == "" || parts[2] == "" || parts[3] == "" then Err(InvalidFormat)
      else
        var iv, tag, ciphertext := Decode(parts[1]), Decode(parts[2]), Decode(parts[3]);
        if |iv| != IV_LENGTH || |tag| != TAG_LENGTH then Err(InvalidFormat)
        else
          match cipher.open(key, iv, tag, ciphertext)
          case Some(text) => Ok(text)
          case None => Err(DecryptionFailed)
  }

  // An envelope is the version, the vector, the tag and the ciphertext, in this order. It is refused
  // exactly for an empty text or a key that has not 32 bytes.
  lemma EncryptsExactly(cipher: Cipher, plaintext: string, key: Bytes, iv: Bytes)
    ensures var (ciphertext, tag) := cipher.seal(key, iv, plaintext);
            Encrypt(cipher, plaintext, key, iv) ==
            if plaintext == "" then Err(EmptyPlaintext)
            else if |key| != 32 then Err(InvalidKey)
            else Ok("v1" + "." + Encode(iv) + "." + Encode(tag) + "." + Encode(ciphertext))
  {
    var (ciphertext, tag) := cipher.seal(key, iv, plaintext);
    JoinFour("v1", Encode(iv), Encode(tag), Encode(ciphertext));
  }

  lemma JoinFour(a: string, b: string, c: string, d: string)
    ensures Join([a, b, c, d]) == a + "." + b + "." + c + "." + d
  {
    assert [a, b, c, d][1..] == [b, c, d] && [b, c, d][1..] == [c, d] && [c, d][1..] == [d];
    assert Join([c, d]) == c + "." + d;
    assert Join([b, c, d]) == b + "." + (c + "." + d);
  }

  // For four parts without dots: a payload opens exactly with a key of 32 bytes, the version v1, a
  // vector of 12 bytes, a tag of 16 bytes, no part empty, and a cipher that opens it; the error says
  // which of these fails.
  lemma DecryptsExactly(cipher: Cipher, key: Bytes, version: string, iv: string, tag: string, ciphertext: string)
    requires '.' !in version && '.' !in iv && '.' !in tag && '.' !in ciphertext
    ensures var text := cipher.open(key, Decode(iv), Decode(tag), Decode(ciphertext));
            Decrypt(cipher, version + "." + iv + "." + tag + "." + ciphertext, key) ==
            if |key| != 32 then Err(InvalidKey)
            else if version != "v1" || iv == "" || tag == "" || ciphertext == "" then Err(InvalidFormat)
            else if |Decode(iv)| != 12 || |Decode(tag)| != 16 then Err(InvalidFormat)
            else if text.None? then Err(DecryptionFailed)
            else Ok(text.value)
  {
    var parts := [version, iv, tag, ciphertext];
    JoinFour(version, iv, tag, ciphertext);
    SplitUndoesJoin(parts);
  }

  lemma {:induction false} PartsAreCounted(s: string)
    ensures |Split(s)| == multiset(s)['.'] + 1
  {
    if s == "" {
    } else {
      PartsAreCounted(s[1..]);
      assert s == [s[0]] + s[1..];
    }
  }

  // A payload that has not three dots is none, the empty one included.
  lemma OtherPayloadsAreRefused(cipher: Cipher, payload: string, key: Bytes)
    requires multiset(payload)['.'] != 3
    ensures Decrypt(cipher, payload, key) == Err(if |key| != 32 then InvalidKey else InvalidFormat)
  {
    PartsAreCounted(payload);
  }

  // Every well-formed text that is not empty comes back, for every key and vector.
  lemma EnvelopeRoundTrip(cipher: Cipher, wellFormed: string -> bool, plaintext: string, key: Bytes, iv: Bytes)
    requires Sound(cipher, wellFormed) && wellFormed(plaintext) && plaintext != ""
    requires |key| == KEY_LENGTH && |iv| == IV_LENGTH
    ensures var sealed := Encrypt(cipher, plaintext, key, iv);
            sealed.Ok? && Decrypt(cipher, sealed.value, key) == Ok(plaintext)
  {
    var (ciphertext, tag) := cipher.seal(key, iv, plaintext);
    var parts := [PREFIX, Encode(iv), Encode(tag), Encode(ciphertext)];
    Base64RoundTrip(iv);
    Base64RoundTrip(tag);
    Base64RoundTrip(ciphertext);
    SplitUndoesJoin(parts);
    SplitAfterPart(PREFIX, Join(parts[1..]));
    assert Join(parts)[0] == 'v';
  }

  lemma {:induction false} JoinUndoesSplit(s: string)
    ensures Join(Split(s)) == s
  {
    if s == "" {
    } else {
      var rest := Split(s[1..]);
      JoinUndoesSplit(s[1..]);
      SplitNeverEmpty(s[1..]);
      assert s == [s[0]] + s[1..];
      if s[0] == '.' {
        assert ([""] + rest)[1..] == rest;
      } else if |rest| == 1 {
      } else {
        assert ([[s[0]] + rest[0]] + rest[1..])[1..] == rest[1..];
      }
    }
  }

  // A payload that decrypts is an envelope of exactly four parts whose vector, tag and
  // ciphertext the cipher opened.
  lemma DecryptsOnlyEnvelopes(cipher: Cipher, payload: string, key: Bytes)
    requires Decrypt(cipher, payload, key).Ok?
    ensures exists iv, tag, ciphertext ::
              && payload == Join([PREFIX, iv, tag, ciphertext])
              && |Decode(iv)| == IV_LENGTH && |Decode(tag)| == TAG_LENGTH
              && cipher.open(key, Decode(iv), Decode(tag), Decode(ciphertext)) == Some(Decrypt(cipher, payload, key).value)
  {
    JoinUndoesSplit(payload);
    var parts := Split(payload);
    assert parts == [parts[0], parts[1], parts[2], parts[3]];
  }
}
