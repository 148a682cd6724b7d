/** The secret codec: the `iv:cipher:tag` envelope around AES-256-GCM, hex
    tokens, numeric one-time codes and token hashing. AES-256-GCM
    (NIST SP 800-38D) and SHA-256 (FIPS 180-4) stay abstract: they are
    function-valued fields of `CryptoEnv`, and the one law the code relies on,
    that opening what was sealed under the same key and IV gives the plaintext
    back, is the predicate `GcmLaw`. */
module CryptoUtil {
  import opened Wrappers
  import opened Text

  type byte = b: int | 0 <= b < 256

  const IV_LENGTH: nat := 16
  const AUTH_TAG_LENGTH: nat := 16
  const KEY_HEX_LENGTH: nat := 64
  /** The byte length AES-256 accepts; `createCipheriv` throws for any other. */
  const KEY_BYTES: nat := 32

  const KEY_ERROR := "ENCRYPTION_KEY must be a 64-character hex string (32 bytes)"
  const FORMAT_ERROR := "Invalid encrypted text format"
  const KEY_LENGTH_ERROR := "Invalid key length"
  const AUTH_ERROR := "Unsupported state or unable to authenticate data"

  // ---------------------------------------------------------------------------
  // Hex, as Node's Buffer does it

  const HexDigits: string := "0123456789abcdef"

  predicate IsLowerHex(c: char) { '0' <= c <= '9' || 'a' <= c <= 'f' }

  predicate IsHexChar(c: char) { '0' <= c <= '9' || 'a' <= c <= 'f' || 'A' <= c <= 'F' }

  predicate IsLowerHexString(s: string) {
    forall i :: 0 <= i < |s| ==> IsLowerHex(s[i])
  }

  function HexValue(c: char): (v: nat)
    requires IsHexChar(c)
    ensures v < 16
  {
    if '0' <= c <= '9' then c as int - '0' as int
    else if 'a' <= c <= 'f' then c as int - 'a' as int + 10
    else c as int - 'A' as int + 10
  }

  /** `buf.toString('hex')`: two lower-case digits per byte, high nibble first. */
  function HexEncode(b: seq<byte>): (r: string)
    ensures |r| == 2 * |b|
    ensures IsLowerHexString(r)
  {
    if b == [] then ""
    else [HexDigits[b[0] / 16], HexDigits[b[0] % 16]] + HexEncode(b[1..])
  }

  /** `Buffer.from(s, 'hex')`: decodes digit pairs from the left and stops at
      the first pair that is not two hex digits (an odd last digit is dropped). */
  function HexDecode(s: string): (r: seq<byte>)
    ensures 2 * |r| <= |s|
  {
    if |s| >= 2 && IsHexChar(s[0]) && IsHexChar(s[1]) then
      [HexValue(s[0]) * 16 + HexValue(s[1])] + HexDecode(s[2..])
    else []
  }

  lemma {:induction false} HexRoundTrip(b: seq<byte>)
    ensures HexDecode(HexEncode(b)) == b
    decreases |b|
  {
    if b != [] {
      var hi, lo := HexDigits[b[0] / 16], HexDigits[b[0] % 16];
      HexDigitValue(b[0] as nat / 16);
      HexDigitValue(b[0] as nat % 16);
      var rest := HexEncode(b[1..]);
      var e := [hi, lo] + rest;
      assert HexEncode(b) == e;
      assert e[0] == hi && e[1] == lo && e[2..] == rest;
      HexRoundTrip(b[1..]);
      calc {
        HexDecode(e);
        [HexValue(hi) * 16 + HexValue(lo)] + HexDecode(rest);
        [b[0]] + b[1..];
      }
    }
  }

  lemma HexDigitValue(d: nat)
    requires d < 16
    ensures IsLowerHex(HexDigits[d]) && IsHexChar(HexDigits[d]) && HexValue(HexDigits[d]) == d
  {
  }

  lemma LowerHexHasNoColon(s: string)
    requires IsLowerHexString(s)
    ensures NoChar(s, ':')
  {
  }

  // ---------------------------------------------------------------------------
  // Abstract primitives

  datatype Sealed = Sealed(cipher: seq<byte>, tag: seq<byte>)

  /** AES-256-GCM: `seal(key, iv, plaintext)` is `cipher.update` + `final` +
      `getAuthTag`; `open(key, iv, cipher, tag)` is `decipher.update` + `final`,
      `None` when `final` throws (bad tag, wrong key, unusable IV or tag). */
  datatype Gcm = Gcm(
    seal: (seq<byte>, seq<byte>, string) -> Sealed,
    open: (seq<byte>, seq<byte>, seq<byte>, seq<byte>) -> Option<string>)

  ghost predicate GcmLaw(g: Gcm) {
    forall key: seq<byte>, iv: seq<byte>, x: string {:trigger g.seal(key, iv, x)} ::
      |key| == KEY_BYTES && |iv| == IV_LENGTH ==>
        g.open(key, iv, g.seal(key, iv, x).cipher, g.seal(key, iv, x).tag) == Some(x)
  }

  /** `process.env.ENCRYPTION_KEY`, the cipher and SHA-256 (hex digest). */
  datatype CryptoEnv = CryptoEnv(encryptionKey: Option<string>, gcm: Gcm, sha256: string -> string)

  /** An environment in which encrypt and decrypt can run at all. */
  predicate KeyUsable(env: CryptoEnv) {
    && env.encryptionKey.Some?
    && env.encryptionKey.value != ""
    && Utf16Length(env.encryptionKey.value) == KEY_HEX_LENGTH
    && |HexDecode(env.encryptionKey.value)| == KEY_BYTES
  }

  // ---------------------------------------------------------------------------
  // The operations

  function GetEncryptionKey(key: Option<string>): (r: Result<seq<byte>>)
    ensures r.Ok? <==> key.Some? && Utf16Length(key.value) == KEY_HEX_LENGTH
    ensures r.Err? ==> r.error == Failure(Internal, KEY_ERROR)
    ensures r.Ok? ==> r.value == HexDecode(key.value) && |r.value| <= KEY_BYTES
  {
    if !Truthy(key) || Utf16Length(key.value) != KEY_HEX_LENGTH then Err(Failure(Internal, KEY_ERROR))
    else Ok(HexDecode(key.value))
  }

  /** `iv` stands for `randomBytes(16)`. */
  function Encrypt(env: CryptoEnv, iv: seq<byte>, text: string): Result<string>
    requires |iv| == IV_LENGTH
  {
    var key :- GetEncryptionKey(env.encryptionKey);
    if |key| != KEY_BYTES then Err(Failure(Internal, KEY_LENGTH_ERROR))
    else
      var sealed := env.gcm.seal(key, iv, text);
      Ok(HexEncode(iv) + ":" + HexEncode(sealed.cipher) + ":" + HexEncode(sealed.tag))
  }

  function Decrypt(env: CryptoEnv, text: string): Result<string> {
    var key :- GetEncryptionKey(env.encryptionKey);
    var parts := Split(text, ':');
    if |parts| != 3 then Err(Failure(Internal, FORMAT_ERROR))
    else if |key| != KEY_BYTES then Err(Failure(Internal, KEY_LENGTH_ERROR))
    else
      match env.gcm.open(key, HexDecode(parts[0]), HexDecode(parts[1]), HexDecode(parts[2]))
      case Some(plain) => Ok(plain)
      case None => Err(Failure(Internal, AUTH_ERROR))
  }

  function HashToken(env: CryptoEnv, token: string): string {
    env.sha256(token)
  }

  /** `bytes` stands for `randomBytes(length)`. */
  function GenerateSecureToken(length: nat, bytes: seq<byte>): (r: string)
    requires |bytes| == length
    ensures |r| == 2 * length && IsLowerHexString(r)
    ensures HexDecode(r) == bytes
  {
    HexRoundTrip(bytes);
    HexEncode(bytes)
  }

  const Digits: string := "0123456789"

  /** `bytes` stands for `randomBytes(length)`. */
  method GenerateNumericCode(length: nat, bytes: seq<byte>) returns (code: string)
    requires |bytes| == length
    ensures |code| == length
    ensures forall i :: 0 <= i < length ==> code[i] == Digits[bytes[i] % 10]
    ensures forall i :: 0 <= i < length ==> IsDigit(code[i])
  {
    code := "";
    for i := 0 to length
      invariant |code| == i
      invariant forall j :: 0 <= j < i ==> code[j] == Digits[bytes[j] % 10]
    {
      code := code + [Digits[bytes[i] % 10]];
    }
  }

  // ---------------------------------------------------------------------------
  // Properties of the envelope

  /** Both encrypt and decrypt fail first, with the same error, when the
      configured key is missing or not 64 characters long. */
  lemma BadKeyFailsBoth(env: CryptoEnv, iv: seq<byte>, text: string, envelope: string)
    requires |iv| == IV_LENGTH
    requires env.encryptionKey.None? || Utf16Length(env.encryptionKey.value) != KEY_HEX_LENGTH
    ensures Encrypt(env, iv, text) == Err(Failure(Internal, KEY_ERROR))
    ensures Decrypt(env, envelope) == Err(Failure(Internal, KEY_ERROR))
  {
  }

  /** encrypt gives three ':'-separated lower-case hex fields, the first being
      the 16-byte IV as 32 hex digits. */
  lemma EncryptShape(env: CryptoEnv, iv: seq<byte>, text: string)
    requires |iv| == IV_LENGTH && KeyUsable(env)
    ensures Encrypt(env, iv, text).Ok?
    ensures var parts := Split(Encrypt(env, iv, text).value, ':');
      && |parts| == 3
      && parts[0] == HexEncode(iv) && |parts[0]| == 2 * IV_LENGTH
      && IsLowerHexString(parts[0]) && IsLowerHexString(parts[1]) && IsLowerHexString(parts[2])
  {
    var sealed := env.gcm.seal(HexDecode(env.encryptionKey.value), iv, text);
    var a, b, c := HexEncode(iv), HexEncode(sealed.cipher), HexEncode(sealed.tag);
    LowerHexHasNoColon(a);
    LowerHexHasNoColon(b);
    LowerHexHasNoColon(c);
    assert Encrypt(env, iv, text).value == a + [':'] + b + [':'] + c;
    SplitThree(a, b, c, ':');
  }

  /** decrypt rejects the format exactly when the text does not have two ':'
      (i.e. does not split into three parts). */
  lemma DecryptFormatCheck(env: CryptoEnv, text: string)
    requires KeyUsable(env)
    ensures Decrypt(env, text) == Err(Failure(Internal, FORMAT_ERROR)) <==> Count(text, ':') != 2
  {
    SplitCount(text, ':');
  }

  /** decrypt(encrypt(x)) == x under a usable key and a lawful cipher. */
  lemma DecryptEncrypt(env: CryptoEnv, iv: seq<byte>, x: string)
    requires |iv| == IV_LENGTH && KeyUsable(env) && GcmLaw(env.gcm)
    ensures Encrypt(env, iv, x).Ok?
    ensures Decrypt(env, Encrypt(env, iv, x).value) == Ok(x)
  {
    var key := HexDecode(env.encryptionKey.value);
    var sealed := env.gcm.seal(key, iv, x);
    var a, b, c := HexEncode(iv), HexEncode(sealed.cipher), HexEncode(sealed.tag);
    LowerHexHasNoColon(a);
    LowerHexHasNoColon(b);
    LowerHexHasNoColon(c);
    assert Encrypt(env, iv, x).value == a + [':'] + b + [':'] + c;
    SplitThree(a, b, c, ':');
    HexRoundTrip(iv);
    HexRoundTrip(sealed.cipher);
    HexRoundTrip(sealed.tag);
  }

  // ---------------------------------------------------------------------------
  // The digit distribution of generateNumericCode

  /** How many byte values below n are congruent to d modulo 10. */
  function BytesMappingTo(d: nat, n: nat): nat {
    if n == 0 then 0 else BytesMappingTo(d, n - 1) + (if (n - 1) % 10 == d then 1 else 0)
  }

  lemma {:induction false} BytesMappingToFormula(d: nat, n: nat)
    requires d < 10
    ensures BytesMappingTo(d, n) == (n + 9 - d) / 10
  {
    if n > 0 {
      BytesMappingToFormula(d, n - 1);
      var q, r := (n - 1) / 10, (n - 1) % 10;
      if r < d {
        DivTen(q, 10 + r - d);
        DivTen(q, 9 + r - d);
      } else {
        DivTen(q + 1, r - d);
        if r == d {
          DivTen(q, 9);
        } else {
          DivTen(q + 1, r - d - 1);
        }
      }
    }
  }

  /** Dividing `10 * q + x` by ten, for a digit `x`. */
  lemma DivTen(q: int, x: int)
    requires 0 <= x < 10
    ensures (10 * q + x) / 10 == q
  {
  }

  /** `byte % 10` is biased: digits 0-5 are each produced by 26 of the 256
      byte values, digits 6-9 by 25. */
  lemma NumericCodeBias(d: nat)
    requires d < 10
    ensures BytesMappingTo(d, 256) == if d < 6 then 26 else 25
  {
    BytesMappingToFormula(d, 256);
  }
}
