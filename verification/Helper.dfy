/** common/helper.go: turning a Shadowsocks-2022 password into a base64 key of the cipher's length. */
module Helper {
  import opened Options
  import opened Base64

  // SHA-256 is not modelled beyond its type: every result below holds for any hash with 32 bytes.
  type Digest = d: seq<byte> | |d| == 32 witness seq(32, _ => 0)
  type Hash = string -> Digest

  predicate OccursAt(s: string, sub: string, i: nat) {
    i + |sub| <= |s| && s[i..i + |sub|] == sub
  }

  predicate Contains(s: string, sub: string) {
    exists i :: 0 <= i <= |s| - |sub| && OccursAt(s, sub, i)
  }

  /** Containing a text means that the whole is something, then the text, then something. */
  lemma ContainsIff(s: string, sub: string)
    ensures Contains(s, sub) <==> exists before: string, after: string :: s == before + sub + after
  {
    if Contains(s, sub) {
      var i :| 0 <= i <= |s| - |sub| && OccursAt(s, sub, i);
      assert s == s[..i] + sub + s[i + |sub|..];
    }
    if before: string, after: string :| s == before + sub + after {
      assert OccursAt(s, sub, |before|);
    }
  }

  predicate NamesAes128(cipher: string) { Contains(cipher, "aes-128-gcm") }

  predicate NamesLongKey(cipher: string) {
    Contains(cipher, "aes-256-gcm") || Contains(cipher, "chacha20-poly1305")
  }

  // The method names one of the ciphers for which the key length is checked.
  predicate KnownCipher(cipher: string) { NamesAes128(cipher) || NamesLongKey(cipher) }

  predicate RightLength(cipher: string, n: nat) {
    (NamesAes128(cipher) && n == 16) || (NamesLongKey(cipher) && n == 32)
  }

  function EnsureBase64Password(sha: Hash, password: string, cipher: string): string {
    var decoded := Decode(password);
    if decoded.Some? && RightLength(cipher, |decoded.value|) then
      password
    else
      var digest := sha(password);
      Encode(if NamesAes128(cipher) then digest[..16] else digest)
  }

  /** The result always decodes, to a key of a length the method accepts; an unknown method gets 32 bytes. */
  lemma EnsuredKeyDecodes(sha: Hash, password: string, cipher: string)
    ensures var key := Decode(EnsureBase64Password(sha, password, cipher));
            && key.Some?
            && (KnownCipher(cipher) ==> RightLength(cipher, |key.value|))
            && (!KnownCipher(cipher) ==> |key.value| == 32)
  {
    var digest := sha(password);
    DecodeEncode(digest[..16]);
    DecodeEncode(digest);
  }

  // The password is itself the base64 of a key of the right length.
  predicate IsOwnKey(password: string, cipher: string) {
    Decode(password).Some? && RightLength(cipher, |Decode(password).value|)
  }

  // The key that belongs to the password: itself if it is one, else the first bytes of its hash.
  ghost predicate IsKeyOf(sha: Hash, password: string, cipher: string, key: string) {
    if IsOwnKey(password, cipher) then key == password
    else Decode(key) == Some(sha(password)[..if NamesAes128(cipher) then 16 else 32])
  }

  /**
   A password that decodes to a length the method accepts is its own key; the key of any other decodes to the first 16
   bytes of the password's hash for aes-128-gcm, and to all 32 for every other method.
   */
  lemma EnsuredKeyIs(sha: Hash, password: string, cipher: string)
    ensures IsKeyOf(sha, password, cipher, EnsureBase64Password(sha, password, cipher))
  {
    var digest := sha(password);
    DecodeEncode(digest[..16]);
    DecodeEncode(digest);
    assert digest[..32] == digest;
  }

  /** A method that names a cipher gets the same key from two passes as from one. */
  lemma EnsureIsIdempotent(sha: Hash, password: string, cipher: string)
    requires KnownCipher(cipher)
    ensures var key := EnsureBase64Password(sha, password, cipher);
            EnsureBase64Password(sha, key, cipher) == key
  {
    EnsuredKeyDecodes(sha, password, cipher);
  }

  ghost predicate IdempotentForEveryHash(cipher: string) {
    forall sha: Hash, password: string {:trigger EnsureBase64Password(sha, password, cipher)} ::
      var key := EnsureBase64Password(sha, password, cipher);
      EnsureBase64Password(sha, key, cipher) == key
  }

  // A hash that tells the empty password from all others.
  function SplittingHash(): Hash {
    (s: string) => if s == "" then seq(32, _ => 0) else seq(32, _ => 1)
  }

  /** For a method that names no known cipher a second pass can change the key: here, that of "". */
  lemma UnknownMethodIsNotIdempotent(cipher: string)
    requires !KnownCipher(cipher)
    ensures var key := EnsureBase64Password(SplittingHash(), "", cipher);
            && key != ""
            && EnsureBase64Password(SplittingHash(), key, cipher) != key
  {
    var sha := SplittingHash();
    var zeros, ones := sha(""), sha("x");
    DecodeEncode(zeros);
    DecodeEncode(ones);
    assert zeros[0] == 0 && ones[0] == 1;
    assert Decode("") == Some([]);
  }

  /**
   For any hash, SHA-256 included: a second pass over the key leaves it as it is exactly when the method names a known
   cipher or hashing the key gives what hashing the password gave.
   */
  lemma SecondPassKeepsIff(sha: Hash, password: string, cipher: string)
    ensures var key := EnsureBase64Password(sha, password, cipher);
            EnsureBase64Password(sha, key, cipher) == key <==> KnownCipher(cipher) || sha(key) == sha(password)
  {
    var key := EnsureBase64Password(sha, password, cipher);
    if KnownCipher(cipher) {
      EnsureIsIdempotent(sha, password, cipher);
    } else {
      DecodeEncode(sha(password));
      DecodeEncode(sha(key));
    }
  }

  /** Naming a known cipher is exactly what makes the function idempotent. */
  lemma IdempotentIffKnownCipher(cipher: string)
    ensures IdempotentForEveryHash(cipher) <==> KnownCipher(cipher)
  {
    if KnownCipher(cipher) {
      forall sha: Hash, password: string
        ensures var key := EnsureBase64Password(sha, password, cipher);
                EnsureBase64Password(sha, key, cipher) == key
      {
        EnsureIsIdempotent(sha, password, cipher);
      }
    } else {
      UnknownMethodIsNotIdempotent(cipher);
      assert EnsureBase64Password(SplittingHash(), "", cipher) == EnsureBase64Password(SplittingHash(), "", cipher);
    }
  }

  const BLAKE3_AES_128 := "2022-blake3-aes-128-gcm"
  const BLAKE3_AES_256 := "2022-blake3-aes-256-gcm"
  const BLAKE3_CHACHA20 := "2022-blake3-chacha20-poly1305"

  // A text that contains another has all its symbols.
  lemma HasSymbol(s: string, sub: string, d: nat)
    requires d < |sub|
    ensures Contains(s, sub) ==> sub[d] in s
  {
    if Contains(s, sub) {
      var i :| 0 <= i <= |s| - |sub| && OccursAt(s, sub, i);
      assert s[i..i + |sub|][d] == s[i + d];
    }
  }

  lemma ContainsSuffix(prefix: string, sub: string)
    ensures Contains(prefix + sub, sub)
  {
    assert OccursAt(prefix + sub, sub, |prefix|);
  }

  lemma Blake3Aes128Names()
    ensures NamesAes128(BLAKE3_AES_128)
  {
    assert BLAKE3_AES_128 == "2022-blake3-" + "aes-128-gcm";
    ContainsSuffix("2022-blake3-", "aes-128-gcm");
  }

  lemma Blake3Aes128Symbols()
    ensures '5' !in BLAKE3_AES_128 && 'h' !in BLAKE3_AES_128
  {
  }

  lemma Blake3Aes128IsShort()
    ensures !NamesLongKey(BLAKE3_AES_128)
  {
    Blake3Aes128Symbols();
    var aes, chacha := "aes-256-gcm", "chacha20-poly1305";
    HasSymbol(BLAKE3_AES_128, aes, 5);
    HasSymbol(BLAKE3_AES_128, chacha, 1);
    assert aes[5] == '5' && chacha[1] == 'h';
  }

  lemma Blake3Aes256Names()
    ensures NamesLongKey(BLAKE3_AES_256)
  {
    assert BLAKE3_AES_256 == "2022-blake3-" + "aes-256-gcm";
    ContainsSuffix("2022-blake3-", "aes-256-gcm");
  }

  lemma Blake3Aes256IsLong()
    ensures !NamesAes128(BLAKE3_AES_256)
  {
    HasSymbol(BLAKE3_AES_256, "aes-128-gcm", 4);
  }

  lemma Blake3Chacha20Names()
    ensures NamesLongKey(BLAKE3_CHACHA20)
  {
    assert BLAKE3_CHACHA20 == "2022-blake3-" + "chacha20-poly1305";
    ContainsSuffix("2022-blake3-", "chacha20-poly1305");
  }

  lemma Blake3Chacha20IsLong()
    ensures !NamesAes128(BLAKE3_CHACHA20)
  {
    HasSymbol(BLAKE3_CHACHA20, "aes-128-gcm", 8);
  }

  /** Exactly 16 bytes for aes-128-gcm, exactly 32 for aes-256-gcm and chacha20-poly1305. */
  lemma Blake3KeyLengths(sha: Hash, password: string)
    ensures var key := Decode(EnsureBase64Password(sha, password, BLAKE3_AES_128)); key.Some? && |key.value| == 16
    ensures var key := Decode(EnsureBase64Password(sha, password, BLAKE3_AES_256)); key.Some? && |key.value| == 32
    ensures var key := Decode(EnsureBase64Password(sha, password, BLAKE3_CHACHA20)); key.Some? && |key.value| == 32
  {
    Blake3Aes128Names();
    Blake3Aes128IsShort();
    Blake3Aes256Names();
    Blake3Aes256IsLong();
    Blake3Chacha20Names();
    Blake3Chacha20IsLong();
    EnsuredKeyDecodes(sha, password, BLAKE3_AES_128);
    EnsuredKeyDecodes(sha, password, BLAKE3_AES_256);
    EnsuredKeyDecodes(sha, password, BLAKE3_CHACHA20);
  }
}
