/**
 * The stored password format `hex(scrypt(password, salt, 64)) + "." + salt`,
 * where the salt is 16 random bytes written as hex, and its verification,
 * which splits the stored text on "." and recomputes the key.
 *
 * scrypt is a deterministic function of (password, salt) that yields a
 * 64-byte key; it is a parameter here, as are the random salt bytes.
 */
module Passwords {
  import opened Wrappers
  import opened Text

  type Byte = b: int | 0 <= b < 256

  /** The 64-byte key scrypt derives (key length 64 in both call sites). */
  type Key = k: seq<Byte> | |k| == 64 witness seq(64, _ => 0)

  type Scrypt = (string, string) -> Key

  const KeyLength: nat := 64
  const SaltLength: nat := 16

  function HexDigit(d: int): char
    requires 0 <= d < 16
  {
    "0123456789abcdef"[d]
  }

  /** `Buffer.toString("hex")`: two lower-case hex digits per byte. */
  function HexEncode(b: seq<Byte>): (s: string)
    ensures |s| == 2 * |b|
  {
    if b == [] then [] else [HexDigit(b[0] / 16), HexDigit(b[0] % 16)] + HexEncode(b[1..])
  }

  function HexValue(c: char): Option<int> {
    if '0' <= c <= '9' then Some(c as int - '0' as int)
    else if 'a' <= c <= 'f' then Some(c as int - 'a' as int + 10)
    else if 'A' <= c <= 'F' then Some(c as int - 'A' as int + 10)
    else None
  }

  /**
   * `Buffer.from(s, "hex")`: decodes digit pairs from the left and stops at
   * the first pair that is not two hex digits; an odd last digit is dropped.
   */
  function HexDecode(s: string): (b: seq<Byte>)
    ensures |b| <= |s| / 2
    ensures DecodesPairs(s, b) && StopsAtBadPair(s, b)
    decreases |s|
  {
    if |s| < 2 then []
    else match (HexValue(s[0]), HexValue(s[1]))
      case (Some(hi), Some(lo)) =>
        assert 0 <= hi < 16 && 0 <= lo < 16;
        var rest := HexDecode(s[2..]);
        DecodeCons(s, rest);
        [hi * 16 + lo] + rest
      case _ => []
  }

  /** Byte `k` of `b` is the value of the hex pair at digits `2k` and `2k + 1` of `s`. */
  ghost predicate DecodesPairs(s: string, b: seq<int>) {
    forall k :: 0 <= k < |b| ==> HexPairAt(s, k) && b[k] == PairValue(s, k)
  }

  /** Decoding stopped either at the end of `s` or at a pair that is not two hex digits. */
  ghost predicate StopsAtBadPair(s: string, b: seq<int>) {
    2 * |b| + 2 <= |s| ==> !HexPairAt(s, |b|)
  }

  /** One decoded leading pair in front of a decoding of the rest is a decoding of the whole. */
  lemma DecodeCons(s: string, rest: seq<int>)
    requires |s| >= 2 && HexValue(s[0]).Some? && HexValue(s[1]).Some?
    requires DecodesPairs(s[2..], rest) && StopsAtBadPair(s[2..], rest)
    ensures DecodesPairs(s, [HexValue(s[0]).value * 16 + HexValue(s[1]).value] + rest)
    ensures StopsAtBadPair(s, [HexValue(s[0]).value * 16 + HexValue(s[1]).value] + rest)
  {
    var b := [HexValue(s[0]).value * 16 + HexValue(s[1]).value] + rest;
    forall k | 0 <= k < |b| ensures HexPairAt(s, k) && b[k] == PairValue(s, k) {
      if k > 0 {
        PairShift(s, k - 1);
        assert b[k] == rest[k - 1];
      }
    }
    PairShift(s, |rest|);
  }

  /** Digits `2k` and `2k + 1` of `s` are both hex digits. */
  predicate HexPairAt(s: string, k: nat) {
    2 * k + 2 <= |s| && HexValue(s[2 * k]).Some? && HexValue(s[2 * k + 1]).Some?
  }

  /** Dropping the first two digits moves every pair one place to the front. */
  lemma PairShift(s: string, k: nat)
    requires |s| >= 2
    ensures HexPairAt(s[2..], k) <==> HexPairAt(s, k + 1)
    ensures HexPairAt(s, k + 1) ==> PairValue(s[2..], k) == PairValue(s, k + 1)
  {
    if 2 * k + 2 <= |s[2..]| {
      assert s[2..][2 * k] == s[2 * (k + 1)] && s[2..][2 * k + 1] == s[2 * (k + 1) + 1];
    }
  }

  /** The byte that the hex pair at `k` stands for. */
  function PairValue(s: string, k: nat): int
    requires HexPairAt(s, k)
  {
    HexValue(s[2 * k]).value * 16 + HexValue(s[2 * k + 1]).value
  }

  lemma HexDigitValue(d: int)
    requires 0 <= d < 16
    ensures HexValue(HexDigit(d)) == Some(d)
  {
    var digits := "0123456789abcdef";
    assert digits[d] == HexDigit(d);
    if d < 10 {
      assert '0' <= digits[d] <= '9' && digits[d] as int == '0' as int + d;
    } else {
      assert 'a' <= digits[d] <= 'f' && digits[d] as int == 'a' as int + d - 10;
    }
  }

  lemma {:induction false} HexRoundTrip(b: seq<Byte>)
    ensures HexDecode(HexEncode(b)) == b
  {
    if b != [] {
      var s := HexEncode(b);
      HexDigitValue(b[0] / 16);
      HexDigitValue(b[0] % 16);
      assert s[2..] == HexEncode(b[1..]);
      HexRoundTrip(b[1..]);
    }
  }

  lemma {:induction false} HexHasNoDot(b: seq<Byte>)
    ensures '.' !in HexEncode(b)
  {
    if b != [] {
      HexHasNoDot(b[1..]);
      var hi, lo := b[0] / 16, b[0] % 16;
      assert HexValue(HexDigit(hi)).Some? by { HexDigitValue(hi); }
      assert HexValue(HexDigit(lo)).Some? by { HexDigitValue(lo); }
      assert HexEncode(b) == [HexDigit(hi), HexDigit(lo)] + HexEncode(b[1..]);
    }
  }

  /** `hashPassword`: the text stored in the `password` column. */
  function HashPassword(scrypt: Scrypt, password: string, saltBytes: seq<Byte>): (stored: string)
    requires |saltBytes| == SaltLength
    ensures |stored| == 2 * KeyLength + 1 + 2 * SaltLength
    ensures stored[2 * KeyLength] == '.'
    ensures '.' !in stored[..2 * KeyLength]
    ensures stored[2 * KeyLength + 1..] == HexEncode(saltBytes)
  {
    var salt := HexEncode(saltBytes);
    var hash := HexEncode(scrypt(password, salt));
    HexHasNoDot(scrypt(password, salt));
    assert (hash + "." + salt)[..2 * KeyLength] == hash;
    assert (hash + "." + salt)[2 * KeyLength + 1..] == salt;
    hash + "." + salt
  }

  /**
   * `comparePassword`: `None` where the source throws (no "." in the stored
   * text, so the salt is undefined; or a decoded hash that is not 64 bytes
   * long, which `timingSafeEqual` refuses), otherwise whether the keys agree.
   */
  function ComparePassword(scrypt: Scrypt, stored: string, supplied: string): (r: Option<bool>)
    ensures r.None? <==> |Split(stored, '.')| < 2 || |HexDecode(Split(stored, '.')[0])| != KeyLength
    ensures '.' !in stored ==> r.None?
    ensures r.Some? ==>
      r.value == (HexDecode(Split(stored, '.')[0]) == scrypt(supplied, Split(stored, '.')[1]))
  {
    var parts := Split(stored, '.');
    if |parts| < 2 then None
    else
      var hashedBuf := HexDecode(parts[0]);
      var suppliedBuf := scrypt(supplied, parts[1]);
      if |hashedBuf| != |suppliedBuf| then None
      else Some(hashedBuf == suppliedBuf)
  }

  /** A password checks against the stored form exactly when scrypt agrees on it under the stored salt. */
  lemma CompareHashed(scrypt: Scrypt, password: string, saltBytes: seq<Byte>, supplied: string)
    requires |saltBytes| == SaltLength
    ensures ComparePassword(scrypt, HashPassword(scrypt, password, saltBytes), supplied)
         == Some(scrypt(supplied, HexEncode(saltBytes)) == scrypt(password, HexEncode(saltBytes)))
  {
    var salt := HexEncode(saltBytes);
    var key := scrypt(password, salt);
    HexHasNoDot(key);
    HexHasNoDot(saltBytes);
    SplitJoin(HexEncode(key), '.', salt);
    assert HexEncode(key) + "." + salt == HexEncode(key) + ['.'] + salt;
    HexRoundTrip(key);
  }

  /** The supplied password of a fresh hash always verifies. */
  lemma CompareOwnHash(scrypt: Scrypt, password: string, saltBytes: seq<Byte>)
    requires |saltBytes| == SaltLength
    ensures ComparePassword(scrypt, HashPassword(scrypt, password, saltBytes), password) == Some(true)
  {
    CompareHashed(scrypt, password, saltBytes, password);
  }
}
