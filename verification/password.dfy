/**
 * `utils.GenerateSecurePassword`: a password of a given length whose every
 * character is drawn from a fixed 65-character alphabet. Randomness is an
 * input: position i uses the i-th draw of a `RandomSource`.
 */
module Password {
  import opened Errors

  /** The alphabet passwords are drawn from. */
  const Charset: string := "abcdefghijklmnopqrstuvwxyzABCDEFGHIJKLMNOPQRSTUVWXYZ0123456789_-#"

  /** An index into Charset: both `crypto/rand.Int(_, 65)` and `math/rand.Intn(65)` return one. */
  type CharsetIndex = i: int | 0 <= i < 65

  /**
   * One draw: what `crypto/rand.Int` returned (None when it failed) and what
   * the `math/rand.Intn` fallback returns when it is asked.
   */
  datatype IndexDraw = IndexDraw(crypto: Option<CharsetIndex>, fallback: CharsetIndex)

  /** The i-th draw of a stream of random indices. */
  type RandomSource = nat -> IndexDraw

  /** The index used for one position: the crypto index, or the fallback if crypto/rand failed. */
  function DrawnIndex(d: IndexDraw): (i: CharsetIndex)
    ensures d.crypto.Some? ==> i == d.crypto.value
    ensures d.crypto.None? ==> i == d.fallback
  {
    if d.crypto.Some? then d.crypto.value else d.fallback
  }

  /** The password the source yields: position i is `Charset[index_i]`. */
  function PasswordOf(length: nat, source: RandomSource): string
  {
    seq(length, i requires 0 <= i => Charset[DrawnIndex(source(i))])
  }

  /** A password has exactly the requested length and only alphabet characters. */
  lemma PasswordShape(length: nat, source: RandomSource)
    ensures |Charset| == 65
    ensures |PasswordOf(length, source)| == length
    ensures forall i :: 0 <= i < length ==> PasswordOf(length, source)[i] == Charset[DrawnIndex(source(i))]
    ensures forall c :: c in PasswordOf(length, source) ==> c in Charset
  {
  }

  /**
   * `GenerateSecurePassword(length)`: allocate a buffer of `length` bytes and
   * fill position i with `charset[index_i]`.
   */
  method GenerateSecurePassword(length: nat, source: RandomSource) returns (password: string)
    ensures password == PasswordOf(length, source)
    ensures |password| == length
    ensures forall i :: 0 <= i < length ==> password[i] in Charset
  {
    var buffer := new char[length];
    for i := 0 to length
      invariant forall k :: 0 <= k < i ==> buffer[k] == Charset[DrawnIndex(source(k))]
    {
      var draw := source(i);
      var index := if draw.crypto.Some? then draw.crypto.value else draw.fallback;
      buffer[i] := Charset[index];
    }
    password := buffer[..];
  }
}
