/**
 * Helpers of src/clibpard/utils/__init__.py: the pairing-token generator and
 * the content hash. Randomness and SHA-256 are inputs, never computed here.
 */
module Utils {

  /** One byte of a payload, a blob file or an encoded string. */
  type byte = b: int | 0 <= b < 256

  /**
   * compute_content_hash: the hex SHA-256 digest of raw bytes. Only its being
   * a function of the bytes matters to the model, so it is supplied by the caller.
   */
  type Hasher = seq<byte> -> string

  /** The 32 symbols tokens are drawn from: no I, O, 0 or 1. */
  const Alphabet: string := "ABCDEFGHJKLMNPQRSTUVWXYZ23456789"

  const DefaultTokenLength: nat := 8

  /** What one call of `secrets.choice(alphabet)` picks: a position in the alphabet. */
  type AlphabetIndex = i: nat | i < 32

  /**
   * generate_pairing_token(length): `length` independent draws from the
   * alphabet; `draws(k)` is the choice made for position k. A negative
   * length makes `range(length)` empty, so the token is "".
   */
  function GeneratePairingToken(draws: nat -> AlphabetIndex, length: int := DefaultTokenLength): (token: string)
    ensures |token| == if length < 0 then 0 else length
    ensures forall k :: 0 <= k < |token| ==> token[k] in Alphabet
    ensures forall k :: 0 <= k < |token| ==> token[k] == Alphabet[draws(k)]
  {
    var n := if length < 0 then 0 else length;
    seq(n, k requires 0 <= k < n => Alphabet[draws(k)])
  }

  /** The alphabet's symbols: the upper-case letters but I and O, and the digits 2 to 9. */
  predicate IsTokenSymbol(c: char)
  {
    ('A' <= c <= 'Z' && c != 'I' && c != 'O') || ('2' <= c <= '9')
  }

  /** Position of a symbol in the alphabet, computed from its code point. */
  function SymbolRank(c: char): int
  {
    if 'A' <= c <= 'H' then c as int - 'A' as int
    else if 'J' <= c <= 'N' then c as int - 'A' as int - 1
    else if 'P' <= c <= 'Z' then c as int - 'A' as int - 2
    else c as int - '2' as int + 24
  }

  lemma {:induction false} AlphabetRanks()
    ensures |Alphabet| == 32
    ensures forall k :: 0 <= k < 32 ==> IsTokenSymbol(Alphabet[k]) && SymbolRank(Alphabet[k]) == k
  {
    assert Alphabet == "ABCDEFGH" + "JKLMN" + "PQRSTUVWXYZ" + "23456789";
  }

  /** The alphabet has 32 distinct symbols, none of them I, O, 0 or 1. */
  lemma AlphabetFacts()
    ensures |Alphabet| == 32
    ensures forall i, j :: 0 <= i < j < |Alphabet| ==> Alphabet[i] != Alphabet[j]
    ensures forall c :: c in Alphabet ==> IsTokenSymbol(c)
    ensures 'I' !in Alphabet && 'O' !in Alphabet && '0' !in Alphabet && '1' !in Alphabet
  {
    AlphabetRanks();
  }
}
