/**
 * `validateMint`: the mint address typed by the user is trimmed and accepted
 * when it is 32 to 44 characters of the base58 alphabet.
 */
module MintInput {
  import opened Text

  const InvalidMintMessage: string := "Enter a valid Solana mint (32-44 base58 chars)."
  const MinMintLength: nat := 32
  const MaxMintLength: nat := 44

  datatype MintCheck = Valid(mint: string) | Invalid(error: string)

  /** The character class `[1-9A-HJ-NP-Za-km-z]`: digits and letters without 0, I, O and l. */
  predicate IsBase58Char(c: char)
  {
    || ('1' <= c <= '9')
    || ('A' <= c <= 'H') || ('J' <= c <= 'N') || ('P' <= c <= 'Z')
    || ('a' <= c <= 'k') || ('m' <= c <= 'z')
  }

  /** The pattern `^[1-9A-HJ-NP-Za-km-z]{32,44}$`, matched against the whole string. */
  predicate IsMintText(s: string)
  {
    && MinMintLength <= |s| <= MaxMintLength
    && forall k :: 0 <= k < |s| ==> IsBase58Char(s[k])
  }

  /**
   * The result is valid exactly when the trimmed input matches the pattern,
   * and then carries the trimmed text; otherwise it carries the one error
   * message.
   */
  function ValidateMint(raw: string): (r: MintCheck)
    ensures r.Valid? <==> IsMintText(Trim(raw))
    ensures r.Valid? ==> r.mint == Trim(raw)
    ensures r.Invalid? ==> r.error == InvalidMintMessage
  {
    // An empty input is falsy in the source; it fails the pattern as well.
    if |raw| == 0 || !IsMintText(Trim(raw)) then Invalid(InvalidMintMessage)
    else Valid(Trim(raw))
  }

  /** The characters a base58 mint leaves out, because they are easy to misread. */
  lemma AmbiguousCharsRejected()
    ensures !IsBase58Char('0') && !IsBase58Char('O') && !IsBase58Char('I') && !IsBase58Char('l')
  {
  }

  /** A base58 character is never whitespace, so a valid mint has nothing to trim. */
  lemma Base58IsNotWhitespace(c: char)
    requires IsBase58Char(c)
    ensures !IsWhitespace(c)
  {
  }

  /** An accepted mint is accepted again, unchanged: validation is idempotent. */
  lemma {:induction false} ValidateMintIdempotent(raw: string)
    requires ValidateMint(raw).Valid?
    ensures ValidateMint(ValidateMint(raw).mint) == ValidateMint(raw)
  {
    var m := Trim(raw);
    forall k | 0 <= k < |m|
      ensures !IsWhitespace(m[k])
    {
      Base58IsNotWhitespace(m[k]);
    }
    TrimWithoutWhitespace(m);
  }
}
