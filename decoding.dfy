/**
 * The byte-to-text decoder of train.py (`decode_token`, `decode_tokens`), used to
 * print the generation prime and the generated sample.
 *
 * A Python `str` is a sequence of Unicode code points, and `chr` accepts every code
 * point below 0x110000 (surrogates included), so text is modelled as a sequence of
 * code points rather than of Dafny `char`s, which exclude surrogates.
 */
module Decoding {
  import opened Results

  /** One past the largest code point `chr` accepts. */
  const CODEPOINT_LIMIT := 0x11_0000
  /** The code point of the space character: the floor every decoded token is raised to. */
  const SPACE := 32

  type Codepoint = c: int | 0 <= c < CODEPOINT_LIMIT
  type Text = seq<Codepoint>

  /** `chr` raises ValueError for a code point outside `range(0x110000)`. */
  datatype DecodeError = CodepointOutOfRange(token: int)

  /** A token `chr(max(32, token))` does not raise on. */
  predicate Decodable(token: int) {
    token < CODEPOINT_LIMIT
  }

  /**
   * `decode_token`: control tokens (below 32) print as a space, every other token as
   * the character with its own code point.
   */
  function DecodeToken(token: int): (r: Result<Codepoint, DecodeError>)
    ensures r.Ok? <==> Decodable(token)
    ensures r.Ok? ==> SPACE <= r.value
    ensures r.Ok? && token < SPACE ==> r.value == SPACE
    ensures r.Ok? && SPACE <= token ==> r.value == token
    ensures r.Err? ==> r.error == CodepointOutOfRange(token)
  {
    var codepoint := if token < SPACE then SPACE else token;
    if codepoint < CODEPOINT_LIMIT then Ok(codepoint) else Err(CodepointOutOfRange(token))
  }

  /**
   * `decode_tokens`: the decoded characters joined in order. `list(map(...))` decodes
   * left to right, so the error reported is that of the first undecodable token.
   */
  function DecodeTokens(tokens: seq<int>): (r: Result<Text, DecodeError>)
    ensures r.Ok? <==> forall k :: 0 <= k < |tokens| ==> Decodable(tokens[k])
    ensures r.Ok? ==> |r.value| == |tokens|
    ensures r.Ok? ==> forall k :: 0 <= k < |tokens| ==> r.value[k] == DecodeToken(tokens[k]).value
    ensures r.Ok? ==> forall k :: 0 <= k < |r.value| ==> SPACE <= r.value[k]
    ensures r.Err? ==> exists k :: 0 <= k < |tokens| && !Decodable(tokens[k])
                                   && r.error == CodepointOutOfRange(tokens[k])
                                   && forall j :: 0 <= j < k ==> Decodable(tokens[j])
  {
    if tokens == [] then Ok([])
    else
      match DecodeToken(tokens[0])
      case Err(e) => Err(e)
      case Ok(c) =>
        match DecodeTokens(tokens[1..])
        case Err(e) => Err(e)
        case Ok(rest) => Ok([c] + rest)
  }
}
