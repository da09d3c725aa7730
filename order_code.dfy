/** The short order code handed out by both servers: eight characters drawn
    uniformly from the 36 upper-case letters and digits. */
module OrderCode {

  const Alphabet: string := "ABCDEFGHIJKLMNOPQRSTUVWXYZ0123456789"
  const CodeLength: nat := 8

  predicate IsOrderCode(code: string)
  {
    |code| == CodeLength && forall i :: 0 <= i < |code| ==> code[i] in Alphabet
  }

  /** Every code in the list has the shape of an order code. */
  predicate AllOrderCodes(codes: seq<string>)
  {
    forall i :: 0 <= i < |codes| ==> IsOrderCode(codes[i])
  }

  lemma AllOrderCodesLast(codes: seq<string>)
    requires AllOrderCodes(codes) && codes != []
    ensures IsOrderCode(codes[|codes| - 1])
  {
  }

  lemma AllOrderCodesAppend(codes: seq<string>, code: string)
    requires AllOrderCodes(codes) && IsOrderCode(code)
    ensures AllOrderCodes(codes + [code])
  {
    assert forall i :: 0 <= i < |codes| ==> (codes + [code])[i] == codes[i];
  }

  /** Builds the code one random character at a time; the random index
      `Math.floor(Math.random() * 36)` is an arbitrary choice in [0, 36). */
  method GenerateOrderCode() returns (code: string)
    ensures IsOrderCode(code)
  {
    code := "";
    for i := 0 to CodeLength
      invariant |code| == i
      invariant forall k :: 0 <= k < i ==> code[k] in Alphabet
    {
      var pick :| 0 <= pick < |Alphabet|;
      code := code + [Alphabet[pick]];
    }
  }

  /** The alphabet has 36 characters, all upper-case letters or digits. */
  lemma AlphabetShape()
    ensures |Alphabet| == 36
    ensures forall c :: c in Alphabet ==> ('A' <= c <= 'Z') || ('0' <= c <= '9')
  {
  }
}
