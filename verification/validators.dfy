/** The two input validators of the conversation flows: the refund-address
    check of the sell flow and the account-number check of the verify flow.
    Each is written as the source writes it (a regex, plus a redundant length
    test for addresses) and related to a direct reading of the same set of
    strings. */
module Validators {
  import opened Text
  import opened Pattern

  /** `/^0x[a-fA-F0-9]{40}$/` */
  const AddressPattern: seq<Piece> :=
    [Piece(Literal('0'), 1), Piece(Literal('x'), 1), Piece(HexDigit, 40)]

  /** `/^\d{10}$/` */
  const AccountNumberPattern: seq<Piece> := [Piece(Digit, 10)]

  /** An EVM-style address: `0x` followed by exactly 40 hexadecimal digits of
      either case. */
  predicate IsRefundAddress(s: string) {
    && |s| == 42
    && s[0] == '0' && s[1] == 'x'
    && forall k :: 2 <= k < 42 ==> IsHexDigit(s[k])
  }

  /** The rejection test of the address step, as written: too short, or not
      matching the address regex. */
  predicate AddressRejected(s: string) {
    |s| < 26 || !FullMatch(AddressPattern, s)
  }

  /** Exactly ten ASCII decimal digits. */
  predicate IsAccountNumber(s: string) {
    |s| == 10 && forall k :: 0 <= k < 10 ==> IsAsciiDigit(s[k])
  }

  /** The rejection test of the account-number step, as written. */
  predicate AccountNumberRejected(s: string) {
    !FullMatch(AccountNumberPattern, s)
  }

  /** The address regex accepts exactly the EVM-style addresses, and the
      `length < 26` test in front of it never changes the verdict. */
  lemma AddressCheck(s: string)
    ensures FullMatch(AddressPattern, s) <==> IsRefundAddress(s)
    ensures !AddressRejected(s) <==> IsRefundAddress(s)
  {
    var hex := [Piece(HexDigit, 40)];
    assert AddressPattern == [Piece(Literal('0'), 1)] + ([Piece(Literal('x'), 1)] + hex);
    LeadingPiece(Literal('0'), 1, [Piece(Literal('x'), 1)] + hex, s);
    if 1 <= |s| {
      LeadingPiece(Literal('x'), 1, hex, s[1..]);
      if 2 <= |s| {
        assert s[1..][1..] == s[2..];
        LeadingPiece(HexDigit, 40, [], s[2..]);
        if IsRefundAddress(s) {
          assert forall k :: 0 <= k < 40 ==> s[2..][k] == s[k + 2];
        }
        if 40 <= |s[2..]| && (forall k :: 0 <= k < 40 ==> InClass(s[2..][k], HexDigit)) {
          forall k | 2 <= k < 42
            ensures IsHexDigit(s[k])
          {
            assert s[k] == s[2..][k - 2];
          }
        }
      }
    }
  }

  /** The address step's test, as written, read as an acceptance: it lets
      through exactly the EVM-style addresses. */
  function AddressAccepted(s: string): (ok: bool)
    ensures ok <==> IsRefundAddress(s)
  {
    AddressCheck(s);
    !AddressRejected(s)
  }

  /** The account-number regex accepts exactly the strings of ten ASCII
      digits. */
  lemma AccountNumberCheck(s: string)
    ensures !AccountNumberRejected(s) <==> IsAccountNumber(s)
  {
    assert AccountNumberPattern == [Piece(Digit, 10)] + [];
    LeadingPiece(Digit, 10, [], s);
  }

  /** The account-number step's test, as written, read as an acceptance: it
      lets through exactly the strings of ten ASCII digits. */
  function AccountNumberAccepted(s: string): (ok: bool)
    ensures ok <==> IsAccountNumber(s)
  {
    AccountNumberCheck(s);
    !AccountNumberRejected(s)
  }
}
