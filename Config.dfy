/** Contract address and network checks of frontend/app/contracts/config.ts. */
module Config {
  import opened Types
  import opened JsString

  const ZeroAddress := "0x0000000000000000000000000000000000000000"
  const EventFactoryAddress := "0x70068bC17cb22ad28A2E2df5821d3f4Bf839a800"
  const ChainId := 50312

  /** `isValidContractAddress`: "0x", 42 characters in all, and not the zero address.
      The other 40 characters are not checked to be hexadecimal digits. */
  predicate IsValidContractAddress(address: string) {
    address != ZeroAddress && StartsWith(address, "0x") && |address| == 42
  }

  /** The zero address is never valid. */
  lemma ZeroAddressInvalid()
    ensures !IsValidContractAddress(ZeroAddress)
  {
  }

  /** The zero address, character by character: "0x" and forty '0's. */
  lemma ZeroAddressDigits()
    ensures |ZeroAddress| == 42 && ZeroAddress[0] == '0' && ZeroAddress[1] == 'x'
    ensures forall i :: 2 <= i < 42 ==> ZeroAddress[i] == '0'
  {
  }

  /** An independent reading of the check: a valid address is "0x" followed by 40
      characters of which at least one is not '0'. */
  lemma {:induction false} ValidAddressShape(address: string)
    ensures IsValidContractAddress(address) <==>
      |address| == 42 && address[..2] == "0x" && exists i :: 2 <= i < 42 && address[i] != '0'
  {
    ZeroAddressDigits();
    if |address| == 42 && address[..2] == "0x" {
      assert address[0] == '0' && address[1] == 'x';
      if forall i :: 2 <= i < 42 ==> address[i] == '0' {
        assert forall i :: 0 <= i < 42 ==> address[i] == ZeroAddress[i];
        assert address == ZeroAddress;
      } else {
        var i :| 2 <= i < 42 && address[i] != '0';
        assert address[i] != ZeroAddress[i];
      }
    }
  }

  /** No hex-digit check is made: "0x" followed by any 40 characters other than forty
      zeros is accepted, for example forty 'z's. */
  lemma {:induction false} AnyFortyCharactersAccepted(tail: string)
    requires |tail| == 40 && tail != ZeroAddress[2..]
    ensures IsValidContractAddress("0x" + tail)
  {
    assert ("0x" + tail)[2..] == tail;
  }

  /** `areContractsConfigured`: the deployed factory address passes the check. */
  function AreContractsConfigured(): (configured: bool)
    ensures configured
    ensures configured == IsValidContractAddress(EventFactoryAddress)
  {
    FactoryAddressValid();
    IsValidContractAddress(EventFactoryAddress)
  }

  /** The deployed factory address has the valid shape and is not the zero address. */
  lemma FactoryAddressValid()
    ensures IsValidContractAddress(EventFactoryAddress)
  {
    assert EventFactoryAddress[2] == '7' && ZeroAddress[2] == '0';
    assert EventFactoryAddress != ZeroAddress;
    assert |EventFactoryAddress| == 42;
    assert StartsWith(EventFactoryAddress, "0x") by {
      assert EventFactoryAddress[0] == '0' && EventFactoryAddress[1] == 'x';
      assert EventFactoryAddress[..2] == "0x";
    }
  }

  /** `isOnCorrectNetwork`: the wallet reports chain 50312; an absent chain id never
      matches. */
  function IsOnCorrectNetwork(userChainId: Option<int>): (correct: bool)
    ensures correct <==> userChainId == Some(50312)
    ensures userChainId.None? ==> !correct
  {
    match userChainId
    case None => false
    case Some(id) => id == ChainId
  }
}
