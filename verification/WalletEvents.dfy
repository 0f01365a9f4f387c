/** The events sent to the wallet: their shape, and what is refused before anything is written. */
module WalletEvents {
  import opened Wrappers
  import opened Text

  datatype EventError = WalletEventInvalid

  const WALLET_GRANTED_EVENT_VERSION := "1.0"
  const WALLET_REVOKED_EVENT_VERSION := "1.1"

  predicate IsLowerHex(c: char) {
    IsDigit(c) || 'a' <= c <= 'f'
  }

  /** `cu_` followed by 32 lower-case hexadecimal digits. */
  predicate IsCommonUserId(s: string) {
    |s| == 35 && s[..3] == "cu_" && forall i :: 3 <= i < 35 ==> IsLowerHex(s[i])
  }

  predicate IsCorrelationChar(c: char) {
    IsDigit(c) || IsUpper(c) || IsLower(c) || c == '.' || c == '_' || c == '-'
  }

  predicate IsWalletCorrelationId(s: string) {
    8 <= |s| <= 128 && forall i :: 0 <= i < |s| ==> IsCorrelationChar(s[i])
  }

  /** `sha256:` followed by 64 lower-case hexadecimal digits. */
  predicate IsContentHash(s: string) {
    |s| == 71 && s[..7] == "sha256:" && forall i :: 7 <= i < 71 ==> IsLowerHex(s[i])
  }

  datatype Envelope = Envelope(
    eventId: string, occurredAt: int, correlationId: string, commonUserId: string,
    entitlementId: string, orderId: string, orderLineId: string, artworkId: string)

  datatype Display = Display(title: string, description: string, imageUrl: string, imageHash: string, serialNo: int)

  datatype WalletEvent =
    | Granted(version: string, envelope: Envelope, display: Display)
    | Revoked(version: string, envelope: Envelope, reasonCode: string)

  function ValidateEnvelope(e: Envelope): Result<(), EventError> {
    if IsBlank(e.eventId) then Err(WalletEventInvalid)
    else if !IsWalletCorrelationId(e.correlationId) then Err(WalletEventInvalid)
    else if !IsCommonUserId(e.commonUserId) then Err(WalletEventInvalid)
    else Ok(())
  }

  function BuildRevokedEvent(e: Envelope, reasonCode: string): Result<WalletEvent, EventError> {
    match ValidateEnvelope(e)
    case Err(error) => Err(error)
    case Ok(_) => Ok(Revoked(WALLET_REVOKED_EVENT_VERSION, e, reasonCode))
  }

  /** Which image addresses can be shown for good is a property of the address alone. */
  function BuildGrantedEvent(e: Envelope, d: Display, isLongLived: string -> bool): Result<WalletEvent, EventError> {
    match ValidateEnvelope(e)
    case Err(error) => Err(error)
    case Ok(_) =>
      if d.serialNo < 1 then Err(WalletEventInvalid)
      else if IsBlank(d.title) then Err(WalletEventInvalid)
      else if !IsContentHash(d.imageHash) then Err(WalletEventInvalid)
      else if !isLongLived(d.imageUrl) then Err(WalletEventInvalid)
      else Ok(Granted(WALLET_GRANTED_EVENT_VERSION, e, d))
  }

  // --- the identifiers, written out -----------------------------------------------------

  predicate AllIn(s: string, alphabet: string) {
    forall i :: 0 <= i < |s| ==> s[i] in alphabet
  }

  lemma HexDigitsAre(c: char)
    ensures IsLowerHex(c) <==> c in "0123456789abcdef"
  {
  }

  /** A common user id is `cu_` and 32 such digits, a content hash `sha256:` and 64, and nothing else is one. */
  lemma IdentifiersAre(s: string)
    ensures IsCommonUserId(s) <==> |s| == 35 && s[..3] == "cu_" && AllIn(s[3..], "0123456789abcdef")
    ensures IsContentHash(s) <==> |s| == 71 && s[..7] == "sha256:" && AllIn(s[7..], "0123456789abcdef")
    ensures IsWalletCorrelationId(s)
            <==> 8 <= |s| <= 128
                 && forall i :: 0 <= i < |s| ==>
                      '0' <= s[i] <= '9' || 'A' <= s[i] <= 'Z' || 'a' <= s[i] <= 'z' || s[i] in "._-"
  {
    forall i | 0 <= i < |s|
      ensures IsLowerHex(s[i]) <==> s[i] in "0123456789abcdef"
    {
      HexDigitsAre(s[i]);
    }
    if |s| == 35 {
      assert forall i :: 3 <= i < 35 ==> s[i] == s[3..][i - 3];
    }
    if |s| == 71 {
      assert forall i :: 7 <= i < 71 ==> s[i] == s[7..][i - 7];
    }
  }
}
