/** The entities of the Cashu protocol that the mint stores and moves (api/cashu). */
module Cashu {
  import opened Prelude

  datatype Unit = Sat | Msat | USD | EUR

  type KeysetId = string
  type QuoteId = string

  /** A public key; only its identity matters here. */
  datatype Point = Point(id: int)

  datatype ProofState = ProofUnspent | ProofPending | ProofSpent

  datatype Proof = Proof(
    amount: nat, id: KeysetId, secret: string, c: Point, y: Point, quote: Option<QuoteId>, state: ProofState,
    seenAt: int)

  datatype BlindedMessage = BlindedMessage(b: Point, id: KeysetId, amount: nat)

  /** A stored blind signature, found again by the blinded message it signs. */
  datatype RecoverSig = RecoverSig(b: Point, id: KeysetId, amount: nat)

  /** A decoded lightning invoice. */
  datatype Invoice = Invoice(hash: string, msat: nat)

  datatype ActionState = UNPAID | PENDING | PAID | ISSUED

  datatype MeltQuote = MeltQuote(
    request: Invoice, unit: Unit, amount: nat, feeReserve: nat, state: ActionState, melted: bool,
    feePaid: nat, preimage: string, checkingId: string, mpp: bool)

  datatype MintQuote = MintQuote(request: Invoice, unit: Unit, state: ActionState, minted: bool)

  datatype Keyset = Keyset(unit: Unit, feePpk: nat, active: bool)

  type Keysets = map<KeysetId, Keyset>
}
