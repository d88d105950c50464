/** The data shapes exchanged with the payment API: institutions (banks and
    mobile-money providers) and the payload of an order. */
module Payment {

  datatype InstitutionKind = Bank | MobileMoney

  /** A payout destination, identified by its code. */
  datatype Institution = Institution(name: string, code: string, kind: InstitutionKind)

  /** Where the fiat side of an order is paid. */
  datatype Recipient = Recipient(
    institution: string,
    accountIdentifier: string,
    accountName: string,
    memo: string)

  /** The body of an order-creation request. The `reference` the sell flow
      derives from the clock is not modelled. */
  datatype OrderPayload = OrderPayload(
    amount: real,
    rate: real,
    network: string,
    token: string,
    recipient: Recipient,
    returnAddress: string)

  /** The name-resolution request of the verify flow. */
  datatype VerifyAccountPayload = VerifyAccountPayload(institution: string, accountIdentifier: string)
}
