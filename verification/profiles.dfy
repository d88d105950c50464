/** The part of a stored user profile the flows read or write. */
module Profiles {
  import opened Base

  datatype Profile = Profile(
    accountNumber: Option<string>,
    accountName: Option<string>,
    bankName: Option<string>,
    institutionCode: Option<string>,
    walletAddress: Option<string>,
    tradeVolume: real,
    tradeCount: int)

  /** `user?.accountNumber` is truthy: a profile exists and carries a
      non-empty account number. */
  predicate HasAccount(user: Option<Profile>) {
    user.Some? && NonEmpty(user.value.accountNumber)
  }

  /** The counter increment requested after an order is created. */
  datatype StatsIncrement = StatsIncrement(tradeVolume: real, trades: int)

  /** The fields the verify flow sets on the profile, by upsert, when the
      user confirms an account. */
  datatype AccountWrite = AccountWrite(
    bankName: string,
    accountName: Option<string>,
    accountNumber: Option<string>,
    institutionCode: string)
}
