/**
 * The persisted token record and its group-priority entry, as the Go back
 * end declares them (model.Token, model.GroupPriority). Only the fields the
 * write path and the channel selector touch are given meaning here.
 */
module TokenRecord {
  import opened Wrappers

  /** One entry of a token's priority list: a group and its rank (1 is tried first). */
  datatype GroupPriority = GroupPriority(group: string, priority: int)

  /** Token status codes. */
  const TokenStatusEnabled := 1
  const TokenStatusDisabled := 2
  const TokenStatusExpired := 3
  const TokenStatusExhausted := 4

  /** ExpiredTime value meaning "never expires". */
  const NeverExpires := -1

  datatype Token = Token(
    id: int,
    userId: int,
    key: string,
    status: int,
    name: string,
    createdTime: int,
    accessedTime: int,
    expiredTime: int,
    remainQuota: int,
    unlimitedQuota: bool,
    modelLimitsEnabled: bool,
    modelLimits: string,
    allowIps: Option<string>,
    usedQuota: int,
    group: string,
    groupPriorities: string,
    autoSmartGroup: bool)
}
