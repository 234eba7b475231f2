/** The persistent entities and enumerations the login flow reads and writes. */
module Entities {
  import opened Wrappers

  /** Where an account's credentials come from. */
  datatype Provider = Local | Google

  /** Lifecycle state of an account. */
  datatype UserStatus = Pending | Active

  /** An entry of the role catalog. */
  datatype Role = Role(id: int, name: string)

  /** The profile owned by exactly one account; every field is nullable. */
  datatype Profile = Profile(
    fullName: Option<string>,
    avatarUrl: Option<string>,
    phone: Option<string>,
    address: Option<string>,
    bankName: Option<string>,
    bankAccountNumber: Option<string>)

  /** A local account. `password` is absent for federation-only accounts and
      `googleId` holds the identity provider's subject id once linked. */
  datatype User = User(
    id: int,
    email: string,
    password: Option<string>,
    googleId: Option<string>,
    provider: Provider,
    status: UserStatus,
    roles: seq<Role>,
    profile: Option<Profile>)

  /** The application error codes the flow can raise. */
  datatype ErrorCode = UncategorizedException | RoleNotFound
}
