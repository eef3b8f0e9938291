/**
 * What the token check reads from an account: Spring Security's `UserDetails` view of a user.
 * Model.User.Details() produces it; the username is the user's email.
 */
module Auth {
  datatype UserDetails = UserDetails(
    username: string,
    enabled: bool,
    accountNonExpired: bool,
    credentialsNonExpired: bool,
    accountNonLocked: bool)
}
