/** The signed-in user as the identity provider reports it, shared by the
    login-status hook, the profile hook and the magazine submit hook. */
module Auth {
  import opened Common

  /** `user_metadata`; a missing metadata object reads as all fields absent. */
  datatype UserMetadata = UserMetadata(
    fullName: Option<string>,
    name: Option<string>,
    avatarUrl: Option<string>,
    picture: Option<string>)

  type MonthIndex = m: int | 0 <= m < 12

  /** `new Date(created_at)` read in local time: its year and 0-based month,
      or an invalid date. */
  datatype CreatedDate = CalendarMonth(year: int, monthIndex: MonthIndex) | InvalidDate

  datatype AuthUser = AuthUser(id: string, email: Option<string>, metadata: UserMetadata, createdAt: CreatedDate)

  /** `await supabase.auth.getUser()`: the user (if any) and the error (if
      any), or the exception it throws. */
  datatype UserLookup = Answered(user: Option<AuthUser>, error: Option<string>) | LookupThrew(thrown: Thrown)
}
