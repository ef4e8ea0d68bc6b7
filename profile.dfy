/** The profile hook of the my-page (`useUserProfile`): the signed-in user
    mapped to a profile card, with the join date written `YYYY.MM`. */
module Profile {
  import opened Common
  import opened Auth

  const DefaultName := "사용자"
  const DefaultError := "프로필을 불러오는 중 오류가 발생했습니다."
  /** `${NaN}.${"NaN".padStart(2, '0')}` for an invalid date. */
  const InvalidJoinDate := "NaN.NaN"

  datatype UserProfile = UserProfile(
    userId: string,
    profileImage: Option<string>,
    name: string,
    email: string,
    joinDate: string)

  // ---------------------------------------------------------------------------
  // The join date

  /** `formatJoinDate`: the year, a dot, and the 1-based month padded to two
      digits. The `catch` branch is never taken, because `new Date(...)` does
      not throw; an invalid date prints `NaN` in both places. */
  function FormatJoinDate(d: CreatedDate): (s: string)
    ensures d.InvalidDate? ==> s == InvalidJoinDate
    ensures d.CalendarMonth? ==>
      && |s| == |IntToString(d.year)| + 3
      && s[..|s| - 3] == IntToString(d.year)
      && s[|s| - 3] == '.'
      && AllDigits(s[|s| - 2..])
  {
    match d
    case InvalidDate => InvalidJoinDate
    case CalendarMonth(year, monthIndex) => IntToString(year) + "." + Pad2(monthIndex + 1)
  }

  /** The two digits after the dot read back as the 1-based month, 01 to 12. */
  lemma JoinDateMonthRoundTrip(year: int, monthIndex: MonthIndex)
    ensures var s := FormatJoinDate(CalendarMonth(year, monthIndex));
      && s[|s| - 2..] == Pad2(monthIndex + 1)
      && 1 <= DigitsValue(s[|s| - 2..]) <= 12
      && DigitsValue(s[|s| - 2..]) == monthIndex + 1
  {
    var s := FormatJoinDate(CalendarMonth(year, monthIndex));
    Pad2RoundTrip(monthIndex + 1);
    assert s[|s| - 2..] == Pad2(monthIndex + 1);
  }

  /** Different months of the same year give different join dates. */
  lemma JoinDateSeparatesMonths(year: int, m1: MonthIndex, m2: MonthIndex)
    requires m1 != m2
    ensures FormatJoinDate(CalendarMonth(year, m1)) != FormatJoinDate(CalendarMonth(year, m2))
  {
    JoinDateMonthRoundTrip(year, m1);
    JoinDateMonthRoundTrip(year, m2);
  }

  // ---------------------------------------------------------------------------
  // The profile mapping

  /** `user.email?.split('@')[0]` */
  function EmailLocalPart(email: Option<string>): (r: Option<string>)
    ensures email.None? ==> r.None?
    ensures email.Some? ==> r.Some? && StartsWith(email.value, r.value)
    // The local part holds no '@' and ends at the first '@' or at the end.
    ensures email.Some? ==> '@' !in r.value
    ensures email.Some? ==> r.value == email.value || email.value[|r.value|] == '@'
  {
    match email
    case None => None
    case Some(e) =>
      SplitFirstOnChar(e, '@');
      Some(SplitFirst(e, "@"))
  }

  /** `full_name || name || email?.split('@')[0] || '사용자'` */
  function ProfileName(u: AuthUser): (name: string)
    ensures name != ""
    ensures Truthy(u.metadata.fullName) ==> name == u.metadata.fullName.value
    ensures !Truthy(u.metadata.fullName) && Truthy(u.metadata.name) ==> name == u.metadata.name.value
    ensures !Truthy(u.metadata.fullName) && !Truthy(u.metadata.name) && !Truthy(EmailLocalPart(u.email))
            ==> name == DefaultName
    ensures !Truthy(u.metadata.fullName) && !Truthy(u.metadata.name) && Truthy(EmailLocalPart(u.email))
            ==> name == EmailLocalPart(u.email).value
  {
    OrDefault(Or(Or(u.metadata.fullName, u.metadata.name), EmailLocalPart(u.email)), DefaultName)
  }

  /** `avatar_url || picture || null`: never an empty string. */
  function ProfileImage(m: UserMetadata): (image: Option<string>)
    ensures image.Some? ==> image.value != ""
    ensures Truthy(m.avatarUrl) ==> image == m.avatarUrl
    ensures !Truthy(m.avatarUrl) && Truthy(m.picture) ==> image == m.picture
    ensures !Truthy(m.avatarUrl) && !Truthy(m.picture) ==> image.None?
  {
    var r := Or(m.avatarUrl, m.picture);
    if Truthy(r) then r else None
  }

  function ToProfile(u: AuthUser): (p: UserProfile)
    ensures p.userId == u.id
    ensures p.name != "" && p.name == ProfileName(u)
    ensures p.profileImage == ProfileImage(u.metadata)
    ensures p.email == (if Truthy(u.email) then u.email.value else "")
    ensures p.joinDate == FormatJoinDate(u.createdAt)
  {
    UserProfile(u.id, ProfileImage(u.metadata), ProfileName(u), OrDefault(u.email, ""), FormatJoinDate(u.createdAt))
  }

  /** With no name in the metadata, the name is the part of the address
      before the first '@'. */
  lemma NameFromEmailLocalPart(u: AuthUser, local: string, domain: string)
    requires !Truthy(u.metadata.fullName) && !Truthy(u.metadata.name)
    requires u.email == Some(local + "@" + domain)
    requires local != "" && '@' !in local
    ensures ProfileName(u) == local
  {
    var e := local + "@" + domain;
    assert OccursAt(e, "@", |local|);
    forall j | 0 <= j < |local| ensures !OccursAt(e, "@", j) {
      assert e[j] == local[j];
    }
    assert IndexOfFrom(e, "@", 0) == Some(|local|);
    assert e[..|local|] == local;
  }

  // ---------------------------------------------------------------------------
  // The hook

  class ProfileHook {
    var profile: Option<UserProfile>
    var isLoading: bool
    var error: Option<string>

    constructor()
      ensures profile.None? && isLoading && error.None?
    {
      profile := None;
      isLoading := true;
      error := None;
    }

    /** `fetchUserProfile`, given the answer of `getUser`. A lookup error is
        rethrown as an `Error` with the same message, so it and an exception
        both set `error` and leave the profile as it was. */
    method FetchUserProfile(r: UserLookup)
      modifies this
      ensures !isLoading
      ensures r.LookupThrew? ==> profile == old(profile) && error == Some(MessageOr(r.thrown, DefaultError))
      ensures r.Answered? && r.error.Some? ==> profile == old(profile) && error == r.error
      ensures r.Answered? && r.error.None? ==>
        error.None? && profile == if r.user.Some? then Some(ToProfile(r.user.value)) else None
    {
      isLoading := true;
      error := None;
      match r {
        case LookupThrew(e) =>
          error := Some(MessageOr(e, DefaultError));
        case Answered(user, userError) =>
          if userError.Some? {
            error := Some(MessageOr(ErrorInstance(userError.value), DefaultError));
          } else if user.None? {
            profile := None;
          } else {
            profile := Some(ToProfile(user.value));
          }
      }
      isLoading := false;
    }

    /** The `onAuthStateChange` listener: a session refetches the profile
        (`refetch` is that fetch's `getUser` answer); no session clears it. */
    method OnAuthStateChange(session: Option<AuthUser>, refetch: UserLookup)
      modifies this
      ensures session.None? ==> profile.None? && isLoading == old(isLoading) && error == old(error)
      ensures session.Some? ==> !isLoading
      ensures session.Some? && refetch.Answered? && refetch.error.None? ==>
        error.None? && profile == if refetch.user.Some? then Some(ToProfile(refetch.user.value)) else None
      ensures session.Some? && refetch.LookupThrew? ==>
        profile == old(profile) && error == Some(MessageOr(refetch.thrown, DefaultError))
      ensures session.Some? && refetch.Answered? && refetch.error.Some? ==>
        profile == old(profile) && error == refetch.error
    {
      if session.Some? {
        FetchUserProfile(refetch);
      } else {
        profile := None;
      }
    }
  }
}
