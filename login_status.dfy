/** The login-status hook (`useLoginStatus`): the current user in the shape
    the pages use, a loading flag, logout, and navigation. */
module LoginStatus {
  import opened Common
  import opened Auth

  const DefaultName := "사용자"
  const LoginPath := "/auth/login"
  const MyPagePath := "/mypages"
  const LogoutFailedAlert := "로그아웃에 실패했습니다."
  const LogoutErrorAlert := "로그아웃 중 오류가 발생했습니다."

  datatype UserInfo = UserInfo(id: string, email: string, name: string, profileImage: Option<string>)

  /** The mapping `fetchUser` and the auth listener both apply. */
  function ToUserInfo(u: AuthUser): (info: UserInfo)
    ensures info.id == u.id
    ensures Truthy(u.email) ==> info.email == u.email.value
    ensures !Truthy(u.email) ==> info.email == ""
    ensures info.name != ""
    ensures Truthy(u.metadata.fullName) ==> info.name == u.metadata.fullName.value
    ensures !Truthy(u.metadata.fullName) && Truthy(u.metadata.name) ==> info.name == u.metadata.name.value
    ensures !Truthy(u.metadata.fullName) && !Truthy(u.metadata.name) ==> info.name == DefaultName
    ensures Truthy(u.metadata.avatarUrl) ==> info.profileImage == u.metadata.avatarUrl
    ensures !Truthy(u.metadata.avatarUrl) ==> info.profileImage == u.metadata.picture
  {
    UserInfo(
      u.id,
      OrDefault(u.email, ""),
      OrDefault(Or(u.metadata.fullName, u.metadata.name), DefaultName),
      Or(u.metadata.avatarUrl, u.metadata.picture))
  }

  /** `await supabase.auth.signOut()`. */
  datatype SignOutResult = SignedOut | SignOutError(message: string) | SignOutThrew(thrown: Thrown)

  class LoginStatusHook {
    var user: Option<UserInfo>
    var loading: bool
    /** Paths passed to `router.push`, and messages passed to `alert`. */
    var navigations: seq<string>
    var alerts: seq<string>

    constructor()
      ensures user.None? && loading && navigations == [] && alerts == []
    {
      user := None;
      loading := true;
      navigations := [];
      alerts := [];
    }

    /** `isLoggedIn: !!user` */
    function IsLoggedIn(): (b: bool)
      reads this
      ensures b <==> user.Some?
    {
      user.Some?
    }

    /** `fetchUser`: an error, an exception or no user leaves no user; in
        every case loading ends. */
    method FetchUser(r: UserLookup)
      modifies this
      ensures !loading
      ensures r.LookupThrew? ==> user.None?
      ensures r.Answered? && r.error.Some? ==> user.None?
      ensures r.Answered? && r.error.None? ==>
        user == if r.user.Some? then Some(ToUserInfo(r.user.value)) else None
      ensures navigations == old(navigations) && alerts == old(alerts)
    {
      match r {
        case LookupThrew(_) =>
          user := None;
        case Answered(authUser, error) =>
          if error.Some? {
            user := None;
          } else if authUser.Some? {
            user := Some(ToUserInfo(authUser.value));
          } else {
            user := None;
          }
      }
      loading := false;
    }

    /** `handleLogout`: on success the user is cleared and the login page
        opened; on failure an alert is shown and the user stays. */
    method HandleLogout(r: SignOutResult)
      modifies this
      ensures loading == old(loading)
      ensures r.SignedOut? ==>
        user.None? && navigations == old(navigations) + [LoginPath] && alerts == old(alerts)
      ensures r.SignOutError? ==>
        user == old(user) && navigations == old(navigations) && alerts == old(alerts) + [LogoutFailedAlert]
      ensures r.SignOutThrew? ==>
        user == old(user) && navigations == old(navigations) && alerts == old(alerts) + [LogoutErrorAlert]
    {
      match r {
        case SignOutError(_) =>
          alerts := alerts + [LogoutFailedAlert];
        case SignOutThrew(_) =>
          alerts := alerts + [LogoutErrorAlert];
        case SignedOut =>
          user := None;
          navigations := navigations + [LoginPath];
      }
    }

    /** The `onAuthStateChange` listener: a session's user replaces the user,
        no session clears it, and loading ends. */
    method OnAuthStateChange(session: Option<AuthUser>)
      modifies this
      ensures !loading
      ensures user == if session.Some? then Some(ToUserInfo(session.value)) else None
      ensures navigations == old(navigations) && alerts == old(alerts)
    {
      if session.Some? {
        user := Some(ToUserInfo(session.value));
      } else {
        user := None;
      }
      loading := false;
    }

    method GoToMyPage()
      modifies this
      ensures navigations == old(navigations) + [MyPagePath]
      ensures user == old(user) && loading == old(loading) && alerts == old(alerts)
    {
      navigations := navigations + [MyPagePath];
    }

    method GoToLogin()
      modifies this
      ensures navigations == old(navigations) + [LoginPath]
      ensures user == old(user) && loading == old(loading) && alerts == old(alerts)
    {
      navigations := navigations + [LoginPath];
    }
  }
}
