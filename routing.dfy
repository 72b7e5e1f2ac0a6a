/** Navigation state: the in-app pages of `Routing/AppRouting/AppPage.swift`
    and the signed-out pages of `Routing/AuthRouting/AuthPage.swift`. */
module Routing {

  datatype AppPage =
    | Home
    | ProfileEdit(isFromSignUp: bool)
    | Explore
    | ExploreFirstTime
    | Chat(userId: string)
    | UserProfile(userId: string)

  /** The hand-written `AppPage.==`: the same case with equal payloads. It
      agrees with structural equality, so it is reflexive and symmetric. */
  function PagesEqual(lhs: AppPage, rhs: AppPage): (eq: bool)
    ensures eq <==> lhs == rhs
  {
    match (lhs, rhs)
    case (Home, Home) => true
    case (ProfileEdit(a), ProfileEdit(b)) => a == b
    case (Explore, Explore) => true
    case (ExploreFirstTime, ExploreFirstTime) => true
    case (Chat(a), Chat(b)) => a == b
    case (UserProfile(a), UserProfile(b)) => a == b
    case _ => false
  }

  class AppRouter {
    var currentPage: AppPage

    constructor()
      ensures currentPage == Home
    {
      currentPage := Home;
    }

    method GoToHome()
      modifies this
      ensures currentPage == Home
    {
      currentPage := Home;
    }

    method GoToExplore()
      modifies this
      ensures currentPage == Explore
    {
      currentPage := Explore;
    }

    /** `goToProfileEdit(isFromSignUp:)`; Swift's default argument is false. */
    method GoToProfileEdit(isFromSignUp: bool := false)
      modifies this
      ensures currentPage == ProfileEdit(isFromSignUp)
    {
      currentPage := ProfileEdit(isFromSignUp);
    }

    method GoToChat(userId: string)
      modifies this
      ensures currentPage == Chat(userId)
    {
      currentPage := Chat(userId);
    }

    method GoToUserProfile(id: string)
      modifies this
      ensures currentPage == UserProfile(id)
    {
      currentPage := UserProfile(id);
    }
  }

  datatype AuthPage = Login | Signup | Forgot

  class AuthRouter {
    var currentPage: AuthPage

    constructor()
      ensures currentPage == Login
    {
      currentPage := Login;
    }

    method GoToLogin()
      modifies this
      ensures currentPage == Login
    {
      currentPage := Login;
    }

    method GoToSignup()
      modifies this
      ensures currentPage == Signup
    {
      currentPage := Signup;
    }

    method GoToForgot()
      modifies this
      ensures currentPage == Forgot
    {
      currentPage := Forgot;
    }
  }
}
