/** The application context (context/AppContext.tsx): whether the user is
    signed in, the current page name and the collapsed flag of the sidebar,
    with the four operations that change them, and the fixed mock user. */
module AppState {
  import opened Common

  datatype User = User(email: string, role: string, canModify: bool)

  /** The user every page sees: a hard-coded administrator. */
  const MockUser: User := User("admin@greenarms.com", "admin", true)

  datatype Session = Session(isAuthenticated: bool, currentPage: string, sidebarCollapsed: bool)

  /** The application starts signed out, on the login page. */
  const InitialSession: Session := Session(false, "login", false)

  function SignIn(s: Session): (r: Session)
    ensures r.isAuthenticated && r.currentPage == "dashboard"
    ensures r.sidebarCollapsed == s.sidebarCollapsed
  {
    s.(isAuthenticated := true, currentPage := "dashboard")
  }

  function SignOut(s: Session): (r: Session)
    ensures !r.isAuthenticated && r.currentPage == "login"
    ensures r.sidebarCollapsed == s.sidebarCollapsed
  {
    s.(isAuthenticated := false, currentPage := "login")
  }

  function Navigate(s: Session, page: string): (r: Session)
    ensures r.currentPage == page
    ensures r.isAuthenticated == s.isAuthenticated && r.sidebarCollapsed == s.sidebarCollapsed
  {
    s.(currentPage := page)
  }

  function Toggle(s: Session): (r: Session)
    ensures r.sidebarCollapsed == !s.sidebarCollapsed
    ensures r.isAuthenticated == s.isAuthenticated && r.currentPage == s.currentPage
  {
    s.(sidebarCollapsed := !s.sidebarCollapsed)
  }

  /** Toggling twice leaves the session as it was. */
  lemma ToggleTwice(s: Session)
    ensures Toggle(Toggle(s)) == s
  {
  }

  /** Signing in and then out returns to the initial session, except that the
      sidebar keeps whatever state it had. */
  lemma SignInThenOut(s: Session)
    ensures SignOut(SignIn(s)) == InitialSession.(sidebarCollapsed := s.sidebarCollapsed)
  {
  }

  datatype Event = SignInEvent | SignOutEvent | NavigateEvent(page: string) | ToggleEvent

  function Step(s: Session, e: Event): Session {
    match e
    case SignInEvent => SignIn(s)
    case SignOutEvent => SignOut(s)
    case NavigateEvent(p) => Navigate(s, p)
    case ToggleEvent => Toggle(s)
  }

  /** The session after a sequence of events. */
  function Run(s: Session, events: seq<Event>): Session
    decreases |events|
  {
    if events == [] then s else Run(Step(s, events[0]), events[1..])
  }

  /** The index of the last sign-in or sign-out event, if any. */
  function LastAuthEvent(events: seq<Event>): (r: Option<nat>)
    ensures r.Some? ==> 0 <= r.value < |events| && events[r.value] in {SignInEvent, SignOutEvent}
    ensures r.Some? ==> forall j :: r.value < j < |events| ==> events[j] !in {SignInEvent, SignOutEvent}
    ensures r.None? ==> forall j :: 0 <= j < |events| ==> events[j] !in {SignInEvent, SignOutEvent}
    decreases |events|
  {
    if events == [] then None
    else if events[|events| - 1] in {SignInEvent, SignOutEvent} then Some(|events| - 1)
    else LastAuthEvent(events[..|events| - 1])
  }

  lemma {:induction false} RunAppend(s: Session, a: seq<Event>, b: seq<Event>)
    ensures Run(s, a + b) == Run(Run(s, a), b)
    decreases |a|
  {
    if a == [] {
      assert a + b == b;
    } else {
      assert (a + b)[1..] == a[1..] + b;
      RunAppend(Step(s, a[0]), a[1..], b);
    }
  }

  /** Authentication is decided by the last sign-in or sign-out: navigating
      and toggling never change it. */
  lemma {:induction false} AuthenticatedByLastEvent(s: Session, events: seq<Event>)
    ensures Run(s, events).isAuthenticated ==
              match LastAuthEvent(events)
              case None => s.isAuthenticated
              case Some(i) => events[i] == SignInEvent
    decreases |events|
  {
    if events != [] {
      var init, last := events[..|events| - 1], events[|events| - 1];
      assert events == init + [last];
      RunAppend(s, init, [last]);
      AuthenticatedByLastEvent(s, init);
    }
  }

  /** The context object the provider shares with every page. */
  class AppContext {
    var isAuthenticated: bool
    var currentPage: string
    var sidebarCollapsed: bool
    const user: User

    function State(): Session
      reads this
    {
      Session(isAuthenticated, currentPage, sidebarCollapsed)
    }

    constructor ()
      ensures State() == InitialSession && user == MockUser
    {
      isAuthenticated, currentPage, sidebarCollapsed := false, "login", false;
      user := MockUser;
    }

    /** `login`: takes no arguments; what callers pass is ignored. */
    method Login()
      modifies this
      ensures State() == SignIn(old(State()))
    {
      isAuthenticated := true;
      currentPage := "dashboard";
    }

    method Logout()
      modifies this
      ensures State() == SignOut(old(State()))
    {
      isAuthenticated := false;
      currentPage := "login";
    }

    method NavigateTo(page: string)
      modifies this
      ensures State() == Navigate(old(State()), page)
    {
      currentPage := page;
    }

    method ToggleSidebar()
      modifies this
      ensures State() == Toggle(old(State()))
    {
      sidebarCollapsed := !sidebarCollapsed;
    }
  }
}
