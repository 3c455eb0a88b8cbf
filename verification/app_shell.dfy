/** The top-level session state of App.tsx: who is logged in and which
    view is shown, with the login and logout handlers. */
module AppShell {
  import opened Common
  import Login
  import Text

  /** The views of `AppView`. */
  datatype AppView =
    | Dashboard | Chatbot | FindCare | AnalyzeReport
    | SymptomAnalyzer | Emergency | VideoConsult | Medicine

  datatype User = User(name: string, phone: string)

  datatype AppState = AppState(isLoggedIn: bool, currentUser: Option<User>, currentView: AppView, language: string)

  /** The state on start-up, for a given initial language. */
  function InitialState(lang: string): (s: AppState)
    ensures !s.isLoggedIn && s.currentUser.None? && s.currentView == Dashboard && s.language == lang
  {
    AppState(false, None, Dashboard, lang)
  }

  /** `handleLogin(phone, name)`: note the argument order differs from the
      record's. The view is left as it is. */
  function HandleLogin(st: AppState, phone: string, name: string): (r: AppState)
    ensures r.isLoggedIn
    ensures r.currentUser == Some(User(name, phone))
    ensures r.currentView == st.currentView && r.language == st.language
  {
    st.(currentUser := Some(User(name, phone)), isLoggedIn := true)
  }

  /** `handleLogout`: back to the logged-out dashboard; the language stays. */
  function HandleLogout(st: AppState): (r: AppState)
    ensures !r.isLoggedIn && r.currentUser.None? && r.currentView == Dashboard
    ensures r.language == st.language
  {
    st.(isLoggedIn := false, currentUser := None, currentView := Dashboard)
  }

  /** Logging out forgets the login completely. */
  lemma LogoutUndoesLogin(st: AppState, phone: string, name: string)
    ensures HandleLogout(HandleLogin(st, phone, name)) == HandleLogout(st)
  {
  }

  /** A second login replaces the first. */
  lemma LoginOverrides(st: AppState, p1: string, n1: string, p2: string, n2: string)
    ensures HandleLogin(HandleLogin(st, p1, n1), p2, n2) == HandleLogin(st, p2, n2)
  {
  }

  /** From the login form to the session: an accepted form logs in the user
      with the values as typed (untrimmed); a rejected one changes nothing. */
  function SubmitLogin(st: AppState, phone: string, name: string, lang: string): (r: AppState)
    ensures Login.Submit(phone, name, lang).Rejected? ==> r == st
    ensures Login.Submit(phone, name, lang).Accepted? ==>
              r.isLoggedIn && r.currentUser == Some(User(name, phone))
  {
    match Login.Submit(phone, name, lang)
    case Rejected(_) => st
    case Accepted(p, n) => HandleLogin(st, p, n)
  }

  /** A login through the form always records the padded name verbatim. */
  lemma PaddedNameKept(st: AppState, lang: string)
    ensures SubmitLogin(st, "98765", " Asha ", lang).currentUser == Some(User(" Asha ", "98765"))
  {
    assert !Text.IsSpace("98765"[0], Text.Js);
    assert !Text.IsSpace(" Asha "[1], Text.Js);
    assert !Text.IsBlank(" Asha ", Text.Js) by {
      assert !Text.AllSpace(" Asha ", Text.Js);
    }
  }
}
