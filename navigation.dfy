/**
 * The root view switcher of the application (src/App.tsx): two state cells,
 * the current screen name and the selected document id, changed by the
 * navigation and login callbacks, and a dispatch from the screen name to
 * the view that is rendered.
 */
module Navigation {
  import opened Wrappers

  /** The seven screens of the `Screen` union. */
  datatype Screen = Login | Upload | Processing | Dashboard | Document | Search | Insights

  /** What the switcher renders. Only the document view receives data: the selected id. */
  datatype View =
    | LoginView
    | UploadView
    | ProcessingView
    | DashboardView
    | DocumentView(documentId: Option<string>)
    | SearchView
    | InsightsView

  /** The string literal that names each screen in the union. */
  function ScreenName(s: Screen): (name: string)
    ensures name == "login" <==> s == Login
    ensures name == "upload" <==> s == Upload
    ensures name == "processing" <==> s == Processing
    ensures name == "dashboard" <==> s == Dashboard
    ensures name == "document" <==> s == Document
    ensures name == "search" <==> s == Search
    ensures name == "insights" <==> s == Insights
  {
    match s
    case Login => "login"
    case Upload => "upload"
    case Processing => "processing"
    case Dashboard => "dashboard"
    case Document => "document"
    case Search => "search"
    case Insights => "insights"
  }

  /** The screen a name denotes, if it is one of the seven literals of the union. */
  function ParseScreen(name: string): (r: Option<Screen>)
    ensures r.Some? ==> ScreenName(r.value) == name
  {
    if name == "login" then Some(Login)
    else if name == "upload" then Some(Upload)
    else if name == "processing" then Some(Processing)
    else if name == "dashboard" then Some(Dashboard)
    else if name == "document" then Some(Document)
    else if name == "search" then Some(Search)
    else if name == "insights" then Some(Insights)
    else None
  }

  /** Every screen's name is recognised as that screen. */
  lemma ParseScreenName(s: Screen)
    ensures ParseScreen(ScreenName(s)) == Some(s)
  {
  }

  /** The screen a view belongs to. */
  function ViewScreen(v: View): Screen
  {
    match v
    case LoginView => Login
    case UploadView => Upload
    case ProcessingView => Processing
    case DashboardView => Dashboard
    case DocumentView(_) => Document
    case SearchView => Search
    case InsightsView => Insights
  }

  /**
   * The switch of `renderScreen`: each of the seven names selects its own
   * view, any other name falls back to the login view, and the document
   * view is handed exactly the selected document id.
   */
  function RenderScreen(current: string, selected: Option<string>): (v: View)
    ensures ParseScreen(current).Some? ==> ViewScreen(v) == ParseScreen(current).value
    ensures ParseScreen(current).None? ==> v == LoginView
    ensures v.DocumentView? ==> v.documentId == selected
  {
    if current == "login" then LoginView
    else if current == "upload" then UploadView
    else if current == "processing" then ProcessingView
    else if current == "dashboard" then DashboardView
    else if current == "document" then DocumentView(selected)
    else if current == "search" then SearchView
    else if current == "insights" then InsightsView
    else LoginView
  }

  /** Distinct screens are rendered as distinct views, whatever document is selected. */
  lemma RenderScreenInjective(s: Screen, t: Screen, selected: Option<string>)
    requires s != t
    ensures RenderScreen(ScreenName(s), selected) != RenderScreen(ScreenName(t), selected)
  {
  }

  /** The root component's state: `currentScreen` and `selectedDocumentId`. */
  class App {
    /** A string rather than a `Screen`: `handleNavigate` casts whatever name it is given. */
    var currentScreen: string
    var selectedDocumentId: Option<string>

    /** The initial state: the login screen, nothing selected. */
    constructor ()
      ensures currentScreen == ScreenName(Login) && selectedDocumentId == None
      ensures CurrentView() == LoginView
    {
      currentScreen := "login";
      selectedDocumentId := None;
    }

    /** `handleNavigate(screen, docId)`: an omitted `docId` clears the selection. */
    method HandleNavigate(screen: string, docId: Option<string>)
      modifies this
      ensures currentScreen == screen && selectedDocumentId == docId
      ensures CurrentView().DocumentView? ==> CurrentView().documentId == docId
    {
      currentScreen := screen;
      selectedDocumentId := docId;
    }

    /** `handleLogin`: go to the upload screen and keep the selection as it was. */
    method HandleLogin()
      modifies this
      ensures currentScreen == ScreenName(Upload)
      ensures selectedDocumentId == old(selectedDocumentId)
      ensures CurrentView() == UploadView
    {
      currentScreen := "upload";
    }

    /** `renderScreen()` over the current state. */
    function CurrentView(): (v: View)
      reads this
      ensures ParseScreen(currentScreen).None? ==> v == LoginView
      ensures currentScreen == ScreenName(Document) ==> v == DocumentView(selectedDocumentId)
    {
      RenderScreen(currentScreen, selectedDocumentId)
    }
  }
}
