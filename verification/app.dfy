/** The application shell: the login form, the session held by the root
    component, the route guards, the options menu and the search page with
    its simulated search. */
module App {
  import opened Common

  /** The message the login form shows when a field is left empty. */
  const MissingCredentials := "Por favor, ingresa tu usuario y contraseña"

  /** The login form's three state fields. */
  class Login {
    var username: string
    var password: string
    var error: string

    constructor ()
      ensures username == "" && password == "" && error == ""
    {
      username := "";
      password := "";
      error := "";
    }

    /** The `onChange` handler of the user field. */
    method SetUsername(value: string)
      modifies this
      ensures username == value && password == old(password) && error == old(error)
    {
      username := value;
    }

    /** The `onChange` handler of the password field. */
    method SetPassword(value: string)
      modifies this
      ensures password == value && username == old(username) && error == old(error)
    {
      password := value;
    }

    /** Submitting the form: hands the user name to `onLogin` exactly when
        both fields are non-empty (empty strings are falsy), otherwise sets
        the error message. A successful submit leaves an earlier error
        message in place. No credential is checked. */
    method HandleSubmit() returns (submitted: Option<string>)
      modifies this
      ensures submitted.Some? <==> username != "" && password != ""
      ensures submitted.Some? ==> submitted.value == username
      ensures error == (if submitted.Some? then old(error) else MissingCredentials)
      ensures username == old(username) && password == old(password)
    {
      if username != "" && password != "" {
        submitted := Some(username);
      } else {
        error := MissingCredentials;
        submitted := None;
      }
    }
  }

  /** The root component's session state. */
  class Session {
    var isLoggedIn: bool
    var username: string

    /** The state before anyone logs in, and after a logout. */
    predicate Initial()
      reads this
    {
      !isLoggedIn && username == ""
    }

    constructor ()
      ensures Initial()
    {
      isLoggedIn := false;
      username := "";
    }

    method HandleLogin(user: string)
      modifies this
      ensures isLoggedIn && username == user
    {
      username := user;
      isLoggedIn := true;
    }

    method HandleLogout()
      modifies this
      ensures Initial()
    {
      isLoggedIn := false;
      username := "";
    }
  }

  /** A submit of `form` wired to `session` through `onLogin`: the session
      logs in with the form's user name when both fields are filled in, and
      is left exactly as it was otherwise. */
  method SubmitLogin(form: Login, session: Session)
    modifies form, session
    ensures form.username == old(form.username) && form.password == old(form.password)
    ensures if old(form.username) != "" && old(form.password) != "" then
        session.isLoggedIn && session.username == old(form.username) && form.error == old(form.error)
      else
        session.isLoggedIn == old(session.isLoggedIn) && session.username == old(session.username) &&
        form.error == MissingCredentials
  {
    var submitted := form.HandleSubmit();
    if submitted.Some? {
      session.HandleLogin(submitted.value);
    }
  }

  /** Logging in and then out brings the session back to its initial state,
      whoever logged in. */
  method LoginThenLogout(user: string) returns (session: Session)
    ensures fresh(session) && session.Initial()
  {
    session := new Session();
    session.HandleLogin(user);
    assert session.isLoggedIn && session.username == user;
    session.HandleLogout();
  }

  /** The three routes the router declares. */
  datatype Route = Root | Menu | Busqueda(tipoSenal: string)

  /** What a route renders: one of the three pages or a redirect. */
  datatype Element =
    | LoginPage
    | MenuPage(user: string)
    | SearchPage(user: string)
    | Navigate(to: Route)

  /** Matches a path against the declared routes: `/`, `/menu`, and
      `/busqueda/` followed by one non-empty segment. Any other path
      matches no route and renders nothing. */
  function MatchRoute(path: string): (r: Option<Route>)
    ensures r == Some(Root) <==> path == "/"
    ensures r == Some(Menu) <==> path == "/menu"
    ensures r.Some? && r.value.Busqueda? <==>
      |path| > 10 && path[..10] == "/busqueda/" && '/' !in path[10..]
    ensures r.Some? && r.value.Busqueda? ==> "/busqueda/" + r.value.tipoSenal == path
  {
    if path == "/" then Some(Root)
    else if path == "/menu" then Some(Menu)
    else if |path| > 10 && path[..10] == "/busqueda/" && '/' !in path[10..] then
      Some(Busqueda(path[10..]))
    else None
  }

  /** The element each route renders for the session `(isLoggedIn, username)`:
      the root shows the login form to a visitor and sends a logged-in user
      to the menu; the menu and the search page are shown, greeting the
      user, only when logged in and otherwise send the visitor to the root. */
  function RouteElement(route: Route, isLoggedIn: bool, username: string): (e: Element)
    ensures e.Navigate? <==> (route.Root? <==> isLoggedIn)
    ensures e.Navigate? ==> e.to == (if isLoggedIn then Menu else Root)
    ensures e == LoginPage <==> route.Root? && !isLoggedIn
    ensures e.MenuPage? <==> route.Menu? && isLoggedIn
    ensures e.SearchPage? <==> route.Busqueda? && isLoggedIn
    ensures e.MenuPage? || e.SearchPage? ==> e.user == username
  {
    match route
    case Root => if isLoggedIn then Navigate(Menu) else LoginPage
    case Menu => if isLoggedIn then MenuPage(username) else Navigate(Root)
    case Busqueda(_) => if isLoggedIn then SearchPage(username) else Navigate(Root)
  }

  /** Redirects never chain: following a redirect once reaches a page, the
      menu for a logged-in user and the login form for a visitor. */
  lemma RedirectsSettle(route: Route, isLoggedIn: bool, username: string)
    ensures var e := RouteElement(route, isLoggedIn, username);
      e.Navigate? ==>
        RouteElement(e.to, isLoggedIn, username) ==
          (if isLoggedIn then MenuPage(username) else LoginPage)
  {
  }

  /** One entry of the options menu. */
  datatype Opcion = Opcion(id: string, nombre: string, icono: string)

  /** The two menu options, in display order. */
  const Opciones := [
    Opcion("ecg", "Electrocardiograma (ECG)", "\U{2764}\U{FE0F}"),
    Opcion("espirometria", "Espirometría", "\U{1FAC1}")
  ]

  /** The link of a menu option, `/busqueda/<id>`. */
  function Href(o: Opcion): string
  {
    "/busqueda/" + o.id
  }

  /** The search page's heading for a path: `'ecg'` in the path gives the
      ECG title, otherwise `'espirometria'` gives the spirometry title, and
      any other path leaves the current heading as it is. */
  function SearchTitle(current: string, path: string): (title: string)
    ensures PathKind(path) == Some(Ecg) ==> title == Opciones[0].nombre
    ensures PathKind(path) == Some(Espirometria) ==> title == Opciones[1].nombre
    ensures PathKind(path) == None ==> title == current
  {
    match PathKind(path)
    case Some(Ecg) => "Electrocardiograma (ECG)"
    case Some(Espirometria) => "Espirometría"
    case None => current
  }

  /** The menu offers exactly two options. Each option's link is a path
      that matches the search route for the option's own id, and the
      heading the search page derives from that path is the option's name,
      whatever heading it had before. Whether the search page is shown at
      all depends on the session in place when the path is loaded; see
      `FollowMenuLink`. */
  lemma MenuLinks(current: string)
    ensures |Opciones| == 2
    ensures Href(Opciones[0]) == "/busqueda/ecg" && Href(Opciones[1]) == "/busqueda/espirometria"
    ensures forall k :: 0 <= k < |Opciones| ==>
      MatchRoute(Href(Opciones[k])) == Some(Busqueda(Opciones[k].id)) &&
      SearchTitle(current, Href(Opciones[k])) == Opciones[k].nombre
  {
    OptionHrefs();
    forall k | 0 <= k < |Opciones|
      ensures MatchRoute(Href(Opciones[k])) == Some(Busqueda(Opciones[k].id))
      ensures SearchTitle(current, Href(Opciones[k])) == Opciones[k].nombre
    {
      OptionLink(current, k);
    }
  }

  /** The two options and the links they render. */
  lemma OptionHrefs()
    ensures |Opciones| == 2
    ensures Href(Opciones[0]) == "/busqueda/ecg" && Href(Opciones[1]) == "/busqueda/espirometria"
  {
  }

  /** A menu link `/busqueda/<id>` matches the search route for `id`. */
  lemma LinkRoute(o: Opcion)
    requires o.id != [] && '/' !in o.id
    ensures MatchRoute(Href(o)) == Some(Busqueda(o.id))
  {
    var path := Href(o);
    assert path[..10] == "/busqueda/" && path[10..] == o.id;
  }

  /** Option `k`'s link reaches the search route for its id, headed with
      its name. */
  lemma OptionLink(current: string, k: nat)
    requires k < 2
    ensures k < |Opciones|
    ensures MatchRoute(Href(Opciones[k])) == Some(Busqueda(Opciones[k].id))
    ensures SearchTitle(current, Href(Opciones[k])) == Opciones[k].nombre
  {
    if k == 0 {
      EcgLink();
    } else {
      EspirometriaLink();
    }
  }

  /** The ECG option's link leads to the search route `ecg`, whose path
      is classified as ECG. */
  lemma EcgLink()
    ensures MatchRoute(Href(Opciones[0])) == Some(Busqueda("ecg"))
    ensures PathKind(Href(Opciones[0])) == Some(Ecg)
  {
    var path := Href(Opciones[0]);
    LinkRoute(Opciones[0]);
    assert path[10..] == "ecg";
    ContainsAt(path, "ecg", 10);
  }

  /** The spirometry option's link leads to the search route
      `espirometria`, whose path is classified as spirometry: it contains
      `espirometria` and, having no `g`, not `ecg`. */
  lemma EspirometriaLink()
    ensures MatchRoute(Href(Opciones[1])) == Some(Busqueda("espirometria"))
    ensures PathKind(Href(Opciones[1])) == Some(Espirometria)
  {
    LinkRoute(Opciones[1]);
    EspirometriaLinkNamesIt();
    EspirometriaLinkLacksEcg();
  }

  lemma EspirometriaLinkNamesIt()
    ensures Contains(Href(Opciones[1]), "espirometria")
  {
    var path := Href(Opciones[1]);
    assert path[10..] == "espirometria";
    ContainsAt(path, "espirometria", 10);
  }

  lemma EspirometriaLinkLacksEcg()
    ensures !Contains(Href(Opciones[1]), "ecg")
  {
    assert 'g' !in "/busqueda/" && 'g' !in Opciones[1].id;
    MissingChar(Href(Opciones[1]), "ecg", 'g');
  }

  /** Following a menu link as the menu renders it. The link is a plain
      `<a href>`, not a router link, so the browser loads the document at
      the link's path: the root component mounts again with a new session,
      and the search route sends the now logged-out visitor back to the
      root, which shows the login form. The session held before the click,
      logged in or not, plays no part. */
  method FollowMenuLink(k: nat) returns (e: Element)
    requires k < 2
    ensures e == Navigate(Root)
    ensures RouteElement(e.to, false, "") == LoginPage
  {
    OptionLink("", k);
    var reloaded := new Session();
    var route := MatchRoute(Href(Opciones[k]));
    e := RouteElement(route.value, reloaded.isLoggedIn, reloaded.username);
  }

  /** Following a menu link with client-side navigation, as the menu is
      evidently meant to work: the session is kept, so a logged-in user
      reaches the search page for the option, greeted by name and headed
      with the option's name. */
  method FollowMenuLinkIntended(session: Session, current: string, k: nat) returns (e: Element, title: string)
    requires k < 2 && session.isLoggedIn
    ensures e == SearchPage(session.username)
    ensures title == Opciones[k].nombre
  {
    OptionLink(current, k);
    var path := Href(Opciones[k]);
    var route := MatchRoute(path);
    e := RouteElement(route.value, session.isLoggedIn, session.username);
    title := SearchTitle(current, path);
  }

  /** One row of the simulated search result. */
  datatype Resultado = Resultado(id: int, paciente: string, fecha: string, edad: int, genero: string)

  /** The fixed rows every search returns. */
  const SenalesFicticias := [
    Resultado(1, "Juan Pérez", "2025-04-15", 45, "M"),
    Resultado(2, "María López", "2025-04-10", 32, "F"),
    Resultado(3, "Carlos Gómez", "2025-04-05", 60, "M")
  ]

  /** What the results panel shows. */
  datatype ResultsPanel = Cargando | Tabla(rows: seq<Resultado>) | SinResultados

  /** The search page's five state fields. */
  class PaginaBusqueda {
    var busqueda: string
    var filtroFecha: string
    var resultados: seq<Resultado>
    var tipoSenal: string
    var cargando: bool

    constructor ()
      ensures busqueda == "" && filtroFecha == "" && resultados == [] && tipoSenal == "" && !cargando
    {
      busqueda := "";
      filtroFecha := "";
      resultados := [];
      tipoSenal := "";
      cargando := false;
    }

    method SetBusqueda(value: string)
      modifies this
      ensures busqueda == value
      ensures filtroFecha == old(filtroFecha) && resultados == old(resultados)
      ensures tipoSenal == old(tipoSenal) && cargando == old(cargando)
    {
      busqueda := value;
    }

    method SetFiltroFecha(value: string)
      modifies this
      ensures filtroFecha == value
      ensures busqueda == old(busqueda) && resultados == old(resultados)
      ensures tipoSenal == old(tipoSenal) && cargando == old(cargando)
    {
      filtroFecha := value;
    }

    /** The mount effect: sets the heading from the current path. */
    method DeterminarTipoSenal(path: string)
      modifies this
      ensures tipoSenal == SearchTitle(old(tipoSenal), path)
      ensures busqueda == old(busqueda) && filtroFecha == old(filtroFecha)
      ensures resultados == old(resultados) && cargando == old(cargando)
    {
      tipoSenal := SearchTitle(tipoSenal, path);
    }

    /** Pressing "Buscar": the panel switches to loading; the results
        arrive when the timer fires. */
    method BuscarSenales()
      modifies this
      ensures cargando
      ensures busqueda == old(busqueda) && filtroFecha == old(filtroFecha)
      ensures resultados == old(resultados) && tipoSenal == old(tipoSenal)
    {
      cargando := true;
    }

    /** The search timer firing: the fixed rows replace the results,
        whatever was typed in the filters, and loading ends. */
    method CompleteSearch()
      modifies this
      ensures resultados == SenalesFicticias && !cargando
      ensures busqueda == old(busqueda) && filtroFecha == old(filtroFecha) && tipoSenal == old(tipoSenal)
    {
      resultados := SenalesFicticias;
      cargando := false;
    }

    /** The results panel: the loading text while a search runs, else a
        table with one row per result, else the no-results message. */
    function View(): (v: ResultsPanel)
      reads this
      ensures v == Cargando <==> cargando
      ensures v.Tabla? <==> !cargando && |resultados| > 0
      ensures v == SinResultados <==> !cargando && resultados == []
      ensures v.Tabla? ==> v.rows == resultados
    {
      if cargando then Cargando
      else if |resultados| > 0 then Tabla(resultados)
      else SinResultados
    }
  }

  /** The simulated result has three rows with the distinct ids 1, 2 and 3,
      so the table's row keys are unique. */
  lemma FixtureRows()
    ensures |SenalesFicticias| == 3
    ensures forall k :: 0 <= k < 3 ==> SenalesFicticias[k].id == k + 1
    ensures forall i, j :: 0 <= i < j < |SenalesFicticias| ==> SenalesFicticias[i].id != SenalesFicticias[j].id
  {
  }

  /** A whole search on a page: the panel shows loading between the click
      and the timer, then the table of the three fixed rows, whatever the
      filters hold. */
  method Search(page: PaginaBusqueda)
    modifies page
    ensures page.View() == Tabla(SenalesFicticias) && |page.View().rows| == 3
    ensures page.busqueda == old(page.busqueda) && page.filtroFecha == old(page.filtroFecha)
    ensures page.tipoSenal == old(page.tipoSenal)
  {
    page.BuscarSenales();
    assert page.View() == Cargando;
    page.CompleteSearch();
  }
}
