/**
 * The floating desktop assistant (asistente-virtual main process): its
 * configuration, the login state, the guards that keep an unauthenticated
 * assistant from talking to the server, the per-application tips and the
 * browser-tab estimate they rely on.
 *
 * Every server answer is a parameter; every request the assistant would make
 * is returned as a value, so "sends nothing" is `None`.
 */
module Assistant {
  import opened Wrappers
  import opened Text

  // ------------------------------------------------------------ tab count

  /** Non-overlapping occurrences of `sep` in `s`, scanning left to right as
      `split` does. */
  function Ocurrencias(s: string, sep: string): nat
    requires |sep| > 0
    decreases |s|
  {
    if |s| < |sep| then 0
    else if s[..|sep|] == sep then 1 + Ocurrencias(s[|sep|..], sep)
    else Ocurrencias(s[1..], sep)
  }

  /** `s.split(sep).length`. */
  function Partes(s: string, sep: string): nat
    requires |sep| > 0
  {
    Ocurrencias(s, sep) + 1
  }

  /** An occurrence in the tail is an occurrence in the whole. */
  lemma ContainsCola(s: string, sep: string)
    requires |s| > 0 && Contains(s[1..], sep)
    ensures Contains(s, sep)
  {
    var i :| 0 <= i <= |s[1..]| - |sep| && OccursAt(s[1..], sep, i);
    assert s[i + 1..i + 1 + |sep|] == s[1..][i..i + |sep|];
    assert OccursAt(s, sep, i + 1);
  }

  /** An occurrence that is not at the front is an occurrence in the tail. */
  lemma ContainsSinFrente(s: string, sep: string)
    requires |sep| > 0 && Contains(s, sep) && !OccursAt(s, sep, 0)
    ensures Contains(s[1..], sep)
  {
    var i :| 0 <= i <= |s| - |sep| && OccursAt(s, sep, i);
    assert i > 0;
    assert s[1..][i - 1..i - 1 + |sep|] == s[i..i + |sep|];
    assert OccursAt(s[1..], sep, i - 1);
  }

  /** Splitting gives more than one part exactly when the separator occurs. */
  lemma {:induction false} OcurrenciasSiiContains(s: string, sep: string)
    requires |sep| > 0
    ensures Ocurrencias(s, sep) > 0 <==> Contains(s, sep)
    decreases |s|
  {
    if |s| < |sep| {
    } else if s[..|sep|] == sep {
      assert OccursAt(s, sep, 0);
    } else {
      OcurrenciasSiiContains(s[1..], sep);
      if Contains(s[1..], sep) {
        ContainsCola(s, sep);
      }
      if Contains(s, sep) {
        ContainsSinFrente(s, sep);
      }
    }
  }

  /** Occurrences do not overlap, so they take up at most the whole string. */
  lemma {:induction false} OcurrenciasCaben(s: string, sep: string)
    requires |sep| > 0
    ensures Ocurrencias(s, sep) * |sep| <= |s|
    decreases |s|
  {
    if |s| < |sep| {
    } else if s[..|sep|] == sep {
      OcurrenciasCaben(s[|sep|..], sep);
    } else {
      OcurrenciasCaben(s[1..], sep);
    }
  }

  /** The separators `countBrowserTabs` tries: " - ", " | " and " – " (en dash). */
  const Indicadores: seq<string> := [" - ", " | ", " – "]

  lemma IndicadoresDeTres()
    ensures forall i :: 0 <= i < |Indicadores| ==> |Indicadores[i]| == 3
  {
  }

  function Max(a: int, b: int): int {
    if a < b then b else a
  }

  /** The running maximum after trying the separators `seps`, starting at 1. */
  function MaxPartes(t: string, seps: seq<string>): (n: nat)
    requires forall i :: 0 <= i < |seps| ==> |seps[i]| > 0
    ensures n >= 1
    decreases |seps|
  {
    if |seps| == 0 then 1
    else Max(MaxPartes(t, seps[..|seps| - 1]), Partes(t, seps[|seps| - 1]))
  }

  /** The estimated number of open tabs for a (lower-cased) window title. */
  function ConteoPestanas(t: string): nat {
    IndicadoresDeTres();
    MaxPartes(t, Indicadores)
  }

  /** The estimate is at least one, is the largest part count over the three
      separators, and is one exactly when no separator occurs. */
  lemma ConteoPestanasCorrecto(t: string)
    ensures ConteoPestanas(t) >= 1
    ensures forall i :: 0 <= i < |Indicadores| ==> ConteoPestanas(t) >= Partes(t, Indicadores[i])
    ensures exists i :: 0 <= i < |Indicadores| && (ConteoPestanas(t) == Partes(t, Indicadores[i]))
    ensures ConteoPestanas(t) == 1 <==> forall i :: 0 <= i < |Indicadores| ==> !Contains(t, Indicadores[i])
  {
    IndicadoresDeTres();
    var a, b, c := Indicadores[0], Indicadores[1], Indicadores[2];
    var ab := Indicadores[..2];
    assert ab == [a, b] && ab[..1] == [a] && [a][..0] == [];
    assert MaxPartes(t, [a]) == Max(1, Partes(t, a));
    assert MaxPartes(t, ab) == Max(MaxPartes(t, [a]), Partes(t, b));
    assert MaxPartes(t, Indicadores) == Max(MaxPartes(t, ab), Partes(t, c));
    OcurrenciasSiiContains(t, a);
    OcurrenciasSiiContains(t, b);
    OcurrenciasSiiContains(t, c);
  }

  /** More than ten estimated tabs needs a title of at least thirty
      characters: ten three-character separators. */
  lemma MuchasPestanasTituloLargo(t: string)
    requires ConteoPestanas(t) > 10
    ensures |t| >= 30
  {
    ConteoPestanasCorrecto(t);
    IndicadoresDeTres();
    var i :| 0 <= i < |Indicadores| && ConteoPestanas(t) == Partes(t, Indicadores[i]);
    OcurrenciasCaben(t, Indicadores[i]);
  }

  /** `countBrowserTabs`: starts at 1 and raises the count to each
      separator's part count in turn. */
  method CountBrowserTabs(windowTitle: string) returns (count: nat)
    ensures count == ConteoPestanas(windowTitle)
  {
    IndicadoresDeTres();
    count := 1;
    for i := 0 to |Indicadores|
      invariant count == MaxPartes(windowTitle, Indicadores[..i])
    {
      assert Indicadores[..i + 1][..i] == Indicadores[..i];
      var parts := Partes(windowTitle, Indicadores[i]);
      if parts > count {
        count := parts;
      }
    }
    assert Indicadores[..|Indicadores|] == Indicadores;
  }

  // ------------------------------------------------------------------ tips

  /** What `active-win` reports: the window title and the owning application. */
  datatype VentanaActiva = VentanaActiva(title: string, ownerName: string)

  const TipExcel := "💡 Tip: Usa Ctrl+S para guardar frecuentemente tu trabajo en Excel"
  const TipWord := "💡 Tip: Usa Ctrl+B para negrita y Ctrl+I para cursiva en Word"
  const TipVSCode := "💡 Tip: Usa Ctrl+Shift+P para abrir la paleta de comandos en VS Code"
  const TipPestanas := "🌐 Tienes muchas pestañas abiertas. Considera organizarlas o cerrar las innecesarias"

  /** More estimated tabs than this earn the browser tip. */
  const MaxPestanas: nat := 10

  const Navegadores: seq<string> := ["chrome", "firefox", "edge"]

  /** `generateContextualAdvice`: Excel (application or title), then Word
      (application or title), then VS Code (application only), then a browser
      (application only) with more than ten estimated tabs; otherwise no tip. */
  function GenerateContextualAdvice(w: VentanaActiva): (r: Option<string>)
    ensures r.Some? ==> r.value in {TipExcel, TipWord, TipVSCode, TipPestanas}
  {
    var app := Lower(w.ownerName);
    var title := Lower(w.title);
    if Contains(app, "excel") || Contains(title, "excel") then Some(TipExcel)
    else if Contains(app, "word") || Contains(title, "word") then Some(TipWord)
    else if Contains(app, "vscode") || Contains(app, "visual studio") then Some(TipVSCode)
    else if AnyContains(app, Navegadores) && ConteoPestanas(title) > MaxPestanas then Some(TipPestanas)
    else None
  }

  /** Each tip is chosen exactly when its own test passes and every earlier
      one fails, and there is no tip exactly when all four fail; the tab tip
      needs a title of at least thirty characters. */
  lemma PrecedenciaConsejos(w: VentanaActiva)
    ensures var app := Lower(w.ownerName); var title := Lower(w.title);
      var excel := Contains(app, "excel") || Contains(title, "excel");
      var word := Contains(app, "word") || Contains(title, "word");
      var vscode := Contains(app, "vscode") || Contains(app, "visual studio");
      var pestanas := AnyContains(app, Navegadores) && ConteoPestanas(title) > MaxPestanas;
      && (GenerateContextualAdvice(w) == Some(TipExcel) <==> excel)
      && (GenerateContextualAdvice(w) == Some(TipWord) <==> !excel && word)
      && (GenerateContextualAdvice(w) == Some(TipVSCode) <==> !excel && !word && vscode)
      && (GenerateContextualAdvice(w) == Some(TipPestanas) <==> !excel && !word && !vscode && pestanas)
      && (GenerateContextualAdvice(w).None? <==> !excel && !word && !vscode && !pestanas)
      && (GenerateContextualAdvice(w) == Some(TipPestanas) ==> |title| >= 30)
  {
    var title := Lower(w.title);
    if GenerateContextualAdvice(w) == Some(TipPestanas) {
      MuchasPestanasTituloLargo(title);
    }
  }

  /** A browser whose title shows ten tabs or fewer gets no tip unless an
      earlier rule matches; in particular a title shorter than thirty
      characters never earns the tab tip. */
  lemma NavegadorConPocasPestanas(w: VentanaActiva)
    requires ConteoPestanas(Lower(w.title)) <= MaxPestanas || |w.title| < 30
    ensures GenerateContextualAdvice(w) != Some(TipPestanas)
  {
    if ConteoPestanas(Lower(w.title)) > MaxPestanas {
      MuchasPestanasTituloLargo(Lower(w.title));
    }
  }

  // ---------------------------------------------------------- configuration

  /** A JSON value as the configuration holds it. */
  datatype Valor = Nulo | Booleano(b: bool) | Numero(x: real) | Texto(s: string) | Posicion(px: Option<int>, py: Option<int>)

  type Config = map<string, Valor>

  /** JavaScript truthiness; a missing key reads as `undefined`, which is falsy. */
  function Truthy(c: Config, k: string): bool {
    k in c &&
      match c[k]
      case Nulo => false
      case Booleano(b) => b
      case Numero(x) => x != 0.0
      case Texto(s) => s != ""
      case Posicion(_, _) => true
  }

  /** `defaultConfig`, with the `API_URL` environment variable (empty when unset). */
  function DefaultConfig(apiUrlEnv: string): (c: Config)
    ensures Truthy(c, "autoStart") && Truthy(c, "showNotifications") && Truthy(c, "proactiveAdvice")
    ensures "authToken" in c && c["authToken"] == Nulo && "userId" in c && c["userId"] == Nulo
    ensures "apiUrl" in c && c["apiUrl"] == Texto(if apiUrlEnv != "" then apiUrlEnv else "http://localhost:8000/api")
  {
    map[
      "apiUrl" := Texto(if apiUrlEnv != "" then apiUrlEnv else "http://localhost:8000/api"),
      "authToken" := Nulo,
      "userId" := Nulo,
      "theme" := Texto("dark"),
      "opacity" := Numero(0.9),
      "position" := Posicion(None, Some(50)),
      "autoStart" := Booleano(true),
      "showNotifications" := Booleano(true),
      "proactiveAdvice" := Booleano(true),
      "adviceInterval" := Numero(120000.0),
      "systemMonitorInterval" := Numero(30000.0),
      "reconnectInterval" := Numero(5000.0)]
  }

  /** Object spread `{ ...base, ...nueva }`: every key of `nueva` takes its
      new value, every other key of `base` keeps its old one, and no other
      key appears. */
  function Fusionar(base: Config, nueva: Config): (r: Config)
    ensures forall k :: k in r <==> k in base || k in nueva
    ensures forall k :: k in nueva ==> r[k] == nueva[k]
    ensures forall k :: k in base && k !in nueva ==> r[k] == base[k]
  {
    base + nueva
  }

  /** Merging in an empty object changes nothing, and merging twice the same
      object is merging it once. */
  lemma FusionarIdempotente(base: Config, nueva: Config)
    ensures Fusionar(base, map[]) == base
    ensures Fusionar(Fusionar(base, nueva), nueva) == Fusionar(base, nueva)
  {
  }

  /** `${id}` for an integer. */
  function IdTexto(id: int): string {
    if id < 0 then "-" + Decimal(-id) else Decimal(id)
  }

  /** The simplified token the assistant sends. */
  function Token(id: int): string {
    "Bearer " + IdTexto(id)
  }

  /** Different users get different tokens. */
  lemma TokenInyectivo(a: int, b: int)
    requires Token(a) == Token(b)
    ensures a == b
  {
    assert IdTexto(a) == Token(a)[7..] && IdTexto(b) == Token(b)[7..];
    DecimalValue(if a < 0 then -a else a);
    DecimalValue(if b < 0 then -b else b);
    if a < 0 && b < 0 {
      assert Decimal(-a) == IdTexto(a)[1..];
      assert Decimal(-b) == IdTexto(b)[1..];
    }
  }

  // -------------------------------------------------------------- requests

  /** The user object the login endpoint returns. */
  datatype UsuarioAuth = UsuarioAuth(id: int, username: string)

  /** How the login request ended: an HTTP answer (its `ok` flag, the `user`
      and the `error` of the body) or an exception (no connection, no JSON). */
  datatype RespuestaAuth = Http(ok: bool, user: Option<UsuarioAuth>, error: string) | Excepcion

  datatype ResultadoAuth = Autenticado(user: UsuarioAuth) | Fallido(error: string)

  /** The JSON body of a request: none (a GET), a chat message, or an
      activity sample with its window, application, client time in
      milliseconds and, for the background sample, its kind. */
  datatype Cuerpo =
    | SinCuerpo
    | Mensaje(mensaje: string)
    | Muestra(ventanaActiva: string, aplicacion: string, timestamp: int, tipo: Option<string>)

  /** A request the assistant sends: the endpoint path, the `Authorization`
      header it carries and its body. */
  datatype Peticion = Peticion(ruta: string, autorizacion: Valor, cuerpo: Cuerpo)

  /** The sample a headless assistant sends at time `now`. */
  function MuestraFondo(now: int): Cuerpo {
    Muestra("Sistema Docker", "SARA Monitor", now, Some("background_monitoring"))
  }

  /** The sample sent for a newly focused window at time `now`. */
  function MuestraVentana(w: VentanaActiva, now: int): Cuerpo {
    Muestra(w.title, w.ownerName, now, None)
  }

  /** What `sendMessage` hands back: the server's body, or an error. */
  datatype RespuestaMensaje = Datos(cuerpo: string) | ErrorMensaje(error: string)

  /** The longest advice text shown in a notification before it is cut. */
  const MaxAviso: nat := 100

  /** The assistant's state: the configuration, the `config` entry of the
      persistent store, the login flag, the last application seen, headless
      mode and whether the two timers (system monitoring and advice
      polling) are set. */
  class SaraAsistenteVirtual {
    var config: Config
    var almacen: Config
    var isAuthenticated: bool
    var currentApp: Option<string>
    var isHeadless: bool
    var monitoreoActivo: bool
    var consejosActivos: bool

    /** The stored configuration is laid over the defaults; no timer is
        set yet. */
    constructor(guardada: Config, apiUrlEnv: string, headless: bool)
      ensures config == Fusionar(DefaultConfig(apiUrlEnv), guardada) && almacen == guardada
      ensures !isAuthenticated && currentApp.None? && isHeadless == headless
      ensures !monitoreoActivo && !consejosActivos
    {
      config := Fusionar(DefaultConfig(apiUrlEnv), guardada);
      almacen := guardada;
      isAuthenticated := false;
      currentApp := None;
      isHeadless := headless;
      monitoreoActivo := false;
      consejosActivos := false;
    }

    /** `init`, once the application is ready: both timers are set. */
    method Init()
      modifies this
      ensures monitoreoActivo && consejosActivos
      ensures config == old(config) && almacen == old(almacen) && isAuthenticated == old(isAuthenticated)
      ensures currentApp == old(currentApp) && isHeadless == old(isHeadless)
    {
      monitoreoActivo := true;
      consejosActivos := true;
    }

    /** The `set-config` handler: merges, stores and returns the result. */
    method SetConfig(nueva: Config) returns (r: Config)
      modifies this
      ensures config == Fusionar(old(config), nueva) && almacen == config && r == config
      ensures isAuthenticated == old(isAuthenticated) && currentApp == old(currentApp)
      ensures isHeadless == old(isHeadless) && monitoreoActivo == old(monitoreoActivo) && consejosActivos == old(consejosActivos)
    {
      config := Fusionar(config, nueva);
      almacen := config;
      r := config;
    }

    /** `authenticate`: an `ok` answer with a user logs in, storing the
        token and the user id; any other answer reports the server's error
        (or a generic one) and changes nothing. Neither timer is set again. */
    method Authenticate(respuesta: RespuestaAuth) returns (r: ResultadoAuth)
      modifies this
      ensures respuesta.Http? && respuesta.ok && respuesta.user.Some? ==>
        && r == Autenticado(respuesta.user.value)
        && isAuthenticated
        && config == old(config)["authToken" := Texto(Token(respuesta.user.value.id))]["userId" := Numero(respuesta.user.value.id as real)]
        && almacen == config
      ensures !(respuesta.Http? && respuesta.ok && respuesta.user.Some?) ==>
        && config == old(config) && almacen == old(almacen) && isAuthenticated == old(isAuthenticated)
        && r == Fallido(if respuesta.Excepcion? then "Error de conexión"
                        else if respuesta.error != "" then respuesta.error else "Error de autenticación")
      ensures currentApp == old(currentApp) && isHeadless == old(isHeadless)
      ensures monitoreoActivo == old(monitoreoActivo) && consejosActivos == old(consejosActivos)
    {
      if respuesta.Excepcion? {
        return Fallido("Error de conexión");
      }
      if respuesta.ok && respuesta.user.Some? {
        var u := respuesta.user.value;
        isAuthenticated := true;
        config := config["authToken" := Texto(Token(u.id))];
        config := config["userId" := Numero(u.id as real)];
        almacen := config;
        return Autenticado(u);
      }
      r := Fallido(if respuesta.error != "" then respuesta.error else "Error de autenticación");
    }

    /** `logout`: clears the login, the token and the user id, stores the
        configuration and stops both timers. */
    method Logout()
      modifies this
      ensures !isAuthenticated
      ensures config == old(config)["authToken" := Nulo]["userId" := Nulo] && almacen == config
      ensures !monitoreoActivo && !consejosActivos
      ensures currentApp == old(currentApp) && isHeadless == old(isHeadless)
    {
      isAuthenticated := false;
      config := config["authToken" := Nulo]["userId" := Nulo];
      almacen := config;
      monitoreoActivo := false;
      consejosActivos := false;
    }

    /** The token the next request would carry. */
    function Autorizacion(): Valor
      reads this
    {
      if "authToken" in config then config["authToken"] else Nulo
    }

    /** `sendMessage`: refused without a login; otherwise posts the message
        and returns the server's body, or a connection error. */
    method SendMessage(mensaje: string, servidor: Option<string>) returns (r: RespuestaMensaje, enviada: Option<Peticion>)
      ensures !isAuthenticated ==> r == ErrorMensaje("No autenticado") && enviada.None?
      ensures isAuthenticated ==> enviada == Some(Peticion("/asistente/chat/", Autorizacion(), Mensaje(mensaje)))
      ensures isAuthenticated ==> r == if servidor.Some? then Datos(servidor.value) else ErrorMensaje("Error de conexión")
    {
      if !isAuthenticated {
        return ErrorMensaje("No autenticado"), None;
      }
      enviada := Some(Peticion("/asistente/chat/", Autorizacion(), Mensaje(mensaje)));
      r := if servidor.Some? then Datos(servidor.value) else ErrorMensaje("Error de conexión");
    }

    /** `getProactiveAdvice`: null without a login or on an error; otherwise
        the `consejos` field of the answer (which may itself be null). */
    method GetProactiveAdvice(servidor: Option<Option<string>>) returns (consejo: Option<string>, enviada: Option<Peticion>)
      ensures !isAuthenticated ==> consejo.None? && enviada.None?
      ensures isAuthenticated ==> enviada == Some(Peticion("/consejos-proactivos/", Autorizacion(), SinCuerpo))
      ensures isAuthenticated ==> consejo == if servidor.Some? then servidor.value else None
    {
      if !isAuthenticated {
        return None, None;
      }
      enviada := Some(Peticion("/consejos-proactivos/", Autorizacion(), SinCuerpo));
      consejo := if servidor.Some? then servidor.value else None;
    }

    /** `sendActivity`: nothing leaves an unauthenticated assistant;
        otherwise the sample is posted to "/activity/" with the token. */
    method SendActivity(muestra: Cuerpo) returns (enviada: Option<Peticion>)
      ensures !isAuthenticated <==> enviada.None?
      ensures isAuthenticated ==> enviada == Some(Peticion("/activity/", Autorizacion(), muestra))
    {
      if !isAuthenticated {
        return None;
      }
      enviada := Some(Peticion("/activity/", Autorizacion(), muestra));
    }

    /** One firing of the advice timer: with the timer cleared, without a
        login, or with proactive advice switched off, nothing happens;
        otherwise the advice is asked for with the token, and a non-empty
        advice is shown cut to a hundred characters plus "...". */
    method AdviceTick(servidor: Option<Option<string>>) returns (aviso: Option<string>, enviada: Option<Peticion>)
      ensures !consejosActivos || !isAuthenticated || !Truthy(config, "proactiveAdvice") ==> aviso.None? && enviada.None?
      ensures consejosActivos && isAuthenticated && Truthy(config, "proactiveAdvice") ==>
        && enviada == Some(Peticion("/consejos-proactivos/", Autorizacion(), SinCuerpo))
        && aviso == if servidor.Some? && servidor.value.Some? && servidor.value.value != ""
                    then Some(Abreviar(servidor.value.value, MaxAviso)) else None
      ensures aviso.Some? ==> servidor.Some? && servidor.value.Some? && servidor.value.value != ""
                              && aviso.value == Abreviar(servidor.value.value, MaxAviso)
                              && |aviso.value| <= MaxAviso + 3
    {
      aviso, enviada := None, None;
      if !consejosActivos || !isAuthenticated || !Truthy(config, "proactiveAdvice") {
        return;
      }
      var consejo;
      consejo, enviada := GetProactiveAdvice(servidor);
      if consejo.Some? && consejo.value != "" {
        aviso := Some(Abreviar(consejo.value, MaxAviso));
      }
    }

    /** One firing of the system-monitor timer at client time `now`. With
        the timer cleared or without a login nothing happens. Headless, the
        background sample is sent. Otherwise, when the foreground
        application changed, it is remembered, a sample of its window is
        sent and its tip (if any) is returned; the same application twice in
        a row sends nothing. */
    method MonitorTick(ventana: Option<VentanaActiva>, now: int) returns (tip: Option<string>, enviada: Option<Peticion>)
      modifies this
      ensures !monitoreoActivo || !old(isAuthenticated) ==> tip.None? && enviada.None? && currentApp == old(currentApp)
      ensures monitoreoActivo && old(isAuthenticated) && isHeadless ==>
        tip.None? && enviada == Some(Peticion("/activity/", Autorizacion(), MuestraFondo(now))) && currentApp == old(currentApp)
      ensures monitoreoActivo && old(isAuthenticated) && !isHeadless && ventana.Some? && Some(ventana.value.ownerName) != old(currentApp) ==>
        && currentApp == Some(ventana.value.ownerName)
        && enviada == Some(Peticion("/activity/", Autorizacion(), MuestraVentana(ventana.value, now)))
        && tip == GenerateContextualAdvice(ventana.value)
      ensures !isHeadless && (ventana.None? || Some(ventana.value.ownerName) == old(currentApp)) ==>
        tip.None? && enviada.None? && currentApp == old(currentApp)
      ensures config == old(config) && almacen == old(almacen) && isAuthenticated == old(isAuthenticated)
      ensures isHeadless == old(isHeadless) && monitoreoActivo == old(monitoreoActivo) && consejosActivos == old(consejosActivos)
    {
      tip, enviada := None, None;
      if !monitoreoActivo || !isAuthenticated {
        return;
      }
      if isHeadless {
        enviada := SendActivity(MuestraFondo(now));
        return;
      }
      if ventana.Some? && Some(ventana.value.ownerName) != currentApp {
        currentApp := Some(ventana.value.ownerName);
        enviada := SendActivity(MuestraVentana(ventana.value, now));
        tip := GenerateContextualAdvice(ventana.value);
      }
    }
  }

  /** After a successful login every request carries the user's token, and
      after a logout none is sent. */
  method SesionCompleta(guardada: Config, apiUrlEnv: string, u: UsuarioAuth, mensaje: string)
    returns (antes: Option<Peticion>, durante: Option<Peticion>, despues: Option<Peticion>)
    ensures antes.None?
    ensures durante == Some(Peticion("/asistente/chat/", Texto(Token(u.id)), Mensaje(mensaje)))
    ensures despues.None?
  {
    var a := new SaraAsistenteVirtual(guardada, apiUrlEnv, false);
    var r;
    r, antes := a.SendMessage(mensaje, None);
    var auth := a.Authenticate(Http(true, Some(u), ""));
    r, durante := a.SendMessage(mensaje, None);
    a.Logout();
    r, despues := a.SendMessage(mensaje, None);
  }

  /** Logging out stops both timers for good: after a new login the
      assistant is authenticated again, yet neither timer fires a request. */
  method TimersTrasRelogin(guardada: Config, apiUrlEnv: string, headless: bool, u: UsuarioAuth,
                           ventana: Option<VentanaActiva>, servidor: Option<Option<string>>, now: int)
    returns (autenticado: bool, monitor: Option<Peticion>, consejos: Option<Peticion>)
    ensures autenticado
    ensures monitor.None? && consejos.None?
  {
    var a := new SaraAsistenteVirtual(guardada, apiUrlEnv, headless);
    a.Init();
    var r := a.Authenticate(Http(true, Some(u), ""));
    a.Logout();
    r := a.Authenticate(Http(true, Some(u), ""));
    autenticado := a.isAuthenticated;
    var tip, aviso;
    tip, monitor := a.MonitorTick(ventana, now);
    aviso, consejos := a.AdviceTick(servidor);
  }
}
