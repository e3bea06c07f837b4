/**
 * The desktop monitor's main process (sara-monitor): it classifies the
 * foreground application, picks the busiest processes, buffers samples and
 * ships them to the back end in batches, and holds the logged-in user and the
 * sampling timer.
 *
 * CPU and memory figures are kept in thousandths of a percent, so the
 * client's `cpu > 0.1` test is `cpu > 100` and rounding to two decimals is
 * rounding to a multiple of ten.
 */
module Monitor {
  import opened Wrappers
  import opened Text
  import opened Sorting
  import opened Models
  import Backend

  // ------------------------------------------------------------ classification

  const ProductiveApps: seq<string> :=
    ["code", "vscode", "sublime", "notepad++", "excel", "word", "chrome", "firefox", "edge", "outlook", "teams"]

  const UnproductiveApps: seq<string> :=
    ["whatsapp", "telegram", "discord", "steam", "epicgames", "netflix", "youtube", "facebook", "instagram", "twitter"]

  const GamingApps: seq<string> :=
    ["steam", "epicgames", "battle.net", "origin", "uplay", "gog", "minecraft", "valorant", "league", "csgo"]

  /** `analyzeProductivity`: the first list, in the order productive,
      unproductive, gaming, one of whose names occurs in the lower-cased
      window title decides the label; no match is neutral. */
  function AnalyzeProductivity(activeWindow: string): (p: Productividad)
    ensures p == Productive <==> AnyContains(Lower(activeWindow), ProductiveApps)
    ensures p == Neutral <==>
      && !AnyContains(Lower(activeWindow), ProductiveApps)
      && !AnyContains(Lower(activeWindow), UnproductiveApps)
      && !AnyContains(Lower(activeWindow), GamingApps)
  {
    var w := Lower(activeWindow);
    if AnyContains(w, ProductiveApps) then Productive
    else if AnyContains(w, UnproductiveApps) then Unproductive
    else if AnyContains(w, GamingApps) then Gaming
    else Neutral
  }

  /** The label sent to the server is always one of the four declared choices. */
  lemma AnalyzeProductivityLabel(activeWindow: string)
    ensures ProductividadLabel(AnalyzeProductivity(activeWindow)) in ProductividadLabels
    ensures ParseProductividad(ProductividadLabel(AnalyzeProductivity(activeWindow))) == Some(AnalyzeProductivity(activeWindow))
  {
    ProductividadChoices(AnalyzeProductivity(activeWindow));
  }

  /** Unproductive means no productive name occurs and an unproductive one does. */
  lemma UnproductiveSii(activeWindow: string)
    ensures AnalyzeProductivity(activeWindow) == Unproductive <==>
      !AnyContains(Lower(activeWindow), ProductiveApps) && AnyContains(Lower(activeWindow), UnproductiveApps)
  {
  }

  /** "steam" and "epicgames" are on the unproductive list as well as the
      gaming one, and that list is consulted first: a title containing either
      is never classified as gaming. */
  lemma TiendasNuncaGaming(activeWindow: string)
    requires Contains(Lower(activeWindow), "steam") || Contains(Lower(activeWindow), "epicgames")
    ensures AnalyzeProductivity(activeWindow) in {Productive, Unproductive}
  {
    var w := Lower(activeWindow);
    if Contains(w, "steam") {
      AnyContainsWitness(w, UnproductiveApps, 3);
    } else {
      AnyContainsWitness(w, UnproductiveApps, 4);
    }
  }

  /** Consequently a gaming label is only ever earned by one of the other
      eight gaming names. */
  lemma GamingPorOtroJuego(activeWindow: string)
    requires AnalyzeProductivity(activeWindow) == Gaming
    ensures AnyContains(Lower(activeWindow), GamingApps[2..])
  {
    var w := Lower(activeWindow);
    var k :| 0 <= k < |GamingApps| && Contains(w, GamingApps[k]);
    if k < 2 {
      AnyContainsWitness(w, UnproductiveApps, k + 3);
      assert false;
    }
    AnyContainsWitness(w, GamingApps[2..], k - 2);
  }

  /** Lower-casing twice changes nothing more. */
  lemma LowerIdempotent(s: string)
    ensures Lower(Lower(s)) == Lower(s)
  {
  }

  /** The classification ignores letter case. */
  lemma AnalyzeProductivityIgnoraMayusculas(activeWindow: string)
    ensures AnalyzeProductivity(Lower(activeWindow)) == AnalyzeProductivity(activeWindow)
  {
    LowerIdempotent(activeWindow);
  }

  // --------------------------------------------------------- top processes

  /** The `cpu > 0.1` threshold, in thousandths of a percent. */
  const CpuMinimo: int := 100

  /** At most this many processes are reported. */
  const MaxProcesos: nat := 5

  /** `.filter(p => p.cpu > 0.1)`, keeping the order. */
  function Activos(procs: seq<ProcesoInfo>): (r: seq<ProcesoInfo>)
    ensures |r| <= |procs|
    ensures forall x :: x in r <==> x in procs && x.cpu > CpuMinimo
    decreases |procs|
  {
    if |procs| == 0 then []
    else (if procs[0].cpu > CpuMinimo then [procs[0]] else []) + Activos(procs[1..])
  }

  /** The comparator `(a, b) => b.cpu - a.cpu`: busier first. */
  function MasCpu(a: ProcesoInfo, b: ProcesoInfo): bool {
    a.cpu >= b.cpu
  }

  lemma MasCpuIsTotalPreorder()
    ensures TotalPreorder(MasCpu)
  {
  }

  /** The processes `captureActivity` keeps, before rounding: the busy ones,
      busiest first (stable), cut to five. */
  function Seleccion(procs: seq<ProcesoInfo>): seq<ProcesoInfo> {
    Take(SortBy(Activos(procs), MasCpu), MaxProcesos)
  }

  /** The selection is the sorted busy processes cut to five. */
  lemma SeleccionOrdenada(procs: seq<ProcesoInfo>)
    ensures |Seleccion(procs)| <= MaxProcesos
    ensures SortedBy(Seleccion(procs), MasCpu)
  {
    var s := SortBy(Activos(procs), MasCpu);
    MasCpuIsTotalPreorder();
    SortBySorted(Activos(procs), MasCpu);
    assert Seleccion(procs) == s[..|Seleccion(procs)|];
  }

  /** Every selected process is a busy process of the input. */
  lemma SeleccionDeActivos(procs: seq<ProcesoInfo>)
    ensures forall x :: x in Seleccion(procs) ==> x in procs && x.cpu > CpuMinimo
  {
    var s := SortBy(Activos(procs), MasCpu);
    forall x | x in Seleccion(procs) ensures x in procs && x.cpu > CpuMinimo {
      assert x in s;
      assert x in multiset(s);
    }
  }

  /** A busy process left out is no busier than any kept one. */
  lemma SeleccionEsLaMasActiva(procs: seq<ProcesoInfo>)
    ensures forall x, y :: x in Seleccion(procs) && y in procs && y.cpu > CpuMinimo && y !in Seleccion(procs) ==> x.cpu >= y.cpu
  {
    var s := SortBy(Activos(procs), MasCpu);
    MasCpuIsTotalPreorder();
    SortBySorted(Activos(procs), MasCpu);
    forall x, y | x in Seleccion(procs) && y in procs && y.cpu > CpuMinimo && y !in Seleccion(procs) ensures x.cpu >= y.cpu {
      assert y in multiset(Activos(procs));
      assert y in s;
      TakeOfSortedIsTop(s, MaxProcesos, MasCpu, y);
    }
  }

  /** With five or fewer busy processes, all of them are kept. */
  lemma SeleccionCompleta(procs: seq<ProcesoInfo>)
    requires |Activos(procs)| <= MaxProcesos
    ensures multiset(Seleccion(procs)) == multiset(Activos(procs))
  {
  }

  /** The selection holds min(5, n) of the n busy processes, each taken
      from them at most as often as it occurs, in non-increasing CPU order;
      each busy process left out is no busier than any kept one; with five
      or fewer busy processes all are kept. */
  lemma SeleccionCorrecta(procs: seq<ProcesoInfo>)
    ensures |Seleccion(procs)| == if |Activos(procs)| < MaxProcesos then |Activos(procs)| else MaxProcesos
    ensures multiset(Seleccion(procs)) <= multiset(Activos(procs))
    ensures SortedBy(Seleccion(procs), MasCpu)
    ensures forall x :: x in Seleccion(procs) ==> x in procs && x.cpu > CpuMinimo
    ensures forall x, y :: x in Seleccion(procs) && y in procs && y.cpu > CpuMinimo && y !in Seleccion(procs) ==> x.cpu >= y.cpu
    ensures |Activos(procs)| <= MaxProcesos ==> multiset(Seleccion(procs)) == multiset(Activos(procs))
  {
    SeleccionOrdenada(procs);
    SeleccionDeActivos(procs);
    SeleccionEsLaMasActiva(procs);
    if |Activos(procs)| <= MaxProcesos {
      SeleccionCompleta(procs);
    }
  }

  /** `Math.round(x * 100) / 100` on a figure in thousandths of a percent:
      the nearest multiple of ten, halves rounded up. */
  function Centesimas(x: int): (r: int)
    ensures r % 10 == 0
    ensures x - 5 < r <= x + 5
  {
    ((x + 5) / 10) * 10
  }

  /** Rounding is monotone. */
  lemma CentesimasMonotona(x: int, y: int)
    requires x <= y
    ensures Centesimas(x) <= Centesimas(y)
  {
  }

  function Redondeado(p: ProcesoInfo): ProcesoInfo {
    ProcesoInfo(p.name, Centesimas(p.cpu), Centesimas(p.memory))
  }

  /** `topProcesses`: the selection with CPU and memory rounded. */
  function TopProcesses(procs: seq<ProcesoInfo>): (r: seq<ProcesoInfo>)
    ensures |r| == |Seleccion(procs)|
    ensures forall i :: 0 <= i < |r| ==> r[i] == Redondeado(Seleccion(procs)[i])
  {
    seq(|Seleccion(procs)|, i requires 0 <= i < |Seleccion(procs)| => Redondeado(Seleccion(procs)[i]))
  }

  /** What the server receives: at most five entries, named after busy
      processes of the input, still in non-increasing CPU order after
      rounding, each at least 0.1% (a raw 0.101% rounds down to 0.10%) and
      within 0.005 of its raw figure. */
  lemma TopProcessesCorrecto(procs: seq<ProcesoInfo>)
    ensures |TopProcesses(procs)| <= MaxProcesos
    ensures forall i, j :: 0 <= i < j < |TopProcesses(procs)| ==> TopProcesses(procs)[i].cpu >= TopProcesses(procs)[j].cpu
    ensures forall i :: 0 <= i < |TopProcesses(procs)| ==>
      && TopProcesses(procs)[i].cpu >= CpuMinimo
      && exists p :: p in procs && p.cpu > CpuMinimo && p.name == TopProcesses(procs)[i].name
                     && p.cpu - 5 < TopProcesses(procs)[i].cpu <= p.cpu + 5
  {
    var s := Seleccion(procs);
    var r := TopProcesses(procs);
    SeleccionOrdenada(procs);
    SeleccionDeActivos(procs);
    forall i, j | 0 <= i < j < |r| ensures r[i].cpu >= r[j].cpu {
      assert MasCpu(s[i], s[j]);
      CentesimasMonotona(s[j].cpu, s[i].cpu);
    }
    forall i | 0 <= i < |r|
      ensures r[i].cpu >= CpuMinimo
      ensures exists p :: p in procs && p.cpu > CpuMinimo && p.name == r[i].name && p.cpu - 5 < r[i].cpu <= p.cpu + 5
    {
      assert s[i] in s;
      CentesimasMonotona(CpuMinimo, s[i].cpu);
    }
  }

  /** `topProcesses[0]?.name || 'Sistema'`: the busiest selected process's
      name; an empty list or an empty name (falsy) gives "Sistema". */
  function ActiveWindow(top: seq<ProcesoInfo>): (w: string)
    ensures w != "Sistema" ==> |top| > 0 && w == top[0].name
    ensures |top| > 0 && top[0].name != "" ==> w == top[0].name
    ensures |top| == 0 ==> w == "Sistema"
  {
    if |top| > 0 && top[0].name != "" then top[0].name else "Sistema"
  }

  /** The window label names the busiest busy process of the whole input:
      always when every busy process has a name, and whenever the label is
      not "Sistema"; with no process above 0.1% it is "Sistema". */
  lemma ActiveWindowEsElMasActivo(procs: seq<ProcesoInfo>)
    ensures (forall p :: p in procs ==> p.cpu <= CpuMinimo) ==> ActiveWindow(TopProcesses(procs)) == "Sistema"
    ensures ActiveWindow(TopProcesses(procs)) != "Sistema"
            || ((exists p :: p in procs && p.cpu > CpuMinimo) && forall p :: p in procs && p.cpu > CpuMinimo ==> p.name != "") ==>
      exists p :: p in procs && p.name == ActiveWindow(TopProcesses(procs)) && p.cpu > CpuMinimo
                  && forall q :: q in procs && q.cpu > CpuMinimo ==> p.cpu >= q.cpu
  {
    var s := Seleccion(procs);
    SeleccionCorrecta(procs);
    if p :| p in procs && p.cpu > CpuMinimo {
      assert p in Activos(procs);
      assert |s| > 0;
      assert s[0] in s;
    }
    if |s| > 0 {
      var p := s[0];
      assert p in s;
      forall q | q in procs && q.cpu > CpuMinimo ensures p.cpu >= q.cpu {
        if q in s {
          var j :| 0 <= j < |s| && s[j] == q;
          if j > 0 {
            assert MasCpu(s[0], s[j]);
          }
        }
      }
    }
  }

  // --------------------------------------------------------------- capture

  /** One sample as `captureActivity` builds it; its timestamp is the
      client's clock, in milliseconds. */
  datatype Actividad = Actividad(
    timestamp: int,
    activeWindow: string,
    topProcesses: seq<ProcesoInfo>,
    cpuLoad: int,
    cpus: nat,
    productivity: Productividad)

  /** `captureActivity` given what the clock and `systeminformation` report
      (the process list, the current load, the number of cores). */
  function CaptureActivity(now: int, procs: seq<ProcesoInfo>, carga: int, cpus: nat): (a: Actividad)
    ensures a.timestamp == now
    ensures |a.topProcesses| <= MaxProcesos
    ensures a.activeWindow == ActiveWindow(a.topProcesses)
    ensures a.productivity == AnalyzeProductivity(a.activeWindow)
  {
    SeleccionCorrecta(procs);
    var top := TopProcesses(procs);
    var w := ActiveWindow(top);
    Actividad(now, w, top, Centesimas(carga), cpus, AnalyzeProductivity(w))
  }

  /** Milliseconds of the client's clock in one second of the server's. */
  const MsPorSegundo: int := 1000

  /** The JSON object as the server reads it: every key present. The
      timestamp travels as `toISOString()` text, which the server reads back
      as the same instant; its millisecond part falls below the server's
      whole seconds. */
  function ComoEntrada(a: Actividad): (e: Backend.Entrada)
    ensures e.timestamp == Some(a.timestamp / MsPorSegundo)
    ensures e.activeWindow == Some(a.activeWindow) && e.topProcesses == Some(a.topProcesses)
    ensures e.productivity == Some(ProductividadLabel(a.productivity))
  {
    Backend.Entrada(Some(a.timestamp / MsPorSegundo), Some(a.activeWindow), Some(a.topProcesses),
                    Some(map["cpu" := a.cpuLoad, "cpus" := a.cpus]), Some(ProductividadLabel(a.productivity)))
  }

  /** The `activities` array of the post: one entry per buffered sample, in
      order, each carrying its sample's time in whole seconds, its window,
      processes and label. */
  function ComoEntradas(lote: seq<Actividad>): (es: seq<Backend.Entrada>)
    ensures |es| == |lote|
    ensures forall i :: 0 <= i < |lote| ==>
      && es[i].timestamp == Some(lote[i].timestamp / MsPorSegundo)
      && es[i].activeWindow == Some(lote[i].activeWindow)
      && es[i].topProcesses == Some(lote[i].topProcesses)
      && es[i].productivity == Some(ProductividadLabel(lote[i].productivity))
  {
    seq(|lote|, i requires 0 <= i < |lote| => ComoEntrada(lote[i]))
  }

  /** Every captured sample carries its timestamp. */
  lemma CapturasConFecha(lote: seq<Actividad>)
    ensures Backend.PrimeraSinFecha(ComoEntradas(lote)) == |lote|
  {
  }

  /** The rows stored for a captured batch carry each sample's window,
      timestamp and a declared productivity label. */
  lemma FilasCapturadas(lote: seq<Actividad>, u: UserId, machineId: string, now: Instant)
    ensures forall i :: 0 <= i < |lote| ==>
      && Backend.Filas(ComoEntradas(lote), |lote|, u, machineId, now)[i].ventanaActiva == lote[i].activeWindow
      && Backend.Filas(ComoEntradas(lote), |lote|, u, machineId, now)[i].timestamp == lote[i].timestamp / MsPorSegundo
      && Backend.Filas(ComoEntradas(lote), |lote|, u, machineId, now)[i].productividad in ProductividadLabels
  {
    forall i | 0 <= i < |lote|
      ensures Backend.Filas(ComoEntradas(lote), |lote|, u, machineId, now)[i].productividad in ProductividadLabels
    {
      ProductividadChoices(lote[i].productivity);
    }
  }

  /** A captured batch from a logged-in monitor is accepted whole. */
  lemma LoteCapturadoCompleto(db: Db, machineId: string, u: UserId, lote: seq<Actividad>, now: Instant)
    requires machineId != "" && lote != [] && UsuarioPorId(db.usuarios, u).Some?
    ensures var r := Backend.Ingerir(db, Some(machineId), Some(u), ComoEntradas(lote), now);
      && r.respuesta == Backend.Creadas(|lote|)
      && r.db.actividades == db.actividades + Backend.Filas(ComoEntradas(lote), |lote|, u, machineId, now)
  {
    var es := ComoEntradas(lote);
    CapturasConFecha(lote);
    assert es != [];
    Backend.IngerirCorrecto(db, Some(machineId), Some(u), es, now);
  }

  /** A batch sent by a logged-in monitor (non-empty machine id, known user)
      is stored whole: one row per sample, in order, carrying its window and
      a declared productivity label and the sample's time in whole seconds;
      the endpoint never fails on it. */
  lemma LoteCapturadoSeIngiere(db: Db, machineId: string, u: UserId, lote: seq<Actividad>, now: Instant)
    requires machineId != "" && lote != [] && UsuarioPorId(db.usuarios, u).Some?
    ensures var r := Backend.Ingerir(db, Some(machineId), Some(u), ComoEntradas(lote), now);
      && r.respuesta == Backend.Creadas(|lote|)
      && r.db.actividades[..|db.actividades|] == db.actividades
      && |r.db.actividades| == |db.actividades| + |lote|
      && forall i :: 0 <= i < |lote| ==>
           && r.db.actividades[|db.actividades| + i].ventanaActiva == lote[i].activeWindow
           && r.db.actividades[|db.actividades| + i].timestamp == lote[i].timestamp / MsPorSegundo
           && r.db.actividades[|db.actividades| + i].productividad in ProductividadLabels
  {
    LoteCapturadoCompleto(db, machineId, u, lote, now);
    FilasCapturadas(lote, u, machineId, now);
    var filas := Backend.Filas(ComoEntradas(lote), |lote|, u, machineId, now);
    var nuevas := db.actividades + filas;
    assert nuevas[..|db.actividades|] == db.actividades;
    assert forall i :: 0 <= i < |lote| ==> nuevas[|db.actividades| + i] == filas[i];
  }

  /** After storing a captured batch, the agent analyses the row of the
      batch's last sample: the back end's tables are the agent's result on
      the stored rows. */
  lemma LoteCapturadoSeAnaliza(db: Db, machineId: string, u: UserId, lote: seq<Actividad>, now: Instant)
    requires machineId != "" && lote != [] && UsuarioPorId(db.usuarios, u).Some?
    ensures var r := Backend.Ingerir(db, Some(machineId), Some(u), ComoEntradas(lote), now);
      var filas := Backend.Filas(ComoEntradas(lote), |lote|, u, machineId, now);
      && r.db == Backend.AnalizarActividad(db.(actividades := db.actividades + filas), u, filas[|lote| - 1], now)
      && filas[|lote| - 1].ventanaActiva == lote[|lote| - 1].activeWindow
      && filas[|lote| - 1].timestamp == lote[|lote| - 1].timestamp / MsPorSegundo
  {
    var es := ComoEntradas(lote);
    CapturasConFecha(lote);
    Backend.IngerirCorrecto(db, Some(machineId), Some(u), es, now);
    FilasCapturadas(lote, u, machineId, now);
  }

  // ------------------------------------------------------------ login

  /** The user object the login endpoint returns. */
  datatype UsuarioSesion = UsuarioSesion(id: UserId, username: string)

  /** How the login request ended: a 2xx body (with or without a `user`),
      an HTTP error with its status and `error` text, or no response. */
  datatype RespuestaLogin =
    | Exitosa(user: Option<UsuarioSesion>)
    | Rechazada(status: int, error: string)
    | SinRespuesta

  datatype ResultadoLogin = Autenticado(user: UsuarioSesion) | Fallido(error: string)

  /** The message `loginUser` reports for a failed request: a reply
      without a user is invalid, 401 means wrong credentials, another error
      passes the server's `error` text on when there is one, and otherwise,
      as without any reply, the connection failed. */
  function MensajeLogin(r: RespuestaLogin): (m: string)
    ensures r.Exitosa? && r.user.None? ==> m == "Respuesta inválida del servidor"
    ensures r.SinRespuesta? ==> m == "Error de conexión"
    ensures r.Rechazada? && r.status == 401 ==> m == "Usuario o contraseña incorrectos"
    ensures r.Rechazada? && r.status != 401 ==> m == if r.error != "" then r.error else "Error de conexión"
  {
    match r
    case Exitosa(user) => "Respuesta inválida del servidor"
    case Rechazada(status, error) =>
      if status == 401 then "Usuario o contraseña incorrectos"
      else if error != "" then error
      else "Error de conexión"
    case SinRespuesta => "Error de conexión"
  }

  // -------------------------------------------------------------- state

  /** Where a batch that left the buffer went: posted to the server for a
      user, written to a local backup file, or dropped by the clear command. */
  datatype Salida = Enviado(lote: seq<Actividad>, userId: UserId) | Respaldo(lote: seq<Actividad>) | Descartado(lote: seq<Actividad>)

  /** The samples of every batch, in the order they left the buffer. */
  function Aplanar(salidas: seq<Salida>): (r: seq<Actividad>)
    ensures salidas == [] ==> r == []
    decreases |salidas|
  {
    if |salidas| == 0 then [] else Aplanar(salidas[..|salidas| - 1]) + salidas[|salidas| - 1].lote
  }

  /** Recording one more batch appends its samples. */
  lemma AplanarUnaMas(salidas: seq<Salida>, s: Salida)
    ensures Aplanar(salidas + [s]) == Aplanar(salidas) + s.lote
  {
    assert (salidas + [s])[..|salidas|] == salidas;
  }

  /** The buffer holds at least six samples only when a send was not possible. */
  const LoteMinimo: nat := 6

  /** The main process's globals: the sample buffer, whether the sampling
      timer is set, the logged-in user, and a record of where each shipped
      batch went. */
  class Sesion {
    var activityData: seq<Actividad>
    var monitoreando: bool
    var currentUser: Option<UsuarioSesion>
    var salidas: seq<Salida>
    /** Every sample captured so far, in order. */
    ghost var capturadas: seq<Actividad>

    /** No sample is lost or duplicated: the shipped, backed-up or dropped
        batches followed by the buffer are exactly the captured samples; a
        posted batch is never empty. */
    ghost predicate Valid()
      reads this
    {
      && Aplanar(salidas) + activityData == capturadas
      && forall i :: 0 <= i < |salidas| ==> salidas[i].Enviado? ==> salidas[i].lote != []
    }

    constructor()
      ensures Valid()
      ensures activityData == [] && !monitoreando && currentUser.None? && salidas == [] && capturadas == []
    {
      activityData := [];
      monitoreando := false;
      currentUser := None;
      salidas := [];
      capturadas := [];
    }

    /** `loginUser`: a response carrying a user logs it in; every failure
        leaves the session as it was and reports why. */
    method LoginUser(respuesta: RespuestaLogin) returns (r: ResultadoLogin)
      modifies this
      ensures respuesta.Exitosa? && respuesta.user.Some? ==> r == Autenticado(respuesta.user.value) && currentUser == respuesta.user
      ensures !(respuesta.Exitosa? && respuesta.user.Some?) ==> r == Fallido(MensajeLogin(respuesta)) && currentUser == old(currentUser)
      ensures activityData == old(activityData) && monitoreando == old(monitoreando)
      ensures salidas == old(salidas) && capturadas == old(capturadas)
    {
      if respuesta.Exitosa? && respuesta.user.Some? {
        currentUser := respuesta.user;
        r := Autenticado(respuesta.user.value);
      } else {
        r := Fallido(MensajeLogin(respuesta));
      }
    }

    /** The `login-user` handler: an empty username or password is refused
        without asking the server. */
    method LoginIpc(username: string, password: string, respuesta: RespuestaLogin) returns (r: ResultadoLogin)
      modifies this
      ensures (username == "" || password == "") ==> r == Fallido("Usuario y contraseña son requeridos") && currentUser == old(currentUser)
      ensures r.Autenticado? <==> username != "" && password != "" && respuesta.Exitosa? && respuesta.user.Some?
      ensures r.Autenticado? ==> currentUser == Some(r.user)
      ensures r.Fallido? ==> currentUser == old(currentUser)
      ensures activityData == old(activityData) && monitoreando == old(monitoreando)
      ensures salidas == old(salidas) && capturadas == old(capturadas)
    {
      if username == "" || password == "" {
        return Fallido("Usuario y contraseña son requeridos");
      }
      r := LoginUser(respuesta);
    }

    /** `startMonitoring`: sets the timer unless it is already set. */
    method StartMonitoring()
      modifies this
      ensures monitoreando
      ensures activityData == old(activityData) && currentUser == old(currentUser)
      ensures salidas == old(salidas) && capturadas == old(capturadas)
    {
      if monitoreando {
        return;
      }
      monitoreando := true;
    }

    /** The `start-monitoring` handler: refuses when nobody is logged in. */
    method StartMonitoringIpc() returns (ok: bool, error: Option<string>)
      modifies this
      ensures ok <==> old(currentUser).Some?
      ensures !ok ==> error == Some("Usuario no autenticado") && monitoreando == old(monitoreando)
      ensures ok ==> error.None? && monitoreando
      ensures activityData == old(activityData) && currentUser == old(currentUser)
      ensures salidas == old(salidas) && capturadas == old(capturadas)
    {
      if currentUser.None? {
        return false, Some("Usuario no autenticado");
      }
      StartMonitoring();
      return true, None;
    }

    /** `stopMonitoring` (also the `stop-monitoring` handler and the
        before-quit hook): clears the timer; the buffer is kept. */
    method StopMonitoring()
      modifies this
      ensures !monitoreando
      ensures activityData == old(activityData) && currentUser == old(currentUser)
      ensures salidas == old(salidas) && capturadas == old(capturadas)
    {
      monitoreando := false;
    }

    /** `sendActivityData`: with an empty buffer or nobody logged in it does
        nothing; otherwise the whole buffer is posted for the current user,
        or written to a backup file when the post fails, and emptied either way. */
    method SendActivityData(envioOk: bool)
      requires Valid()
      modifies this
      ensures Valid()
      ensures old(activityData) == [] || old(currentUser).None? ==> activityData == old(activityData) && salidas == old(salidas)
      ensures old(activityData) != [] && old(currentUser).Some? ==>
        && activityData == []
        && salidas == old(salidas) + [if envioOk then Enviado(old(activityData), old(currentUser).value.id) else Respaldo(old(activityData))]
      ensures capturadas == old(capturadas) && monitoreando == old(monitoreando) && currentUser == old(currentUser)
    {
      if activityData == [] || currentUser.None? {
        return;
      }
      var salida := if envioOk then Enviado(activityData, currentUser.value.id) else Respaldo(activityData);
      AplanarUnaMas(salidas, salida);
      salidas := salidas + [salida];
      activityData := [];
    }

    /** One firing of the five-second timer, which exists only while
        monitoring: a failed capture changes nothing; otherwise the sample
        is appended and, once the buffer holds six or more, the buffer is
        posted for the current user, or saved locally when the post fails. */
    method Tick(captura: Option<Actividad>, envioOk: bool)
      requires Valid() && monitoreando
      modifies this
      ensures Valid()
      ensures captura.None? ==> activityData == old(activityData) && salidas == old(salidas) && capturadas == old(capturadas)
      ensures captura.Some? ==> capturadas == old(capturadas) + [captura.value]
      ensures captura.Some? && (|old(activityData)| + 1 < LoteMinimo || currentUser.None?) ==>
        activityData == old(activityData) + [captura.value] && salidas == old(salidas)
      ensures captura.Some? && |old(activityData)| + 1 >= LoteMinimo && currentUser.Some? ==>
        && activityData == []
        && salidas == old(salidas) + [if envioOk then Enviado(old(activityData) + [captura.value], currentUser.value.id)
                                      else Respaldo(old(activityData) + [captura.value])]
      ensures currentUser.Some? && |old(activityData)| < LoteMinimo ==> |activityData| < LoteMinimo
      ensures monitoreando == old(monitoreando) && currentUser == old(currentUser)
    {
      if captura.None? {
        return;
      }
      activityData := activityData + [captura.value];
      capturadas := capturadas + [captura.value];
      if |activityData| >= LoteMinimo {
        SendActivityData(envioOk);
      }
    }

    /** The `get-activity-data` handler. */
    method GetActivityData() returns (r: seq<Actividad>)
      ensures r == activityData
    {
      r := activityData;
    }

    /** The `clear-activity-data` handler: the buffer is dropped unsent. */
    method ClearActivityData()
      requires Valid()
      modifies this
      ensures Valid()
      ensures activityData == []
      ensures salidas == old(salidas) + [Descartado(old(activityData))]
      ensures capturadas == old(capturadas) && monitoreando == old(monitoreando) && currentUser == old(currentUser)
    {
      var salida := Descartado(activityData);
      AplanarUnaMas(salidas, salida);
      salidas := salidas + [salida];
      activityData := [];
    }
  }

  /** Shipping preserves the order of capture: the posted and backed-up
      batches, concatenated, are a prefix of what was captured. */
  lemma SalidasEnOrden(salidas: seq<Salida>, buffer: seq<Actividad>, capturadas: seq<Actividad>)
    requires Aplanar(salidas) + buffer == capturadas
    ensures Aplanar(salidas) == capturadas[..|Aplanar(salidas)|]
    ensures buffer == capturadas[|Aplanar(salidas)|..]
  {
  }
}
