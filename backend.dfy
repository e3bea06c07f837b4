/**
 * The back end's advice pipeline (core/views.py): the desktop client's
 * ingest endpoint, the personal agent that analyses the last sample of
 * each batch, the score update that follows it, and the deduplicated
 * proactive advice. The tables live in a `Store` whose methods change them
 * as the views do; each method is proved against a function on the table
 * snapshot (`Db`), and the lemmas state what the source promises of those
 * functions.
 */
module Backend {
  import opened Wrappers
  import opened Text
  import opened Models
  import opened Rules

  // ------------------------------------------------------- agent queries

  /** The title words of the coding and communication counts. */
  const IdesConsulta: seq<string> := ["vscode", "pycharm", "visual studio"]
  const ComunicacionConsulta: seq<string> := ["outlook", "teams", "slack"]

  /** The user's samples since `desde` whose title contains one of `palabras`. */
  function ConTitulo(u: UserId, desde: Instant, palabras: seq<string>): Filtro {
    Filtro(Some(u), Some(desde), None, None, Some(palabras), None)
  }

  /** The five counts the contextual branches read at time `now`: "word" in
      the last two hours, "excel" in the last hour, "chrome" in the last 30
      minutes, a coding title in the last two hours and a communication
      title in the last hour. The last two are what the `__icontains__in`
      queries evidently intend (see `AnalizarActividadTalCual`). */
  function ConteosContextoDe(rows: seq<ActividadUsuario>, u: UserId, now: Instant): ConteosContexto {
    ConteosContexto(
      CountOf(rows, ConTitulo(u, now - 2 * SecondsPerHour, ["word"])),
      CountOf(rows, ConTitulo(u, now - SecondsPerHour, ["excel"])),
      CountOf(rows, ConTitulo(u, now - 30 * SecondsPerMinute, ["chrome"])),
      CountOf(rows, ConTitulo(u, now - 2 * SecondsPerHour, IdesConsulta)),
      CountOf(rows, ConTitulo(u, now - SecondsPerHour, ComunicacionConsulta)))
  }

  /** The user's samples from one hour before `ts` on, optionally with one label. */
  function UltimaHora(u: UserId, ts: Instant, etiqueta: Option<string>): Filtro {
    Filtro(Some(u), Some(ts - SecondsPerHour), None, etiqueta, None, None)
  }

  /** The user's samples on the calendar day of `ts`. */
  function MismoDia(u: UserId, ts: Instant): Filtro {
    Filtro(Some(u), None, Some(DateOf(ts)), None, None, None)
  }

  /** The three advice lists of the personal agent, kept apart because the
      analysis record stores their lengths. */
  datatype ConsejosAgente = ConsejosAgente(contextuales: seq<string>, productividad: seq<string>, tiempo: seq<string>)
  {
    function Todos(): seq<string> {
      contextuales + productividad + tiempo
    }
  }

  /** The agent's advice for sample `a` of user `u` at time `now`: the
      contextual rule reads the current hour, the pattern and working-time
      rules read the sample's own time. */
  function ConsejosDe(rows: seq<ActividadUsuario>, u: UserId, a: ActividadUsuario, now: Instant): ConsejosAgente {
    var ts := a.timestamp;
    ConsejosAgente(
      ConsejosContextuales(Lower(a.ventanaActiva), ConteosContextoDe(rows, u, now), HourOf(now)),
      ConsejosPatron(CountOf(rows, UltimaHora(u, ts, Some("productive"))),
                     CountOf(rows, UltimaHora(u, ts, Some("unproductive"))),
                     CountOf(rows, UltimaHora(u, ts, Some("gaming"))),
                     CountOf(rows, UltimaHora(u, ts, None)),
                     HourOf(ts)),
      ConsejosTiempo(CountOf(rows, MismoDia(u, ts)), HourOf(ts)))
  }

  // ------------------------------------------------------- statistics update

  /** The user's productive samples on the calendar day of `now`. */
  function ProductivasHoy(rows: seq<ActividadUsuario>, u: UserId, now: Instant): nat {
    CountOf(rows, Filtro(Some(u), None, Some(DateOf(now)), Some("productive"), None, None))
  }

  /** `actualizar_estadisticas_inteligentes` on the statistics table:
      `get_or_create` creates the user's row when there is none and updates
      it when there is one; with several rows it raises, the error is
      caught, and nothing changes. */
  function ActualizarEstadisticas(stats: seq<Estadistica>, rows: seq<ActividadUsuario>,
                                  u: UserId, productividad: string, now: Instant): (r: seq<Estadistica>)
    ensures |EstadisticasDe(stats, u)| == 0 ==> r == stats + [EstadisticaTras(None, u, productividad, ProductivasHoy(rows, u, now), now)]
    ensures |EstadisticasDe(stats, u)| > 1 ==> r == stats
    ensures |EstadisticasDe(stats, u)| == 1 ==> |r| == |stats| && forall i :: 0 <= i < |r| ==>
      r[i] == if stats[i].usuario == u then EstadisticaTras(Some(stats[i]), u, productividad, ProductivasHoy(rows, u, now), now)
              else stats[i]
  {
    var mias := EstadisticasDe(stats, u);
    var hoy := ProductivasHoy(rows, u, now);
    if |mias| == 0 then stats + [EstadisticaTras(None, u, productividad, hoy, now)]
    else if |mias| == 1 then
      seq(|stats|, i requires 0 <= i < |stats| =>
            if stats[i].usuario == u then EstadisticaTras(Some(stats[i]), u, productividad, hoy, now) else stats[i])
    else stats
  }

  /** Replacing each of `u`'s rows by a row of `u` keeps the rows of every
      other user and the number of `u`'s rows. */
  lemma {:induction false} ReemplazoConservaOtros(stats: seq<Estadistica>, r: seq<Estadistica>, u: UserId, w: UserId)
    requires |r| == |stats|
    requires forall i :: 0 <= i < |r| ==> (stats[i].usuario == u ==> r[i].usuario == u) && (stats[i].usuario != u ==> r[i] == stats[i])
    ensures w != u ==> EstadisticasDe(r, w) == EstadisticasDe(stats, w)
    ensures |EstadisticasDe(r, u)| == |EstadisticasDe(stats, u)|
    decreases |stats|
  {
    if |stats| > 0 {
      ReemplazoConservaOtros(stats[1..], r[1..], u, w);
    }
  }

  /** The rows of `u` in `stats + extra` are those of `stats` followed by those of `extra`. */
  lemma {:induction false} EstadisticasDeAppend(stats: seq<Estadistica>, extra: seq<Estadistica>, u: UserId)
    ensures EstadisticasDe(stats + extra, u) == EstadisticasDe(stats, u) + EstadisticasDe(extra, u)
    decreases |stats|
  {
    if |stats| > 0 {
      assert (stats + extra)[0] == stats[0];
      assert (stats + extra)[1..] == stats[1..] + extra;
      EstadisticasDeAppend(stats[1..], extra, u);
    } else {
      assert stats + extra == extra;
    }
  }

  lemma EstadisticasDeUna(e: Estadistica, u: UserId)
    ensures EstadisticasDe([e], u) == if e.usuario == u then [e] else []
  {
    assert [e][1..] == [];
  }

  /** Two rows of `u` make at least two statistics of `u`. */
  lemma DosFilas(stats: seq<Estadistica>, u: UserId, a: int, b: int)
    requires 0 <= a < b < |stats| && stats[a].usuario == u && stats[b].usuario == u
    ensures |EstadisticasDe(stats, u)| >= 2
  {
    var izq, der := stats[..b], stats[b..];
    assert stats == izq + der;
    EstadisticasDeAppend(izq, der, u);
    var x, y := izq[a], der[0];
    assert x.usuario == u && y.usuario == u;
    assert x in izq && y in der;
    assert x in EstadisticasDe(izq, u) && y in EstadisticasDe(der, u);
  }

  /** When `u` has exactly one row and it sits at `k`, no other row is `u`'s. */
  lemma UnicaFila(stats: seq<Estadistica>, u: UserId, k: int)
    requires 0 <= k < |stats| && stats[k].usuario == u
    requires |EstadisticasDe(stats, u)| == 1
    ensures forall j :: 0 <= j < |stats| && j != k ==> stats[j].usuario != u
  {
    forall j | 0 <= j < |stats| && j != k ensures stats[j].usuario != u {
      if stats[j].usuario == u {
        var a := if j < k then j else k;
        var b := if j < k then k else j;
        DosFilas(stats, u, a, b);
        assert false;
      }
    }
  }

  /** Reading one more row counts it when it is `u`'s. */
  lemma EstadisticasDeSiguiente(stats: seq<Estadistica>, i: nat, u: UserId)
    requires i < |stats|
    ensures |EstadisticasDe(stats[..i + 1], u)| == |EstadisticasDe(stats[..i], u)| + if stats[i].usuario == u then 1 else 0
  {
    var previas, x := stats[..i], stats[i];
    assert stats[..i + 1] == previas + [x];
    EstadisticasDeAppend(previas, [x], u);
    EstadisticasDeUna(x, u);
  }

  /** The lookup behind `get_or_create`: how many rows belong to `u` and,
      when there is one, where the first sits. */
  method BuscarEstadisticas(stats: seq<Estadistica>, u: UserId) returns (encontradas: nat, k: nat)
    ensures encontradas == |EstadisticasDe(stats, u)|
    ensures encontradas > 0 ==> k < |stats| && stats[k].usuario == u
  {
    encontradas, k := 0, 0;
    for i := 0 to |stats|
      invariant encontradas == |EstadisticasDe(stats[..i], u)|
      invariant encontradas > 0 ==> k < i && stats[k].usuario == u
    {
      EstadisticasDeSiguiente(stats, i, u);
      if stats[i].usuario == u {
        if encontradas == 0 {
          k := i;
        }
        encontradas := encontradas + 1;
      }
    }
    assert stats[..|stats|] == stats;
  }

  /** The update leaves every other user's statistics as they were, and a
      user with at most one row has exactly one afterwards, holding the
      updated score, which stays in [0, 100] when it started there. */
  lemma ActualizarEstadisticasCorrecto(stats: seq<Estadistica>, rows: seq<ActividadUsuario>,
                                       u: UserId, productividad: string, now: Instant, w: UserId)
    ensures w != u ==> EstadisticasDe(ActualizarEstadisticas(stats, rows, u, productividad, now), w) == EstadisticasDe(stats, w)
    ensures |EstadisticasDe(stats, u)| <= 1 ==> |EstadisticasDe(ActualizarEstadisticas(stats, rows, u, productividad, now), u)| == 1
    ensures |EstadisticasDe(stats, u)| <= 1 && (forall e :: e in stats && e.usuario == u ==> 0 <= e.puntaje <= PuntajeMaximo) ==>
      forall e :: e in ActualizarEstadisticas(stats, rows, u, productividad, now) && e.usuario == u ==> 0 <= e.puntaje <= PuntajeMaximo
  {
    var r := ActualizarEstadisticas(stats, rows, u, productividad, now);
    var hoy := ProductivasHoy(rows, u, now);
    var n := |EstadisticasDe(stats, u)|;
    if n == 0 {
      var nueva := EstadisticaTras(None, u, productividad, hoy, now);
      EstadisticasDeAppend(stats, [nueva], u);
      EstadisticasDeAppend(stats, [nueva], w);
      assert EstadisticasDe([nueva], u) == [nueva];
      assert w != u ==> EstadisticasDe([nueva], w) == [];
      assert EstadisticasDe(stats, u) == [];
      assert forall e :: e in r && e.usuario == u ==> e == nueva;
    } else if n == 1 {
      ReemplazoConservaOtros(stats, r, u, w);
      if forall e :: e in stats && e.usuario == u ==> 0 <= e.puntaje <= PuntajeMaximo {
        forall e | e in r && e.usuario == u ensures 0 <= e.puntaje <= PuntajeMaximo {
          var i :| 0 <= i < |r| && r[i] == e;
          assert stats[i] in stats;
        }
      }
    }
  }

  // ------------------------------------------------------- personal agent

  /** `analizar_actividad_proactiva` for sample `a` of user `u`: when any of
      the three rules advises, one agent analysis joining the tips with ". "
      is recorded and the user's statistics are updated; otherwise nothing
      changes. */
  function AnalizarActividad(db: Db, u: UserId, a: ActividadUsuario, now: Instant): Db {
    var c := ConsejosDe(db.actividades, u, a, now);
    if c.Todos() == [] then db
    else
      var registro := IAAnalisis(u, Join(". ", c.Todos()),
                                 AgentePersonal(a.ventanaActiva, |c.contextuales|, |c.productividad|, |c.tiempo|, a.timestamp),
                                 now);
      db.(analisis := db.analisis + [registro],
          estadisticas := ActualizarEstadisticas(db.estadisticas, db.actividades, u, a.productividad, now))
  }

  /** The agent as written: for a coding or communication title the count
      query uses `__icontains__in`, which Django rejects with a field error;
      the error is caught and printed, so no analysis is recorded and the
      statistics stay as they were. */
  function AnalizarActividadTalCual(db: Db, u: UserId, a: ActividadUsuario, now: Instant): Db {
    var g := GrupoDe(Lower(a.ventanaActiva));
    if g == Desarrollo || g == Comunicacion then db
    else AnalizarActividad(db, u, a, now)
  }

  /** The agent records at most one analysis, of the agent kind, for `u` at
      time `now`, and it records one exactly when some rule advises; then it
      also updates the statistics as `actualizar_estadisticas_inteligentes`
      does, reading the samples as they were. Users, records and samples are
      never touched. */
  lemma AnalizarActividadCorrecto(db: Db, u: UserId, a: ActividadUsuario, now: Instant)
    ensures var r := AnalizarActividad(db, u, a, now);
      && r.usuarios == db.usuarios && r.registros == db.registros && r.actividades == db.actividades
      && (ConsejosDe(db.actividades, u, a, now).Todos() == [] <==> r == db)
      && (r != db ==>
            |r.analisis| == |db.analisis| + 1 && r.analisis[..|db.analisis|] == db.analisis
            && var x := r.analisis[|db.analisis|];
               x.usuario == u && x.fechaAnalisis == now
               && x.patrones == AgentePersonal(a.ventanaActiva, |ConsejosDe(db.actividades, u, a, now).contextuales|,
                                               |ConsejosDe(db.actividades, u, a, now).productividad|,
                                               |ConsejosDe(db.actividades, u, a, now).tiempo|, a.timestamp)
               && x.recomendacion == Join(". ", ConsejosDe(db.actividades, u, a, now).Todos())
               && r.estadisticas == ActualizarEstadisticas(db.estadisticas, db.actividades, u, a.productividad, now))
  {
    var r := AnalizarActividad(db, u, a, now);
    if ConsejosDe(db.actividades, u, a, now).Todos() != [] {
      assert |r.analisis| == |db.analisis| + 1;
    }
  }

  /** A coding or communication title always draws advice, yet the code as
      written records nothing for it. */
  lemma TalCualCallaEnIdesYComunicacion(db: Db, u: UserId, a: ActividadUsuario, now: Instant)
    requires GrupoDe(Lower(a.ventanaActiva)) in {Desarrollo, Comunicacion}
    ensures AnalizarActividadTalCual(db, u, a, now) == db
    ensures |AnalizarActividad(db, u, a, now).analisis| == |db.analisis| + 1
  {
    var c := ConsejosDe(db.actividades, u, a, now);
    assert |c.contextuales| >= 1;
    assert c.Todos() != [];
  }

  const TituloVSCode: string := "vscode"

  /** The title is already lower case. */
  lemma TituloVSCodeMinusculas()
    ensures Lower(TituloVSCode) == TituloVSCode
  {
    var v := TituloVSCode;
    forall i | 0 <= i < |v| ensures Lower(v)[i] == v[i] {
      assert LowerChar(v[i]) == v[i];
    }
  }

  /** The title falls in the coding group: it names no writing application,
      no spreadsheet and no browser, and it contains "vscode". */
  lemma TituloVSCodeSinEscritura()
    ensures !AnyContains(TituloVSCode, EscrituraApps)
  {
    var v := TituloVSCode;
    forall k | 0 <= k < |EscrituraApps| ensures !Contains(v, EscrituraApps[k]) {
      if k == 0 { MissingCharNotContained(v, "word", 'w'); }
      else if k == 1 { MissingCharNotContained(v, "excel", 'x'); }
      else if k == 7 { MissingCharNotContained(v, "notion", 't'); }
      else { assert |EscrituraApps[k]| > |v|; }
    }
  }

  lemma TituloVSCodeSinNavegador()
    ensures !AnyContains(TituloVSCode, Navegadores)
  {
    var v := TituloVSCode;
    forall k | 0 <= k < |Navegadores| ensures !Contains(v, Navegadores[k]) {
      if k == 0 { MissingCharNotContained(v, "chrome", 'h'); }
      else if k == 1 { assert |Navegadores[k]| > |v|; }
      else if k == 2 { MissingCharNotContained(v, "edge", 'g'); }
      else if k == 3 { MissingCharNotContained(v, "safari", 'f'); }
      else { MissingCharNotContained(v, "opera", 'r'); }
    }
  }

  lemma TituloVSCodeEsDesarrollo()
    ensures GrupoDe(TituloVSCode) == Desarrollo
  {
    var v := TituloVSCode;
    assert Contains(v, "vscode") by { ContainsWitness(v, "vscode", 0); }
    AnyContainsWitness(v, Ides, 0);
    TituloVSCodeSinEscritura();
    MissingCharNotContained(v, "excel", 'x');
    MissingCharNotContained(v, "spreadsheet", 'p');
    TituloVSCodeSinNavegador();
  }

  /** A concrete sample: a Visual Studio Code window draws advice, and the
      code as written records none. */
  lemma TalCualCallaEnVSCode(db: Db, u: UserId, a: ActividadUsuario, now: Instant)
    requires a.ventanaActiva == TituloVSCode
    ensures AnalizarActividadTalCual(db, u, a, now) == db
    ensures AnalizarActividad(db, u, a, now) != db
  {
    TituloVSCodeMinusculas();
    TituloVSCodeEsDesarrollo();
    TalCualCallaEnIdesYComunicacion(db, u, a, now);
  }

  // ------------------------------------------------------- ingest

  /** One sample as the client sends it; a missing key is None. */
  datatype Entrada = Entrada(
    timestamp: Option<Instant>,
    activeWindow: Option<string>,
    topProcesses: Option<seq<ProcesoInfo>>,
    systemLoad: Option<map<string, int>>,
    productivity: Option<string>)

  /** The row `create()` stores for an entry with a timestamp: the missing
      keys take their defaults ("Desconocido", [], {}, "neutral"). */
  function Fila(e: Entrada, u: UserId, machineId: string, now: Instant): (a: ActividadUsuario)
    requires e.timestamp.Some?
    ensures a.usuario == Some(u) && a.machineId == machineId && a.timestamp == e.timestamp.value
    ensures a.ventanaActiva == if e.activeWindow.Some? then e.activeWindow.value else "Desconocido"
    ensures a.productividad == if e.productivity.Some? then e.productivity.value else "neutral"
    ensures a.fechaCreacion == now
  {
    ActividadUsuario(Some(u), machineId, e.timestamp.value, e.activeWindow.GetOr("Desconocido"),
                     e.topProcesses.GetOr([]), e.systemLoad.GetOr(map[]), e.productivity.GetOr("neutral"), now)
  }

  /** The index of the first entry without a timestamp, or the length. */
  function PrimeraSinFecha(es: seq<Entrada>): (k: nat)
    ensures k <= |es|
    ensures forall j :: 0 <= j < k ==> es[j].timestamp.Some?
    ensures k < |es| ==> es[k].timestamp.None?
    decreases |es|
  {
    if |es| == 0 || es[0].timestamp.None? then 0 else 1 + PrimeraSinFecha(es[1..])
  }

  /** The rows of the first `k` entries, all of which carry a timestamp. */
  function Filas(es: seq<Entrada>, k: nat, u: UserId, machineId: string, now: Instant): (r: seq<ActividadUsuario>)
    requires k <= |es| && forall j :: 0 <= j < k ==> es[j].timestamp.Some?
    ensures |r| == k
    ensures forall j :: 0 <= j < k ==> r[j] == Fila(es[j], u, machineId, now)
  {
    seq(k, j requires 0 <= j < k => Fila(es[j], u, machineId, now))
  }

  /** Storing one more entry appends its row. */
  lemma FilaSiguiente(es: seq<Entrada>, k: nat, u: UserId, machineId: string, now: Instant)
    requires k < |es| && forall j :: 0 <= j <= k ==> es[j].timestamp.Some?
    ensures Filas(es, k + 1, u, machineId, now) == Filas(es, k, u, machineId, now) + [Fila(es[k], u, machineId, now)]
  {
  }

  /** The status of `actividad_usuario_api`. */
  datatype Respuesta =
    | Creadas(n: nat)          // 201
    | FaltanDatos              // 400: machineId or activities missing or empty
    | UsuarioNoEncontrado      // 404
    | ErrorInterno             // 500: a sample without timestamp fails NOT NULL

  datatype Ingesta = Ingesta(db: Db, respuesta: Respuesta)

  /** `actividad_usuario_api`: the rows are created one by one outside any
      transaction, so when an entry lacks its timestamp the rows before it
      stay stored and the request fails; when all are stored, the agent
      analyses the last one. */
  function Ingerir(db: Db, machineId: Option<string>, userId: Option<UserId>, es: seq<Entrada>, now: Instant): Ingesta {
    if machineId.None? || machineId.value == "" || es == [] then Ingesta(db, FaltanDatos)
    else if userId.None? || UsuarioPorId(db.usuarios, userId.value).None? then Ingesta(db, UsuarioNoEncontrado)
    else
      var k := PrimeraSinFecha(es);
      var filas := Filas(es, k, userId.value, machineId.value, now);
      var db1 := db.(actividades := db.actividades + filas);
      if k < |es| then Ingesta(db1, ErrorInterno)
      else Ingesta(AnalizarActividad(db1, userId.value, filas[k - 1], now), Creadas(|es|))
  }

  /** The outcomes of the ingest endpoint: a rejected request changes
      nothing; a failed one keeps the rows stored before the first entry
      without timestamp and records no analysis; a successful one stores one
      row per entry, in order, and records at most one analysis. Users and
      records are never touched. */
  lemma IngerirCorrecto(db: Db, machineId: Option<string>, userId: Option<UserId>, es: seq<Entrada>, now: Instant)
    ensures var r := Ingerir(db, machineId, userId, es, now);
      && r.db.usuarios == db.usuarios && r.db.registros == db.registros
      && ((machineId.None? || machineId == Some("") || es == []) <==> r.respuesta == FaltanDatos)
      && (r.respuesta in {FaltanDatos, UsuarioNoEncontrado} ==> r.db == db)
      && (r.respuesta == UsuarioNoEncontrado <==>
            r.respuesta != FaltanDatos && (userId.None? || UsuarioPorId(db.usuarios, userId.value).None?))
      && (r.respuesta == ErrorInterno <==>
            r.respuesta != FaltanDatos && r.respuesta != UsuarioNoEncontrado && exists j :: 0 <= j < |es| && es[j].timestamp.None?)
      && (r.respuesta == ErrorInterno ==>
            r.db.actividades == db.actividades + Filas(es, PrimeraSinFecha(es), userId.value, machineId.value, now)
            && r.db.analisis == db.analisis && r.db.estadisticas == db.estadisticas)
      && (r.respuesta.Creadas? ==>
            r.respuesta.n == |es| && PrimeraSinFecha(es) == |es|
            && var filas := Filas(es, |es|, userId.value, machineId.value, now);
               var db1 := db.(actividades := db.actividades + filas);
               && r.db == AnalizarActividad(db1, userId.value, filas[|es| - 1], now)
               && filas[|es| - 1] == Fila(es[|es| - 1], userId.value, machineId.value, now)
               && r.db.actividades == db1.actividades
               && |db.analisis| <= |r.db.analisis| <= |db.analisis| + 1)
  {
    var r := Ingerir(db, machineId, userId, es, now);
    if r.respuesta.Creadas? {
      var k := PrimeraSinFecha(es);
      var filas := Filas(es, k, userId.value, machineId.value, now);
      AnalizarActividadCorrecto(db.(actividades := db.actividades + filas), userId.value, filas[k - 1], now);
    }
  }

  // ------------------------------------------------------- proactive advice

  /** An analysis of the proactive kind for `u` in the five minutes before `now`. */
  predicate ProactivoReciente(analisis: seq<IAAnalisis>, u: UserId, now: Instant) {
    exists x :: x in analisis && x.usuario == u && x.patrones.Proactivo? && x.fechaAnalisis >= now - 5 * SecondsPerMinute
  }

  datatype Proactiva = Proactiva(db: Db, consejo: Option<string>)

  /** `generar_consejos_proactivos` for user `u` at time `now`. It reads the
      newest sample of the user; without one there is no advice. With
      several statistics rows `.get()` raises, the error is caught, and
      there is no advice. Advice already given in the last five minutes
      suppresses new advice; otherwise the tips are joined with " | ",
      recorded as a proactive analysis and returned. */
  function GenerarConsejosProactivos(db: Db, u: UserId, now: Instant): Proactiva {
    var reciente := Newest(Select(db.actividades, PorUsuario(u)));
    var mias := EstadisticasDe(db.estadisticas, u);
    if reciente.None? || |mias| > 1 then Proactiva(db, None)
    else
      var a := reciente.value;
      var consejos := ConsejosProactivosDe(db.actividades, u, a, if |mias| == 0 then None else Some(mias[0].puntaje), now);
      if consejos == [] || ProactivoReciente(db.analisis, u, now) then Proactiva(db, None)
      else
        var texto := Join(" | ", consejos);
        var registro := IAAnalisis(u, texto, Proactivo(a.ventanaActiva, HourOf(now), EnApp(db.actividades, u, a, now), now), now);
        Proactiva(db.(analisis := db.analisis + [registro]), Some(texto))
  }

  /** The user's samples of the last 30 minutes with the newest sample's
      title, compared case-insensitively. */
  function EnApp(rows: seq<ActividadUsuario>, u: UserId, a: ActividadUsuario, now: Instant): nat {
    CountOf(rows, Filtro(Some(u), Some(now - 30 * SecondsPerMinute), None, None, None, Some(a.ventanaActiva)))
  }

  /** The proactive tips for newest sample `a`, given the user's score (None
      without statistics): the productive share is read over the last hour. */
  function ConsejosProactivosDe(rows: seq<ActividadUsuario>, u: UserId, a: ActividadUsuario,
                                puntaje: Option<int>, now: Instant): seq<string> {
    ConsejosProactivos(Lower(a.ventanaActiva), EnApp(rows, u, a, now),
                       CountOf(rows, Filtro(Some(u), Some(now - SecondsPerHour), None, Some("productive"), None, None)),
                       CountOf(rows, Filtro(Some(u), Some(now - SecondsPerHour), None, None, None, None)),
                       HourOf(now), puntaje)
  }

  /** Advice is returned exactly when one proactive analysis of `u`, dated
      `now` and holding the returned text, is appended; only the analysis
      table ever changes. */
  lemma ConsejoSiiRegistro(db: Db, u: UserId, now: Instant)
    ensures var r := GenerarConsejosProactivos(db, u, now);
      && r.db.usuarios == db.usuarios && r.db.registros == db.registros
      && r.db.estadisticas == db.estadisticas && r.db.actividades == db.actividades
      && (r.consejo.None? <==> r.db == db)
      && (r.consejo.Some? <==>
            |r.db.analisis| == |db.analisis| + 1 && r.db.analisis[..|db.analisis|] == db.analisis
            && r.db.analisis[|db.analisis|].usuario == u
            && r.db.analisis[|db.analisis|].fechaAnalisis == now
            && r.db.analisis[|db.analisis|].patrones.Proactivo?
            && r.db.analisis[|db.analisis|].recomendacion == r.consejo.value)
  {
    var r := GenerarConsejosProactivos(db, u, now);
    if r.consejo.Some? {
      assert |r.db.analisis| == |db.analisis| + 1;
    }
  }

  /** A proactive analysis of `u` in the last five minutes suppresses new
      advice, whatever recorded it, and nothing is recorded. */
  lemma ProactivoRecienteSuprime(db: Db, u: UserId, now: Instant)
    requires ProactivoReciente(db.analisis, u, now)
    ensures GenerarConsejosProactivos(db, u, now) == Proactiva(db, None)
  {
  }

  /** A user without samples gets no advice and nothing is recorded. */
  lemma SinActividadSinConsejo(db: Db, u: UserId, now: Instant)
    requires forall x :: x in db.actividades ==> x.usuario != Some(u)
    ensures GenerarConsejosProactivos(db, u, now) == Proactiva(db, None)
  {
  }

  /** No duplicate advice: once advice was given at `now`, asking again for
      the same user at any time up to five minutes later gives none and
      records nothing. */
  lemma SinDuplicados(db: Db, u: UserId, now: Instant, despues: Instant)
    requires GenerarConsejosProactivos(db, u, now).consejo.Some?
    requires now <= despues <= now + 5 * SecondsPerMinute
    ensures var db1 := GenerarConsejosProactivos(db, u, now).db;
      GenerarConsejosProactivos(db1, u, despues) == Proactiva(db1, None)
  {
    var db1 := GenerarConsejosProactivos(db, u, now).db;
    ConsejoSiiRegistro(db, u, now);
    var x := db1.analisis[|db.analisis|];
    assert x in db1.analisis;
    ProactivoRecienteSuprime(db1, u, despues);
  }

  /** A user with samples, no statistics yet and no recent proactive advice
      always gets advice, and it includes the welcome tip. */
  lemma BienvenidaSinEstadistica(db: Db, u: UserId, now: Instant)
    requires exists x :: x in db.actividades && x.usuario == Some(u)
    requires forall e :: e in db.estadisticas ==> e.usuario != u
    requires !ProactivoReciente(db.analisis, u, now)
    ensures GenerarConsejosProactivos(db, u, now).consejo.Some?
  {
    var x :| x in db.actividades && x.usuario == Some(u);
    var propias := Select(db.actividades, PorUsuario(u));
    assert x in propias;
    var a := Newest(propias).value;
    assert EstadisticasDe(db.estadisticas, u) == [];
    var rows := db.actividades;
    SinEstadisticaSiempreAconseja(Lower(a.ventanaActiva), EnApp(rows, u, a, now),
      CountOf(rows, Filtro(Some(u), Some(now - SecondsPerHour), None, Some("productive"), None, None)),
      CountOf(rows, Filtro(Some(u), Some(now - SecondsPerHour), None, None, None, None)),
      HourOf(now));
    assert ConsejosProactivosDe(rows, u, a, None, now) != [];
  }

  // ------------------------------------------------------- the store

  /** The application's tables, changed in place by the views. */
  class Store {
    var usuarios: seq<Usuario>
    var registros: seq<Registro>
    var estadisticas: seq<Estadistica>
    var analisis: seq<IAAnalisis>
    var actividades: seq<ActividadUsuario>

    function Snapshot(): Db
      reads this
    {
      Db(usuarios, registros, estadisticas, analisis, actividades)
    }

    constructor(db: Db)
      ensures Snapshot() == db
    {
      usuarios := db.usuarios;
      registros := db.registros;
      estadisticas := db.estadisticas;
      analisis := db.analisis;
      actividades := db.actividades;
    }

    /** `actividad_usuario_api`: validates the request, stores one row per
        entry in order, then lets the agent analyse the last row. */
    method ActividadUsuarioApi(machineId: Option<string>, userId: Option<UserId>, es: seq<Entrada>, now: Instant)
      returns (r: Respuesta)
      modifies this
      ensures Ingerir(old(Snapshot()), machineId, userId, es, now) == Ingesta(Snapshot(), r)
    {
      if machineId.None? || machineId.value == "" || es == [] {
        return FaltanDatos;
      }
      if userId.None? || UsuarioPorId(usuarios, userId.value).None? {
        return UsuarioNoEncontrado;
      }
      var u := userId.value;
      ghost var antes := Snapshot();
      var k := GuardarFilas(u, machineId.value, es, now);
      ghost var filas := Filas(es, k, u, machineId.value, now);
      assert Snapshot() == antes.(actividades := antes.actividades + filas);
      if k < |es| {
        return ErrorInterno;
      }
      var ultima := Fila(es[k - 1], u, machineId.value, now);
      assert ultima == filas[k - 1];
      AnalizarActividadProactiva(u, ultima, now);
      return Creadas(|es|);
    }

    /** Stores one row per entry, in order, up to the first entry without a
        timestamp, and returns how many were stored. */
    method GuardarFilas(u: UserId, machineId: string, es: seq<Entrada>, now: Instant) returns (k: nat)
      modifies this
      ensures k == PrimeraSinFecha(es)
      ensures Snapshot() == old(Snapshot()).(actividades := old(actividades) + Filas(es, k, u, machineId, now))
    {
      k := 0;
      while k < |es| && es[k].timestamp.Some?
        invariant k <= PrimeraSinFecha(es)
        invariant Snapshot() == old(Snapshot()).(actividades := old(actividades) + Filas(es, k, u, machineId, now))
      {
        FilaSiguiente(es, k, u, machineId, now);
        actividades := actividades + [Fila(es[k], u, machineId, now)];
        k := k + 1;
      }
    }

    /** `analizar_actividad_proactiva`: evaluate the three rules for sample
        `a`; when they advise, record one agent analysis and update the
        user's statistics. */
    method AnalizarActividadProactiva(u: UserId, a: ActividadUsuario, now: Instant)
      modifies this
      ensures Snapshot() == AnalizarActividad(old(Snapshot()), u, a, now)
    {
      var c := ConsejosDe(actividades, u, a, now);
      var todos := c.contextuales + c.productividad + c.tiempo;
      if todos != [] {
        analisis := analisis + [IAAnalisis(u, Join(". ", todos),
                                           AgentePersonal(a.ventanaActiva, |c.contextuales|, |c.productividad|, |c.tiempo|, a.timestamp),
                                           now)];
        ActualizarEstadisticasInteligentes(u, a.productividad, now);
      }
    }

    /** `actualizar_estadisticas_inteligentes`: `get_or_create` looks the
        user's statistics up; none gives a fresh row, exactly one is updated
        in place, several make the lookup raise and nothing changes. */
    method ActualizarEstadisticasInteligentes(u: UserId, productividad: string, now: Instant)
      modifies this
      ensures Snapshot() == old(Snapshot()).(estadisticas := ActualizarEstadisticas(old(estadisticas), old(actividades), u, productividad, now))
    {
      var hoy := ProductivasHoy(actividades, u, now);
      var stats := estadisticas;
      var encontradas, k := BuscarEstadisticas(stats, u);
      if encontradas == 0 {
        estadisticas := stats + [EstadisticaTras(None, u, productividad, hoy, now)];
      } else if encontradas == 1 {
        UnicaFila(stats, u, k);
        var stat := EstadisticaTras(Some(stats[k]), u, productividad, hoy, now);
        estadisticas := stats[k := stat];
      }
    }

    /** `consejos_proactivos_api`: runs `generar_consejos_proactivos` for the
        requesting user on the stored tables and answers with the advice
        text, or with None ("no advice available"). */
    method ConsejosProactivosApi(u: UserId, now: Instant) returns (consejo: Option<string>)
      modifies this
      ensures GenerarConsejosProactivos(old(Snapshot()), u, now) == Proactiva(Snapshot(), consejo)
    {
      var r := GenerarConsejosProactivos(Snapshot(), u, now);
      analisis := r.db.analisis;
      return r.consejo;
    }
  }
}
