/**
 * The advice rules of the personal AI agent (core/views.py): which tips each
 * rule gives, as functions of the counts the rule reads from the activity
 * table and of the hour of day, and the score update that follows an analysis.
 * The counts themselves are computed from the stored rows in module Backend.
 */
module Rules {
  import opened Wrappers
  import opened Text
  import opened Models

  /** `p / t < num / den` in exact arithmetic, as a comparison of integers. */
  lemma RatioBelow(p: nat, t: nat, num: nat, den: nat)
    requires t > 0 && den > 0
    ensures (p as real) / (t as real) < (num as real) / (den as real) <==> p * den < num * t
  {
    var r := (p as real) / (t as real);
    var c := (num as real) / (den as real);
    assert r * (t as real) == p as real;
    assert c * (den as real) == num as real;
    assert (p * den) as real == (p as real) * (den as real);
    assert (num * t) as real == (num as real) * (t as real);
    if r < c {
      assert r * (t as real) * (den as real) < c * (t as real) * (den as real);
    } else {
      assert r * (t as real) * (den as real) >= c * (t as real) * (den as real);
    }
  }

  // ------------------------------------------------------- contextual rule

  const EscrituraApps: seq<string> :=
    ["word", "excel", "powerpoint", "notepad", "wordpad", "libreoffice", "google docs", "notion", "evernote"]
  const Navegadores: seq<string> := ["chrome", "firefox", "edge", "safari", "opera"]
  const Ides: seq<string> := ["vscode", "visual studio", "pycharm", "intellij", "eclipse", "sublime", "atom"]
  const ComunicacionApps: seq<string> := ["outlook", "gmail", "teams", "slack", "discord", "whatsapp", "telegram"]

  /** The branch of the contextual rule a lower-cased window title takes. */
  datatype Grupo = Escritura | HojaCalculo | Navegacion | Desarrollo | Comunicacion | Ninguno

  /** The branch `analizar_aplicacion_contextual` takes for lower-cased
      title `v`, in the order writing, spreadsheet, browser, IDE,
      communication; a title matching no list takes none. */
  function GrupoDe(v: string): (g: Grupo)
    ensures g != Ninguno <==>
      AnyContains(v, EscrituraApps) || Contains(v, "spreadsheet") || AnyContains(v, Navegadores)
      || AnyContains(v, Ides) || AnyContains(v, ComunicacionApps)
  {
    ExcelEsEscritura(v);
    if AnyContains(v, EscrituraApps) then Escritura
    else if Contains(v, "excel") || Contains(v, "spreadsheet") then HojaCalculo
    else if AnyContains(v, Navegadores) then Navegacion
    else if AnyContains(v, Ides) then Desarrollo
    else if AnyContains(v, ComunicacionApps) then Comunicacion
    else Ninguno
  }

  /** First matching branch wins: each branch is taken exactly when its own
      test holds and every earlier one fails. */
  lemma GrupoDeEnOrden(v: string)
    ensures GrupoDe(v) == Escritura <==> AnyContains(v, EscrituraApps)
    ensures GrupoDe(v) == HojaCalculo <==>
      !AnyContains(v, EscrituraApps) && (Contains(v, "excel") || Contains(v, "spreadsheet"))
    ensures GrupoDe(v) == Navegacion <==>
      !AnyContains(v, EscrituraApps) && !Contains(v, "excel") && !Contains(v, "spreadsheet")
      && AnyContains(v, Navegadores)
    ensures GrupoDe(v) == Desarrollo <==>
      !AnyContains(v, EscrituraApps) && !Contains(v, "excel") && !Contains(v, "spreadsheet")
      && !AnyContains(v, Navegadores) && AnyContains(v, Ides)
    ensures GrupoDe(v) == Comunicacion <==>
      !AnyContains(v, EscrituraApps) && !Contains(v, "excel") && !Contains(v, "spreadsheet")
      && !AnyContains(v, Navegadores) && !AnyContains(v, Ides) && AnyContains(v, ComunicacionApps)
  {
    ExcelEsEscritura(v);
  }

  lemma ExcelEsEscritura(v: string)
    ensures Contains(v, "excel") ==> AnyContains(v, EscrituraApps)
  {
    assert EscrituraApps[1] == "excel";
  }

  /** The spreadsheet branch is shadowed for Excel: "excel" is also a writing
      application, so only a title naming "spreadsheet" without "excel" reaches it. */
  lemma {:induction false} HojaCalculoSoloPorSpreadsheet(v: string)
    ensures GrupoDe(v) == HojaCalculo <==> !AnyContains(v, EscrituraApps) && Contains(v, "spreadsheet")
    ensures GrupoDe(v) == HojaCalculo ==> !Contains(v, "excel")
  {
    ExcelEsEscritura(v);
  }

  /** A window that names a writing application is never classified by a later
      branch, whatever else it names. */
  lemma {:induction false} EscrituraPrimero(v: string, k: int)
    requires 0 <= k < |EscrituraApps| && Contains(v, EscrituraApps[k])
    ensures GrupoDe(v) == Escritura
  {
    AnyContainsWitness(v, EscrituraApps, k);
  }

  /** A Microsoft Excel title gets the writing advice, not the Excel advice. */
  lemma ExcelTitleIsEscritura()
    ensures GrupoDe("libro1.xlsx - excel") == Escritura
  {
    assert OccursAt("libro1.xlsx - excel", "excel", 14);
    EscrituraPrimero("libro1.xlsx - excel", 1);
  }

  const TipPausaEscritura := "Has estado mucho tiempo escribiendo. Considera hacer una pausa de 5 minutos para descansar la vista"
  const TipDocumentacion := "Excelente momento para trabajar en documentación - tu concentración está en su punto máximo"
  const TipGuardarExcel := "Llevas tiempo considerable en Excel. Recuerda guardar frecuentemente tu trabajo"
  const TipAtajosExcel := "Considera usar atajos de teclado: Ctrl+S (guardar), F2 (editar celda), Ctrl+Z (deshacer)"
  const TipReferencias := "Tip: Usa referencias absolutas ($) en fórmulas cuando necesites bloquear filas/columnas"
  const TipValidarFormulas := "Recuerda validar tus fórmulas con datos de prueba antes de aplicar a toda la hoja"
  const TipPestanas := "Tienes muchas pestañas abiertas. Considera organizarlas o cerrar las que no necesitas"
  const TipSiesta := "Hora de la siesta mental. Si sientes fatiga, toma un descanso breve"
  const TipCommits := "Has estado codificando intensamente. Recuerda hacer commits frecuentes y descansar la vista"
  const TipAtajosCodigo := "Tip: Usa Ctrl+K Ctrl+C para comentar líneas, Ctrl+K Ctrl+U para descomentrar"
  const TipTests := "Recuerda escribir tests para tu código - mejora la calidad y mantenibilidad"
  const TipNombres := "Usa nombres descriptivos para variables y funciones - tu yo futuro te lo agradecerá"
  const TipEquilibrio := "Has dedicado mucho tiempo a comunicación. Asegúrate de equilibrar con trabajo productivo"
  const TipMensajes := "Recuerda ser claro y conciso en tus mensajes - la brevedad aumenta la efectividad"

  /** Writing advice: `escritura` is the number of the user's samples in the last
      two hours whose title contains "word"; `hora` is the current hour. */
  function ConsejosEscritura(escritura: nat, hora: int): (r: seq<string>)
    ensures TipPausaEscritura in r <==> escritura > 20
    ensures TipDocumentacion in r <==> 9 <= hora <= 12
    ensures |r| == (if escritura > 20 then 1 else 0) + (if 9 <= hora <= 12 then 1 else 0)
  {
    (if escritura > 20 then [TipPausaEscritura] else [])
    + (if 9 <= hora <= 12 then [TipDocumentacion] else [])
  }

  /** Excel advice: two best-practice tips always, two more after over 30
      "excel" samples in the last hour. */
  function ConsejosExcel(excel: nat): (r: seq<string>)
    ensures TipReferencias in r && TipValidarFormulas in r
    ensures TipGuardarExcel in r <==> excel > 30
    ensures TipAtajosExcel in r <==> excel > 30
    ensures |r| == if excel > 30 then 4 else 2
  {
    (if excel > 30 then [TipGuardarExcel, TipAtajosExcel] else [])
    + [TipReferencias, TipValidarFormulas]
  }

  /** Browser advice: a tabs tip after over 15 "chrome" samples in the last 30
      minutes; a fatigue tip from 14:00 to 16:59. */
  function ConsejosNavegacion(web: nat, hora: int): (r: seq<string>)
    ensures TipPestanas in r <==> web > 15
    ensures TipSiesta in r <==> 14 <= hora <= 16
    ensures |r| == (if web > 15 then 1 else 0) + (if 14 <= hora <= 16 then 1 else 0)
  {
    (if web > 15 then [TipPestanas] else [])
    + (if hora >= 14 && hora <= 16 then [TipSiesta] else [])
  }

  /** IDE advice: two practice tips always, two more after over 40 coding
      samples in the last two hours. */
  function ConsejosDesarrollo(codigo: nat): (r: seq<string>)
    ensures TipTests in r && TipNombres in r
    ensures TipCommits in r <==> codigo > 40
    ensures TipAtajosCodigo in r <==> codigo > 40
    ensures |r| == if codigo > 40 then 4 else 2
  {
    (if codigo > 40 then [TipCommits, TipAtajosCodigo] else [])
    + [TipTests, TipNombres]
  }

  /** Communication advice: one tip always, one more after over 25
      communication samples in the last hour. */
  function ConsejosComunicacion(comunicacion: nat): (r: seq<string>)
    ensures TipMensajes in r
    ensures TipEquilibrio in r <==> comunicacion > 25
    ensures |r| == if comunicacion > 25 then 2 else 1
  {
    (if comunicacion > 25 then [TipEquilibrio] else []) + [TipMensajes]
  }

  /** The counts the contextual branches read from the activity table. */
  datatype ConteosContexto = ConteosContexto(escritura: nat, excel: nat, web: nat, codigo: nat, comunicacion: nat)

  /** `analizar_aplicacion_contextual`: the advice of the branch the title selects. */
  function ConsejosContextuales(v: string, c: ConteosContexto, hora: int): (r: seq<string>)
    ensures GrupoDe(v) == Ninguno ==> r == []
    ensures GrupoDe(v) in {HojaCalculo, Desarrollo, Comunicacion} ==> |r| >= 1
    ensures TipReferencias in r ==> GrupoDe(v) == HojaCalculo
    ensures TipMensajes in r ==> GrupoDe(v) == Comunicacion
  {
    match GrupoDe(v)
    case Escritura => ConsejosEscritura(c.escritura, hora)
    case HojaCalculo => ConsejosExcel(c.excel)
    case Navegacion => ConsejosNavegacion(c.web, hora)
    case Desarrollo => ConsejosDesarrollo(c.codigo)
    case Comunicacion => ConsejosComunicacion(c.comunicacion)
    case Ninguno => []
  }

  /** Each branch gives its own advice list, read from its own count. */
  lemma ConsejosContextualesPorGrupo(v: string, c: ConteosContexto, hora: int)
    ensures GrupoDe(v) == Escritura ==> ConsejosContextuales(v, c, hora) == ConsejosEscritura(c.escritura, hora)
    ensures GrupoDe(v) == HojaCalculo ==> ConsejosContextuales(v, c, hora) == ConsejosExcel(c.excel)
    ensures GrupoDe(v) == Navegacion ==> ConsejosContextuales(v, c, hora) == ConsejosNavegacion(c.web, hora)
    ensures GrupoDe(v) == Desarrollo ==> ConsejosContextuales(v, c, hora) == ConsejosDesarrollo(c.codigo)
    ensures GrupoDe(v) == Comunicacion ==> ConsejosContextuales(v, c, hora) == ConsejosComunicacion(c.comunicacion)
  {
  }

  // ------------------------------------------------------- productivity pattern rule

  const TipProductividadBaja := "Tu productividad está baja. Considera identificar y eliminar distracciones"
  const TipPomodoro := "Técnica Pomodoro: 25 minutos de trabajo enfocado, 5 minutos de descanso"
  const TipPrioridades := "Estás dedicando más tiempo a actividades no productivas. Revisa tus prioridades"
  const TipJuegos := "Detección de juegos durante horario laboral. Considera posponer el entretenimiento"

  /** `analizar_patron_productividad` over the samples of the hour before the
      analysed sample: `productiva`, `improductiva` and `gaming` count the
      samples with those labels and `total` all of them. The ratio test
      `productiva / total < 0.3` is exact rational arithmetic here. */
  function ConsejosPatron(productiva: nat, improductiva: nat, gaming: nat, total: nat, hora: int): (r: seq<string>)
    ensures total <= 5 ==> r == []
    ensures TipProductividadBaja in r <==> total > 5 && (productiva as real) / (total as real) < 0.3
    ensures TipPomodoro in r <==> TipProductividadBaja in r
    ensures TipPrioridades in r <==> total > 5 && improductiva > productiva
    ensures TipJuegos in r <==> total > 5 && gaming > 0 && hora < 18
    ensures total > 5 ==>
      |r| == (if 10 * productiva < 3 * total then 2 else 0) + (if improductiva > productiva then 1 else 0)
             + (if gaming > 0 && hora < 18 then 1 else 0)
  {
    if total > 5 then
      var ratio := (productiva as real) / (total as real);
      assert ratio < 0.3 <==> 10 * productiva < 3 * total by {
        RatioBelow(productiva, total, 3, 10);
      }
      (if ratio < 0.3 then [TipProductividadBaja, TipPomodoro] else [])
      + (if improductiva > productiva then [TipPrioridades] else [])
      + (if gaming > 0 && hora < 18 then [TipJuegos] else [])
    else []
  }

  // ------------------------------------------------------- working-time rule

  const TipOchoHoras := "Has trabajado más de 8 horas hoy. Es importante descansar para mantener la productividad"
  const TipSeisHoras := "Llevas varias horas trabajando. Considera un descanso de 10-15 minutos"
  const TipFueraHorario := "Estás trabajando fuera del horario habitual. Asegúrate de descansar adecuadamente"
  const TipAlmuerzo := "Hora del almuerzo. Una comida balanceada mejora la concentración de la tarde"
  const TipFinJornada := "Finalizando la jornada. Revisa tus logros del día y planifica el siguiente"

  /** Estimated minutes of work: each sample stands for 30 seconds (true division). */
  function MinutosTrabajo(muestras: nat): real {
    (muestras * 30) as real / 60.0
  }

  /** `analizar_tiempo_trabajo`: `hoy` counts the user's samples on the
      analysed sample's date, `hora` is that sample's hour. */
  function ConsejosTiempo(hoy: nat, hora: int): (r: seq<string>)
    ensures TipOchoHoras in r <==> hoy > 960
    ensures TipSeisHoras in r <==> 720 < hoy <= 960
    ensures TipFueraHorario in r <==> hora >= 22 || hora <= 6
    ensures TipAlmuerzo in r <==> 12 <= hora <= 14
    ensures TipFinJornada in r <==> 17 <= hora <= 19
    ensures |r| == (if hoy > 720 then 1 else 0)
                   + (if hora >= 22 || hora <= 6 || 12 <= hora <= 14 || 17 <= hora <= 19 then 1 else 0)
  {
    var minutos := MinutosTrabajo(hoy);
    assert minutos > 480.0 <==> hoy > 960;
    assert minutos > 360.0 <==> hoy > 720;
    (if minutos > 480.0 then [TipOchoHoras] else if minutos > 360.0 then [TipSeisHoras] else [])
    + (if hora >= 22 || hora <= 6 then [TipFueraHorario]
       else if 12 <= hora <= 14 then [TipAlmuerzo]
       else if 17 <= hora <= 19 then [TipFinJornada]
       else [])
  }

  // ------------------------------------------------------- score update

  const PuntajeMaximo: int := 100

  /** The score change one analysed sample causes: +1 for "productive" capped
      at 100, -2 for "unproductive" and -3 for "gaming" floored at 0, and no
      change for any other label. */
  function PuntajeSiguiente(puntaje: int, productividad: string): (q: int)
    ensures 0 <= puntaje <= PuntajeMaximo ==> 0 <= q <= PuntajeMaximo
    ensures productividad !in ["productive", "unproductive", "gaming"] ==> q == puntaje
    ensures productividad == "productive" ==> q >= puntaje || q == PuntajeMaximo
    ensures productividad == "productive" && puntaje < PuntajeMaximo ==> q == puntaje + 1
    ensures productividad in ["unproductive", "gaming"] ==> q <= puntaje || q == 0
    ensures productividad == "productive" && puntaje >= PuntajeMaximo ==> q == PuntajeMaximo
    ensures productividad == "unproductive" ==> q == if puntaje >= 2 then puntaje - 2 else 0
    ensures productividad == "gaming" ==> q == if puntaje >= 3 then puntaje - 3 else 0
    ensures productividad in ["unproductive", "gaming"] && puntaje >= 0 ==> q >= 0
  {
    if productividad == "productive" then (if puntaje + 1 < PuntajeMaximo then puntaje + 1 else PuntajeMaximo)
    else if productividad == "unproductive" then (if puntaje - 2 > 0 then puntaje - 2 else 0)
    else if productividad == "gaming" then (if puntaje - 3 > 0 then puntaje - 3 else 0)
    else puntaje
  }

  /** Improvements grow by one exactly when today's productive samples exceed 50. */
  function MejorasSiguiente(mejoras: int, productivasHoy: nat): (q: int)
    ensures q == mejoras + 1 <==> productivasHoy > 50
    ensures q == mejoras || q == mejoras + 1
  {
    if productivasHoy > 50 then mejoras + 1 else mejoras
  }

  /** `actualizar_estadisticas_inteligentes`: get-or-create the user's
      statistics, then apply both updates and stamp the save time. */
  function EstadisticaTras(actual: Option<Estadistica>, usuario: UserId, productividad: string,
                           productivasHoy: nat, now: Instant): (e: Estadistica)
    requires actual.Some? ==> actual.value.usuario == usuario
    ensures e.usuario == usuario && e.fechaActualizacion == now
    ensures actual.None? ==> e.puntaje == PuntajeSiguiente(0, productividad) && e.mejoras == MejorasSiguiente(0, productivasHoy)
    ensures actual.Some? ==>
      e.puntaje == PuntajeSiguiente(actual.value.puntaje, productividad)
      && e.mejoras == MejorasSiguiente(actual.value.mejoras, productivasHoy)
  {
    var base := if actual.Some? then actual.value else NuevaEstadistica(usuario, now);
    Estadistica(usuario, PuntajeSiguiente(base.puntaje, productividad),
                MejorasSiguiente(base.mejoras, productivasHoy), now)
  }

  /** Any sequence of updates keeps a score in [0, 100]; in particular a score
      that starts at the default 0 never leaves that range. */
  lemma {:induction false} PuntajeAcotado(p: int, labels: seq<string>)
    requires 0 <= p <= PuntajeMaximo
    ensures 0 <= PuntajeTras(p, labels) <= PuntajeMaximo
    decreases |labels|
  {
    if |labels| > 0 {
      PuntajeAcotado(PuntajeSiguiente(p, labels[0]), labels[1..]);
    }
  }

  /** The score after a run of analysed samples, in order. */
  function PuntajeTras(p: int, labels: seq<string>): int
    decreases |labels|
  {
    if |labels| == 0 then p else PuntajeTras(PuntajeSiguiente(p, labels[0]), labels[1..])
  }

  /** A run of only productive samples never lowers a score in range. */
  lemma {:induction false} PuntajeProductivoNoBaja(p: int, labels: seq<string>)
    requires 0 <= p <= PuntajeMaximo
    requires forall i :: 0 <= i < |labels| ==> labels[i] == "productive"
    ensures p <= PuntajeTras(p, labels) <= PuntajeMaximo
    ensures PuntajeTras(p, labels) == if p + |labels| < PuntajeMaximo then p + |labels| else PuntajeMaximo
    decreases |labels|
  {
    if |labels| > 0 {
      PuntajeProductivoNoBaja(PuntajeSiguiente(p, labels[0]), labels[1..]);
    }
  }

  // ------------------------------------------------------- proactive advice

  const TipEnAppExcel := "⏰ Llevas tiempo considerable en Excel. ¿Necesitas ayuda con alguna fórmula específica?"
  const TipEnAppWord := "⏰ Estás trabajando intensamente en el documento. ¿Quieres consejos de formato o estructura?"
  const TipEnAppCodigo := "⏰ Sesión de codificación prolongada. ¿Necesitas ayuda con debugging o mejores prácticas?"
  const TipEnAppWeb := "⏰ Mucho tiempo navegando. ¿Estás investigando algo específico o necesitas organizar mejor tus pestañas?"
  const TipBajaProactiva := "📊 Tu productividad ha bajado. ¿Hay alguna distracción que pueda ayudarte a eliminar?"
  const TipPomodoroProactivo := "💡 Prueba la Técnica Pomodoro: 25 min trabajo + 5 min descanso"
  const TipCafe := "🌅 Hora del café matutino. Un descanso breve puede recargar tu energía"
  const TipAlmuerzoProactivo := "🍽️ Hora del almuerzo. Una comida balanceada mejora la concentración de la tarde"
  const TipFinalizando := "🌅 Finalizando la jornada. ¿Has revisado tus objetivos del día?"
  const TipCasa := "🏠 Considera finalizar tus tareas pendientes. Mañana será otro día productivo"
  const TipPuntajeBajo := "📈 Tu puntuación de productividad es baja. ¿Quieres que te ayude a mejorar?"
  const TipBienvenida := "📊 ¡Bienvenido! Te ayudaré a mejorar tu productividad. Empecemos con algunos consejos básicos"

  const IdesProactivos: seq<string> := ["vscode", "pycharm", "visual studio"]
  const NavegadoresProactivos: seq<string> := ["chrome", "firefox", "edge"]

  /** The "long time in the same window" tip for a lower-cased title, first
      match among Excel, Word, IDEs and browsers. */
  function ConsejoEnApp(v: string): (r: Option<string>)
    ensures r.None? <==>
      !Contains(v, "excel") && !Contains(v, "word") && !AnyContains(v, IdesProactivos) && !AnyContains(v, NavegadoresProactivos)
    ensures r == Some(TipEnAppWord) ==> !Contains(v, "excel")
    ensures r.Some? ==> r.value in [TipEnAppExcel, TipEnAppWord, TipEnAppCodigo, TipEnAppWeb]
  {
    if Contains(v, "excel") then Some(TipEnAppExcel)
    else if Contains(v, "word") then Some(TipEnAppWord)
    else if AnyContains(v, IdesProactivos) then Some(TipEnAppCodigo)
    else if AnyContains(v, NavegadoresProactivos) then Some(TipEnAppWeb)
    else None
  }

  /** Each application's own tip: the Excel tip exactly for a title naming
      Excel, the document tip for Word without Excel, the coding tip for an
      IDE without either, and the browsing tip only when none of those match. */
  lemma ConsejoEnAppPorAplicacion(v: string)
    ensures ConsejoEnApp(v) == Some(TipEnAppExcel) <==> Contains(v, "excel")
    ensures ConsejoEnApp(v) == Some(TipEnAppWord) <==> !Contains(v, "excel") && Contains(v, "word")
    ensures ConsejoEnApp(v) == Some(TipEnAppCodigo) <==>
      !Contains(v, "excel") && !Contains(v, "word") && AnyContains(v, IdesProactivos)
    ensures ConsejoEnApp(v) == Some(TipEnAppWeb) <==>
      !Contains(v, "excel") && !Contains(v, "word") && !AnyContains(v, IdesProactivos)
      && AnyContains(v, NavegadoresProactivos)
  {
    ConsejosProactivosDistintos();
  }

  /** The tip for the current hour: 11, 14, 17, or 18 and later. */
  function ConsejoHora(hora: int): (r: Option<string>)
    ensures r.None? <==> hora < 18 && hora != 11 && hora != 14 && hora != 17
    ensures r == Some(TipCafe) <==> hora == 11
    ensures r == Some(TipAlmuerzoProactivo) <==> hora == 14
    ensures r == Some(TipFinalizando) <==> hora == 17
    ensures r == Some(TipCasa) <==> hora >= 18
    ensures r.Some? ==> r.value in [TipCafe, TipAlmuerzoProactivo, TipFinalizando, TipCasa]
  {
    ConsejosProactivosDistintos();
    if hora == 11 then Some(TipCafe)
    else if hora == 14 then Some(TipAlmuerzoProactivo)
    else if hora == 17 then Some(TipFinalizando)
    else if hora >= 18 then Some(TipCasa)
    else None
  }

  /** The proactive tips are pairwise distinct texts. */
  lemma ConsejosProactivosDistintos()
    ensures forall t :: t in [TipEnAppExcel, TipEnAppWord, TipEnAppCodigo, TipEnAppWeb] ==>
      t != TipBajaProactiva && t != TipPomodoroProactivo && t != TipBienvenida && t != TipPuntajeBajo
    ensures forall t :: t in [TipCafe, TipAlmuerzoProactivo, TipFinalizando, TipCasa] ==>
      t != TipBajaProactiva && t != TipPomodoroProactivo && t != TipBienvenida && t != TipPuntajeBajo
      && t !in [TipEnAppExcel, TipEnAppWord, TipEnAppCodigo, TipEnAppWeb]
    ensures TipBajaProactiva != TipBienvenida && TipBajaProactiva != TipPuntajeBajo
    ensures TipPomodoroProactivo != TipBienvenida && TipPomodoroProactivo != TipPuntajeBajo
    ensures TipBajaProactiva != TipPomodoroProactivo && TipBienvenida != TipPuntajeBajo
    ensures TipEnAppExcel != TipEnAppWord && TipEnAppExcel != TipEnAppCodigo && TipEnAppExcel != TipEnAppWeb
    ensures TipEnAppWord != TipEnAppCodigo && TipEnAppWord != TipEnAppWeb && TipEnAppCodigo != TipEnAppWeb
    ensures TipCafe != TipAlmuerzoProactivo && TipCafe != TipFinalizando && TipCafe != TipCasa
    ensures TipAlmuerzoProactivo != TipFinalizando && TipAlmuerzoProactivo != TipCasa && TipFinalizando != TipCasa
  {
  }

  /** Every tip the proactive rules know. */
  const TiposProactivos: seq<string> :=
    [TipEnAppExcel, TipEnAppWord, TipEnAppCodigo, TipEnAppWeb, TipBajaProactiva, TipPomodoroProactivo,
     TipCafe, TipAlmuerzoProactivo, TipFinalizando, TipCasa, TipBienvenida, TipPuntajeBajo]

  /** The rule a proactive tip comes from, in the order the rules run: the
      in-app tip, the two falling-productivity tips, the hour tip, the
      statistics tip. */
  function Rango(t: string): nat {
    if t in [TipEnAppExcel, TipEnAppWord, TipEnAppCodigo, TipEnAppWeb] then 0
    else if t == TipBajaProactiva then 1
    else if t == TipPomodoroProactivo then 2
    else if t in [TipCafe, TipAlmuerzoProactivo, TipFinalizando, TipCasa] then 3
    else 4
  }

  /** Each tip comes after the tips of every earlier rule. */
  predicate EnOrden(r: seq<string>) {
    forall i, j :: 0 <= i < j < |r| ==> Rango(r[i]) < Rango(r[j])
  }

  lemma {:induction false} EnOrdenConcatenado(a: seq<string>, b: seq<string>, corte: nat)
    requires EnOrden(a) && EnOrden(b)
    requires forall t :: t in a ==> Rango(t) < corte
    requires forall t :: t in b ==> Rango(t) >= corte
    ensures EnOrden(a + b)
  {
    var r := a + b;
    forall i, j | 0 <= i < j < |r| ensures Rango(r[i]) < Rango(r[j]) {
      if j < |a| {
        assert r[i] == a[i] && r[j] == a[j];
      } else if i >= |a| {
        assert r[i] == b[i - |a|] && r[j] == b[j - |a|];
      } else {
        assert r[i] == a[i] && r[j] == b[j - |a|];
        assert a[i] in a && b[j - |a|] in b;
      }
    }
  }

  function OptionSeq(o: Option<string>): (r: seq<string>)
    ensures |r| <= 1
    ensures o.Some? ==> r == [o.value]
    ensures o.None? ==> r == []
  {
    if o.Some? then [o.value] else []
  }

  /** The in-app tip, once more than 20 samples of the last 30 minutes share the title. */
  function TipsEnApp(v: string, enApp: nat): (r: seq<string>)
    ensures forall t :: t in r <==> enApp > 20 && ConsejoEnApp(v) == Some(t)
    ensures r == [] <==> enApp <= 20 || ConsejoEnApp(v).None?
    ensures |r| <= 1
  {
    if enApp > 20 then OptionSeq(ConsejoEnApp(v)) else []
  }

  /** The falling-productivity pair, when under 40% of more than ten samples of
      the last hour are productive (the source divides as floats). */
  function TipsBaja(productiva: nat, total: nat): (r: seq<string>)
    ensures forall t :: t in r ==> t == TipBajaProactiva || t == TipPomodoroProactivo
    ensures TipBajaProactiva in r <==> total > 10 && 10 * productiva < 4 * total
    ensures TipPomodoroProactivo in r <==> TipBajaProactiva in r
    ensures r == [] <==> !(total > 10 && 10 * productiva < 4 * total)
    ensures |r| == if total > 10 && 10 * productiva < 4 * total then 2 else 0
  {
    var baja := total > 10 && (productiva as real) / (total as real) < 0.4;
    assert total > 10 ==> (baja <==> 10 * productiva < 4 * total) by {
      if total > 10 {
        RatioBelow(productiva, total, 4, 10);
      }
    }
    ConsejosProactivosDistintos();
    if baja then [TipBajaProactiva, TipPomodoroProactivo] else []
  }

  /** The statistics tip: a welcome without a score, a nudge below 50. */
  function TipsEstadistica(puntaje: Option<int>): (r: seq<string>)
    ensures forall t :: t in r ==> t == TipBienvenida || t == TipPuntajeBajo
    ensures TipBienvenida in r <==> puntaje.None?
    ensures TipPuntajeBajo in r <==> puntaje.Some? && puntaje.value < 50
    ensures r == [] <==> puntaje.Some? && puntaje.value >= 50
    ensures |r| <= 1
  {
    ConsejosProactivosDistintos();
    if puntaje.None? then [TipBienvenida]
    else if puntaje.value < 50 then [TipPuntajeBajo] else []
  }

  lemma EnConcatenacion(a: seq<string>, b: seq<string>, c: seq<string>, d: seq<string>)
    ensures forall t :: t in a + b + c + d <==> t in a || t in b || t in c || t in d
    ensures a + b + c + d == [] <==> a == [] && b == [] && c == [] && d == []
  {
  }

  /** The tip list of `generar_consejos_proactivos`: `v` is the newest sample's
      lower-cased title, `enApp` the samples in the last 30 minutes with the
      same title (case-insensitively), `productiva` and `total` the samples of
      the last hour, `hora` the current hour and `puntaje` the user's score,
      or None when the user has no statistics yet. */
  function ConsejosProactivos(v: string, enApp: nat, productiva: nat, total: nat, hora: int,
                              puntaje: Option<int>): (r: seq<string>)
    ensures forall t :: t in r && t in [TipEnAppExcel, TipEnAppWord, TipEnAppCodigo, TipEnAppWeb] ==>
      enApp > 20 && ConsejoEnApp(v) == Some(t)
    ensures enApp > 20 && ConsejoEnApp(v).Some? ==> ConsejoEnApp(v).value in r
    ensures TipBajaProactiva in r <==> total > 10 && 10 * productiva < 4 * total
    ensures TipPomodoroProactivo in r <==> TipBajaProactiva in r
    ensures ConsejoHora(hora).Some? ==> ConsejoHora(hora).value in r
    ensures TipBienvenida in r <==> puntaje.None?
    ensures TipPuntajeBajo in r <==> puntaje.Some? && puntaje.value < 50
    ensures r == [] <==>
      (enApp <= 20 || ConsejoEnApp(v).None?) && !(total > 10 && 10 * productiva < 4 * total)
      && ConsejoHora(hora).None? && puntaje.Some? && puntaje.value >= 50
  {
    var enAppTips := TipsEnApp(v, enApp);
    var baja := TipsBaja(productiva, total);
    var horaTips := OptionSeq(ConsejoHora(hora));
    var estadistica := TipsEstadistica(puntaje);
    ConsejosProactivosDistintos();
    EnConcatenacion(enAppTips, baja, horaTips, estadistica);
    enAppTips + baja + horaTips + estadistica
  }

  /** Each rule's own tips are in order and carry that rule's rank. */
  lemma PartesEnOrden(v: string, enApp: nat, productiva: nat, total: nat, hora: int, puntaje: Option<int>)
    ensures EnOrden(TipsEnApp(v, enApp)) && forall t :: t in TipsEnApp(v, enApp) ==> Rango(t) == 0
    ensures EnOrden(TipsBaja(productiva, total)) && forall t :: t in TipsBaja(productiva, total) ==> 1 <= Rango(t) <= 2
    ensures EnOrden(OptionSeq(ConsejoHora(hora))) && forall t :: t in OptionSeq(ConsejoHora(hora)) ==> Rango(t) == 3
    ensures EnOrden(TipsEstadistica(puntaje)) && forall t :: t in TipsEstadistica(puntaje) ==> Rango(t) == 4
  {
    ConsejosProactivosDistintos();
    var b := TipsBaja(productiva, total);
    if b != [] {
      assert b == [TipBajaProactiva, TipPomodoroProactivo];
    }
  }

  /** Joining the four rules' tips in rule order keeps them in order. */
  lemma OrdenProactivo(a: seq<string>, b: seq<string>, c: seq<string>, d: seq<string>)
    requires EnOrden(a) && forall t :: t in a ==> Rango(t) == 0
    requires EnOrden(b) && forall t :: t in b ==> 1 <= Rango(t) <= 2
    requires EnOrden(c) && forall t :: t in c ==> Rango(t) == 3
    requires EnOrden(d) && forall t :: t in d ==> Rango(t) == 4
    ensures EnOrden(a + b + c + d)
  {
    EnOrdenConcatenado(a, b, 1);
    EnOrdenConcatenado(a + b, c, 3);
    EnOrdenConcatenado(a + b + c, d, 4);
  }

  /** The joined advice lists each rule's tips after those of the rules before
      it, and carries an hour tip exactly when it is the current hour's. */
  lemma ConsejosProactivosEnOrden(v: string, enApp: nat, productiva: nat, total: nat, hora: int,
                                  puntaje: Option<int>)
    ensures EnOrden(ConsejosProactivos(v, enApp, productiva, total, hora, puntaje))
    ensures forall t :: t in [TipCafe, TipAlmuerzoProactivo, TipFinalizando, TipCasa] ==>
      (t in ConsejosProactivos(v, enApp, productiva, total, hora, puntaje) <==> ConsejoHora(hora) == Some(t))
  {
    var a := TipsEnApp(v, enApp);
    var b := TipsBaja(productiva, total);
    var c := OptionSeq(ConsejoHora(hora));
    var d := TipsEstadistica(puntaje);
    assert ConsejosProactivos(v, enApp, productiva, total, hora, puntaje) == a + b + c + d;
    PartesEnOrden(v, enApp, productiva, total, hora, puntaje);
    OrdenProactivo(a, b, c, d);
    EnConcatenacion(a, b, c, d);
    ConsejosProactivosDistintos();
  }

  /** Nothing but the rules' own tips: each tip is one the rules know, and
      the list holds exactly one tip per firing rule (two for the falling
      productivity rule). */
  lemma ConsejosProactivosExactos(v: string, enApp: nat, productiva: nat, total: nat, hora: int,
                                  puntaje: Option<int>)
    ensures forall t :: t in ConsejosProactivos(v, enApp, productiva, total, hora, puntaje) ==> t in TiposProactivos
    ensures |ConsejosProactivos(v, enApp, productiva, total, hora, puntaje)|
            == (if enApp > 20 && ConsejoEnApp(v).Some? then 1 else 0)
               + (if total > 10 && 10 * productiva < 4 * total then 2 else 0)
               + (if ConsejoHora(hora).Some? then 1 else 0)
               + (if puntaje.None? || puntaje.value < 50 then 1 else 0)
  {
    var a := TipsEnApp(v, enApp);
    var b := TipsBaja(productiva, total);
    var c := OptionSeq(ConsejoHora(hora));
    var d := TipsEstadistica(puntaje);
    assert ConsejosProactivos(v, enApp, productiva, total, hora, puntaje) == a + b + c + d;
    EnConcatenacion(a, b, c, d);
  }

  /** A user without statistics always gets advice. */
  lemma {:induction false} SinEstadisticaSiempreAconseja(v: string, enApp: nat, productiva: nat, total: nat, hora: int)
    ensures ConsejosProactivos(v, enApp, productiva, total, hora, None) != []
    ensures TipBienvenida in ConsejosProactivos(v, enApp, productiva, total, hora, None)
  {
  }
}
