/**
 * The chat assistant of the back end (core/views.py): intent routing of a
 * message, the replies each intent builds from the user's data, the general
 * fallback reply and the spelling helper.
 */
module Chat {
  import opened Wrappers
  import opened Text
  import opened Sorting
  import opened Models
  import opened Rules

  // ------------------------------------------------------- intent routing

  /** The seven keyword groups of the router, in the order they are tried. */
  const Grupos: seq<seq<string>> := [
    ["ayuda", "help", "ayudame"],
    ["productividad", "productivo", "eficiencia"],
    ["error", "problema", "issue", "bug"],
    ["excel", "formula", "fórmula"],
    ["tiempo", "horas", "trabajo"],
    ["consejo", "tip", "recomendacion"],
    ["escribir", "escribe", "ortografía", "ortografia", "palabra", "palabras", "se escribe", "como se escribe"]
  ]

  datatype Intencion = Ayuda | Productividad | Errores | Excel | Tiempo | Consejos | Ortografia | General

  /** The index of each intent's keyword group; General comes after all seven. */
  function Posicion(i: Intencion): nat {
    match i
    case Ayuda => 0
    case Productividad => 1
    case Errores => 2
    case Excel => 3
    case Tiempo => 4
    case Consejos => 5
    case Ortografia => 6
    case General => 7
  }

  /** The first group, from `desde` on, that has a keyword inside `m`. */
  function PrimerGrupo(m: string, grupos: seq<seq<string>>, desde: nat): (k: nat)
    requires desde <= |grupos|
    ensures desde <= k <= |grupos|
    ensures k < |grupos| ==> AnyContains(m, grupos[k])
    ensures forall j | desde <= j < k :: !AnyContains(m, grupos[j])
    decreases |grupos| - desde
  {
    if desde == |grupos| then desde
    else if AnyContains(m, grupos[desde]) then desde
    else PrimerGrupo(m, grupos, desde + 1)
  }

  /** `generar_respuesta_asistente`'s routing of a lower-cased message: the
      first group with a keyword in the message decides, and a message with
      none of them gets the general reply. */
  function IntencionDe(m: string): (i: Intencion)
    ensures i == General <==> forall k | 0 <= k < |Grupos| :: !AnyContains(m, Grupos[k])
    ensures i != General ==> AnyContains(m, Grupos[Posicion(i)])
    ensures forall j | 0 <= j < Posicion(i) && j < |Grupos| :: !AnyContains(m, Grupos[j])
  {
    var k := PrimerGrupo(m, Grupos, 0);
    [Ayuda, Productividad, Errores, Excel, Tiempo, Consejos, Ortografia, General][k]
  }

  /** A request for help wins over every other keyword in the message. */
  lemma AyudaConExcel()
    ensures IntencionDe("ayuda con excel") == Ayuda
  {
    assert Grupos[0][0] == "ayuda";
    ContainsWitness("ayuda con excel", "ayuda", 0);
    AnyContainsWitness("ayuda con excel", Grupos[0], 0);
  }

  /** A plain greeting has no routing keyword. */
  lemma HolaEsGeneral()
    ensures IntencionDe("hola") == General
  {
    forall k | 0 <= k < |Grupos| ensures !AnyContains("hola", Grupos[k]) {
      HolaSinGrupo(k);
    }
  }

  lemma HolaSinGrupo(k: nat)
    requires k < |Grupos|
    ensures !AnyContains("hola", Grupos[k])
  {
    if k == 0 {
      MissingCharNotContained("hola", "help", 'e');
    } else if k == 2 {
      MissingCharNotContained("hola", "bug", 'b');
    } else if k == 5 {
      MissingCharNotContained("hola", "tip", 't');
    }
  }

  // ------------------------------------------------------- productivity reply

  datatype Nivel = Excelente | BuenTrabajo | Enfocate

  function RangoNivel(n: Nivel): nat {
    match n
    case Enfocate => 0
    case BuenTrabajo => 1
    case Excelente => 2
  }

  /** The level shown for a score: 80 and above, 60 and above, below 60. */
  function NivelDe(puntaje: int): (n: Nivel)
    ensures n == Excelente <==> puntaje >= 80
    ensures n == BuenTrabajo <==> 60 <= puntaje < 80
    ensures n == Enfocate <==> puntaje < 60
  {
    if puntaje >= 80 then Excelente
    else if puntaje >= 60 then BuenTrabajo
    else Enfocate
  }

  /** A higher score never shows a lower level. */
  lemma NivelMonotono(a: int, b: int)
    requires a <= b
    ensures RangoNivel(NivelDe(a)) <= RangoNivel(NivelDe(b))
  {
  }

  // ------------------------------------------------------- working-time reply

  /** `(muestras * 30) // 60`: the chat rounds the estimate down to whole minutes. */
  function MinutosChat(muestras: nat): (m: nat)
    ensures 2 * m <= muestras < 2 * m + 2
  {
    muestras * 30 / 60
  }

  datatype EstadoTiempo = MuchoTrabajo | VariasHoras | BuenRitmo | EmpiezaJornada

  /** More than 480, 360 and 240 minutes pick the first three states. */
  function EstadoTiempoDe(minutos: int): (e: EstadoTiempo)
    ensures e == MuchoTrabajo <==> minutos > 480
    ensures e == VariasHoras <==> 360 < minutos <= 480
    ensures e == BuenRitmo <==> 240 < minutos <= 360
    ensures e == EmpiezaJornada <==> minutos <= 240
  {
    if minutos > 480 then MuchoTrabajo
    else if minutos > 360 then VariasHoras
    else if minutos > 240 then BuenRitmo
    else EmpiezaJornada
  }

  /** The chat's floor division and the agent's true division disagree at 961
      samples: the chat reports "several hours" while the agent already gives
      the over-eight-hours tip. */
  lemma {:induction false} ChatYAgenteDifierenEn961()
    ensures EstadoTiempoDe(MinutosChat(961)) == VariasHoras
    ensures TipOchoHoras in ConsejosTiempo(961, 10)
  {
    assert MinutosChat(961) == 480;
  }

  /** Below that boundary both agree: over 8 hours in the chat means over 8
      hours for the agent. */
  lemma {:induction false} ChatMuchoTrabajoImplicaAgente(muestras: nat, hora: int)
    requires EstadoTiempoDe(MinutosChat(muestras)) == MuchoTrabajo
    ensures TipOchoHoras in ConsejosTiempo(muestras, hora)
  {
    assert MinutosChat(muestras) > 480;
  }

  // ------------------------------------------------------- spelling reply

  /** The words the spelling helper scans for, in order. */
  const PalabrasOrtografia: seq<string> :=
    ["es", "oyo", "hoyo", "hoy", "oy", "vez", "aves", "aves", "b", "v", "s", "z", "c", "g", "j", "ll", "y", "rr"]

  /** The words the helper explains when it meets them. */
  const PalabrasExplicadas: seq<string> := ["es", "oyo", "hoyo"]

  /** The word the spelling reply is about: "es" when present, else "oyo".
      "hoyo" is never reported, because every "hoyo" contains "oyo", which is
      scanned first. */
  function PalabraReportada(m: string): (r: Option<string>)
    ensures r.None? <==> !Contains(m, "es") && !Contains(m, "oyo") && !Contains(m, "hoyo")
    ensures r == Some("es") <==> Contains(m, "es")
    ensures r == Some("oyo") <==> !Contains(m, "es") && Contains(m, "oyo")
    ensures r.Some? ==> Contains(m, r.value) && r.value in PalabrasExplicadas && r.value != "hoyo"
  {
    OyoEnHoyo(m);
    if Contains(m, "es") then Some("es")
    else if Contains(m, "oyo") then Some("oyo")
    else None
  }

  lemma OyoEnHoyo(m: string)
    ensures Contains(m, "hoyo") ==> Contains(m, "oyo")
  {
    if Contains(m, "hoyo") {
      assert OccursAt("hoyo", "oyo", 1);
      ContainsTransitive(m, "hoyo", "oyo");
    }
  }

  /** The scan of `generar_respuesta_ortografia` over a lower-cased message:
      the first listed word found in the message that is one of the explained
      words, or None. */
  method PalabraSobreLaQueResponder(m: string) returns (r: Option<string>)
    ensures r == PalabraReportada(m)
  {
    OyoEnHoyo(m);
    SoloLasPrimerasSeExplican();
    for i := 0 to |PalabrasOrtografia|
      invariant forall j | 0 <= j < i :: !(Contains(m, PalabrasOrtografia[j]) && PalabrasOrtografia[j] in PalabrasExplicadas)
    {
      var palabra := PalabrasOrtografia[i];
      assert i > 0 ==> !Contains(m, PalabrasOrtografia[0]);
      assert i > 1 ==> !Contains(m, PalabrasOrtografia[1]);
      if Contains(m, palabra) && palabra in PalabrasExplicadas {
        return Some(palabra);
      }
    }
    return None;
  }

  /** Of the scanned words, only the first three are explained. */
  lemma SoloLasPrimerasSeExplican()
    ensures forall i | 3 <= i < |PalabrasOrtografia| :: PalabrasOrtografia[i] !in PalabrasExplicadas
    ensures PalabrasOrtografia[..3] == PalabrasExplicadas
  {
  }

  datatype RespOrtografia = ComoSeEscribe | SobrePalabra(palabra: string) | ReglasGenerales

  /** The spelling reply for a lower-cased message: a "how is it written"
      question first, then an explained word, then the general rules. */
  function OrtografiaDe(m: string): (r: RespOrtografia)
    ensures r == ComoSeEscribe <==> Contains(m, "se escribe")
    ensures r.SobrePalabra? ==> r.palabra in ["es", "oyo"] && Contains(m, r.palabra)
    ensures r == SobrePalabra("es") <==> !Contains(m, "se escribe") && Contains(m, "es")
    ensures r == SobrePalabra("oyo") <==> !Contains(m, "se escribe") && !Contains(m, "es") && Contains(m, "oyo")
    ensures r == ReglasGenerales <==>
      !Contains(m, "se escribe") && !Contains(m, "es") && !Contains(m, "oyo")
  {
    assert Contains(m, "como se escribe") ==> Contains(m, "se escribe") by {
      if Contains(m, "como se escribe") {
        assert OccursAt("como se escribe", "se escribe", 5);
        ContainsTransitive(m, "como se escribe", "se escribe");
      }
    }
    if Contains(m, "se escribe") || Contains(m, "como se escribe") then ComoSeEscribe
    else match PalabraReportada(m)
      case Some(p) => SobrePalabra(p)
      case None => ReglasGenerales
  }

  // ------------------------------------------------------- general reply

  const Saludos: seq<string> := ["hola", "buenos", "buenas", "saludos", "hey", "hi", "hello"]
  const IndicadoresPregunta: seq<string> :=
    ["?", "como", "qué", "que", "cual", "cuales", "cuando", "donde", "por qué", "porque", "para qué", "quién", "quien"]
  const PreguntaEscrituraPalabras: seq<string> := ["escribir", "escribe", "ortografía", "ortografia", "palabra", "palabras"]
  const PreguntaExcelPalabras: seq<string> := ["excel", "fórmula", "formula", "hoja", "spreadsheet"]
  const PreguntaTiempoPalabras: seq<string> := ["tiempo", "horas", "productividad", "trabajo"]
  const PreguntaErrorPalabras: seq<string> := ["error", "problema", "ayuda"]
  const Positivas: seq<string> := ["bien", "excelente", "genial", "perfecto", "gracias", "ok", "okey"]
  const Negativas: seq<string> := ["mal", "problema", "dificultad", "error", "ayuda", "no funciona"]
  const EstadoPalabras: seq<string> := ["estado", "status", "situación", "situacion"]
  const ConsejoPalabras: seq<string> := ["consejo", "tip", "recomendación", "recomendacion"]

  datatype RespGeneral =
    | Saludo(nombre: string)
    | PreguntaEscritura | PreguntaExcel | PreguntaTiempo | PreguntaError | PreguntaAbierta
    | Positiva | Negativa | EstadoActual | PideConsejo | Presentacion

  predicate EndsWith(s: string, c: char) {
    |s| > 0 && s[|s| - 1] == c
  }

  /** `es_pregunta`: a question word in the trimmed lower-cased message, or a
      raw message ending in '?'. */
  predicate EsPregunta(mensaje: string) {
    AnyContains(Strip(Lower(mensaje)), IndicadoresPregunta) || EndsWith(mensaje, '?')
  }

  /** The topic of a question, first match among writing, Excel, working
      time and errors. */
  function TemaPregunta(m: string): (r: RespGeneral)
    ensures !r.Saludo?
    ensures r.PreguntaEscritura? || r.PreguntaExcel? || r.PreguntaTiempo? || r.PreguntaError? || r.PreguntaAbierta?
    ensures r == PreguntaEscritura <==> AnyContains(m, PreguntaEscrituraPalabras)
    ensures r == PreguntaExcel <==> !AnyContains(m, PreguntaEscrituraPalabras) && AnyContains(m, PreguntaExcelPalabras)
    ensures r == PreguntaTiempo <==>
      !AnyContains(m, PreguntaEscrituraPalabras) && !AnyContains(m, PreguntaExcelPalabras)
      && AnyContains(m, PreguntaTiempoPalabras)
    ensures r == PreguntaError <==>
      !AnyContains(m, PreguntaEscrituraPalabras) && !AnyContains(m, PreguntaExcelPalabras)
      && !AnyContains(m, PreguntaTiempoPalabras) && AnyContains(m, PreguntaErrorPalabras)
    ensures r == PreguntaAbierta <==>
      !AnyContains(m, PreguntaEscrituraPalabras) && !AnyContains(m, PreguntaExcelPalabras)
      && !AnyContains(m, PreguntaTiempoPalabras) && !AnyContains(m, PreguntaErrorPalabras)
  {
    if AnyContains(m, PreguntaEscrituraPalabras) then PreguntaEscritura
    else if AnyContains(m, PreguntaExcelPalabras) then PreguntaExcel
    else if AnyContains(m, PreguntaTiempoPalabras) then PreguntaTiempo
    else if AnyContains(m, PreguntaErrorPalabras) then PreguntaError
    else PreguntaAbierta
  }

  /** The reply to a statement that is not a question, first match among
      positive, negative, status and advice words, else the introduction. */
  function TemaAfirmacion(m: string): (r: RespGeneral)
    ensures !r.Saludo?
    ensures r.Positiva? || r.Negativa? || r.EstadoActual? || r.PideConsejo? || r.Presentacion?
    ensures r == Positiva <==> AnyContains(m, Positivas)
    ensures r == Negativa <==> !AnyContains(m, Positivas) && AnyContains(m, Negativas)
    ensures r == EstadoActual <==>
      !AnyContains(m, Positivas) && !AnyContains(m, Negativas) && AnyContains(m, EstadoPalabras)
    ensures r == PideConsejo <==>
      !AnyContains(m, Positivas) && !AnyContains(m, Negativas) && !AnyContains(m, EstadoPalabras)
      && AnyContains(m, ConsejoPalabras)
    ensures r == Presentacion <==>
      !AnyContains(m, Positivas) && !AnyContains(m, Negativas) && !AnyContains(m, EstadoPalabras)
      && !AnyContains(m, ConsejoPalabras)
  {
    if AnyContains(m, Positivas) then Positiva
    else if AnyContains(m, Negativas) then Negativa
    else if AnyContains(m, EstadoPalabras) then EstadoActual
    else if AnyContains(m, ConsejoPalabras) then PideConsejo
    else Presentacion
  }

  /** `generar_respuesta_general`: a greeting first, then a question by its
      topic, then a statement by its words. */
  function GeneralDe(mensaje: string, nombre: string): (r: RespGeneral)
    ensures r.Saludo? <==> AnyContains(Strip(Lower(mensaje)), Saludos)
    ensures r.Saludo? ==> r.nombre == nombre
    ensures !r.Saludo? ==> r == if EsPregunta(mensaje) then TemaPregunta(Strip(Lower(mensaje)))
                                else TemaAfirmacion(Strip(Lower(mensaje)))
  {
    var m := Strip(Lower(mensaje));
    if AnyContains(m, Saludos) then Saludo(nombre)
    else if EsPregunta(mensaje) then TemaPregunta(m)
    else TemaAfirmacion(m)
  }

  /** A word missing from a text is missing from every piece of it. */
  lemma NoContieneEnPieza(s: string, pieza: string, w: string)
    requires Contains(s, pieza) && !Contains(s, w)
    ensures !Contains(pieza, w)
  {
    if Contains(pieza, w) {
      ContainsTransitive(s, pieza, w);
    }
  }

  /** Every word of `ws` is a keyword of group `g` of the router. */
  predicate EnGrupo(ws: seq<string>, g: nat)
    requires g < |Grupos|
  {
    forall k | 0 <= k < |ws| :: ws[k] in Grupos[g]
  }

  /** If the router found no keyword of group `g`, the stripped message holds
      none of the words of `ws` either. */
  lemma {:induction false} SinPalabrasDelGrupo(mensaje: string, ws: seq<string>, g: nat)
    requires g < |Grupos| && EnGrupo(ws, g)
    requires !AnyContains(Lower(mensaje), Grupos[g])
    ensures !AnyContains(Strip(Lower(mensaje)), ws)
  {
    var lm := Lower(mensaje);
    forall k | 0 <= k < |ws|
      ensures !Contains(Strip(lm), ws[k])
    {
      var h :| 0 <= h < |Grupos[g]| && Grupos[g][h] == ws[k];
      NoContieneEnPieza(lm, Strip(lm), ws[k]);
    }
  }

  /** A message the router left general names no writing word. */
  lemma SinPalabrasEscritura(mensaje: string)
    requires IntencionDe(Lower(mensaje)) == General
    ensures !AnyContains(Strip(Lower(mensaje)), PreguntaEscrituraPalabras)
  {
    assert !AnyContains(Lower(mensaje), Grupos[6]);
    SinPalabrasDelGrupo(mensaje, PreguntaEscrituraPalabras, 6);
  }

  /** A message the router left general names no working-time word. */
  lemma {:induction false} SinPalabrasTiempo(mensaje: string)
    requires IntencionDe(Lower(mensaje)) == General
    ensures !AnyContains(Strip(Lower(mensaje)), PreguntaTiempoPalabras)
  {
    var lm := Lower(mensaje);
    assert !AnyContains(lm, Grupos[4]) && !AnyContains(lm, Grupos[1]);
    SinPalabrasDelGrupo(mensaje, ["tiempo", "horas", "trabajo"], 4);
    SinPalabrasDelGrupo(mensaje, ["productividad"], 1);
    var m := Strip(lm);
    forall k | 0 <= k < 4 ensures !Contains(m, PreguntaTiempoPalabras[k]) {
      if k == 2 {
        assert PreguntaTiempoPalabras[k] == ["productividad"][0];
      } else if k == 3 {
        assert PreguntaTiempoPalabras[k] == ["tiempo", "horas", "trabajo"][2];
      } else {
        assert PreguntaTiempoPalabras[k] == ["tiempo", "horas", "trabajo"][k];
      }
    }
  }

  /** A message the router left general names no error word. */
  lemma {:induction false} SinPalabrasError(mensaje: string)
    requires IntencionDe(Lower(mensaje)) == General
    ensures !AnyContains(Strip(Lower(mensaje)), PreguntaErrorPalabras)
  {
    var lm := Lower(mensaje);
    assert !AnyContains(lm, Grupos[0]) && !AnyContains(lm, Grupos[2]);
    SinPalabrasDelGrupo(mensaje, ["ayuda"], 0);
    SinPalabrasDelGrupo(mensaje, ["error", "problema"], 2);
    var m := Strip(lm);
    forall k | 0 <= k < 3 ensures !Contains(m, PreguntaErrorPalabras[k]) {
      if k == 2 {
        assert PreguntaErrorPalabras[k] == ["ayuda"][0];
      } else {
        assert PreguntaErrorPalabras[k] == ["error", "problema"][k];
      }
    }
  }

  /** Three question branches of the general reply cannot be reached from the
      router: a message naming writing, working time or an error has already
      been routed to its own intent. */
  lemma PreguntasInalcanzables(mensaje: string, nombre: string)
    requires IntencionDe(Lower(mensaje)) == General
    ensures GeneralDe(mensaje, nombre) != PreguntaEscritura
    ensures GeneralDe(mensaje, nombre) != PreguntaTiempo
    ensures GeneralDe(mensaje, nombre) != PreguntaError
  {
    SinPalabrasEscritura(mensaje);
    SinPalabrasTiempo(mensaje);
    SinPalabrasError(mensaje);
    GeneralSinPalabras(mensaje, nombre);
  }

  /** A message naming no writing, working-time or error word gets none of
      those three general replies. */
  lemma GeneralSinPalabras(mensaje: string, nombre: string)
    requires !AnyContains(Strip(Lower(mensaje)), PreguntaEscrituraPalabras)
    requires !AnyContains(Strip(Lower(mensaje)), PreguntaTiempoPalabras)
    requires !AnyContains(Strip(Lower(mensaje)), PreguntaErrorPalabras)
    ensures GeneralDe(mensaje, nombre) != PreguntaEscritura
    ensures GeneralDe(mensaje, nombre) != PreguntaTiempo
    ensures GeneralDe(mensaje, nombre) != PreguntaError
  {
    var m := Strip(Lower(mensaje));
    var r := GeneralDe(mensaje, nombre);
    if !r.Saludo? {
      if EsPregunta(mensaje) {
        TemaSinPalabras(m);
      } else {
        assert r == TemaAfirmacion(m);
      }
    }
  }

  /** A question naming no writing, working-time or error word gets none of
      those three replies. */
  lemma TemaSinPalabras(m: string)
    requires !AnyContains(m, PreguntaEscrituraPalabras)
    requires !AnyContains(m, PreguntaTiempoPalabras) && !AnyContains(m, PreguntaErrorPalabras)
    ensures TemaPregunta(m) != PreguntaEscritura && TemaPregunta(m) != PreguntaTiempo
    ensures TemaPregunta(m) != PreguntaError
  {
  }

  // ------------------------------------------------------- reply assembly

  datatype Respuesta =
    | RespAyuda(nombre: string)
    | RespProductividad(puntaje: int, nivel: Nivel, mejoras: int)
    | RespProductividadSinDatos
    | RespErrores(registros: seq<Registro>)
    | RespSinErrores
    | RespExcel
    | RespTiempo(minutos: nat, estado: EstadoTiempo)
    | RespConsejos(resumenes: seq<string>)
    | RespConsejosGenerales
    | RespOrtografia(ortografia: RespOrtografia)
    | RespGeneralDe(general: RespGeneral)

  function FechaPosterior(a: Registro, b: Registro): bool {
    a.fecha >= b.fecha
  }

  lemma OrdenesSonPreordenes()
    ensures TotalPreorder(FechaPosterior)
  {
  }

  function RegistrosDe(registros: seq<Registro>, u: UserId): (r: seq<Registro>)
    ensures forall x :: x in r <==> x in registros && x.usuario == u
    decreases |registros|
  {
    if |registros| == 0 then []
    else (if registros[0].usuario == u then [registros[0]] else []) + RegistrosDe(registros[1..], u)
  }

  function ConErrores(registros: seq<Registro>): (r: seq<Registro>)
    ensures forall x :: x in r <==> x in registros && x.errores != []
    decreases |registros|
  {
    if |registros| == 0 then []
    else (if registros[0].errores != [] then [registros[0]] else []) + ConErrores(registros[1..])
  }

  /** The three newest of the user's records that carry errors, newest date
      first: min(3, n) of the n such records, and none left out is newer than
      one kept. */
  function RegistrosConErrores(registros: seq<Registro>, u: UserId): (r: seq<Registro>)
    ensures var n := |ConErrores(RegistrosDe(registros, u))|; |r| == if n < 3 then n else 3
    ensures multiset(r) <= multiset(ConErrores(RegistrosDe(registros, u)))
    ensures forall x :: x in r ==> x in registros && x.usuario == u && x.errores != []
    ensures SortedBy(r, FechaPosterior)
    ensures forall x, y :: x in registros && x.usuario == u && x.errores != [] && x !in r && y in r ==>
      FechaPosterior(y, x)
    ensures |r| == 0 <==> forall x :: x in registros && x.usuario == u ==> x.errores == []
  {
    var candidatos := ConErrores(RegistrosDe(registros, u));
    assert forall x :: x in candidatos <==> x in registros && x.usuario == u && x.errores != [];
    OrdenesSonPreordenes();
    var r := Primeros(candidatos, FechaPosterior, 3);
    assert |candidatos| > 0 ==> candidatos[0] in candidatos && |r| > 0;
    assert forall x, y :: x in registros && x.usuario == u && x.errores != [] && x !in r && y in r ==>
      FechaPosterior(y, x) by {
      forall x, y | x in registros && x.usuario == u && x.errores != [] && x !in r && y in r
        ensures FechaPosterior(y, x)
      {
        assert x in candidatos;
      }
    }
    r
  }

  /** The query as written, `errores__isnull=False`: a list default is never
      null, so the three newest of ALL the user's records qualify, with or
      without errors: min(3, n) of the n records, newest date first, and
      none left out is newer than one kept. */
  function RegistrosConErroresTalCual(registros: seq<Registro>, u: UserId): (r: seq<Registro>)
    ensures var n := |RegistrosDe(registros, u)|; |r| == if n < 3 then n else 3
    ensures multiset(r) <= multiset(RegistrosDe(registros, u))
    ensures forall x :: x in r ==> x in registros && x.usuario == u
    ensures SortedBy(r, FechaPosterior)
    ensures forall x, y :: x in registros && x.usuario == u && x !in r && y in r ==> FechaPosterior(y, x)
  {
    var candidatos := RegistrosDe(registros, u);
    OrdenesSonPreordenes();
    Primeros(candidatos, FechaPosterior, 3)
  }

  /** A user whose only record is clean is told that errors were found. */
  lemma {:induction false} ErroresTalCualListaRegistroLimpio(u: UserId, fecha: int, contenido: map<string, string>)
    ensures var limpio := NuevoRegistro(u, fecha, contenido);
      RegistrosConErroresTalCual([limpio], u) == [limpio]
      && RegistrosConErrores([limpio], u) == []
  {
    var limpio := NuevoRegistro(u, fecha, contenido);
    assert RegistrosDe([limpio], u) == [limpio];
    assert SortBy([limpio], FechaPosterior) == [limpio] by {
      assert [limpio][..0] == [];
    }
    assert ConErrores([limpio]) == [];
  }

  function AnalisisAgenteDe(analisis: seq<IAAnalisis>, u: UserId): (r: seq<IAAnalisis>)
    ensures forall x :: x in r <==> x in analisis && x.usuario == u && x.patrones.AgentePersonal?
    decreases |analisis|
  {
    if |analisis| == 0 then []
    else (if analisis[0].usuario == u && analisis[0].patrones.AgentePersonal? then [analisis[0]] else [])
         + AnalisisAgenteDe(analisis[1..], u)
  }

  function Resumenes(analisis: seq<IAAnalisis>): (r: seq<string>)
    ensures |r| == |analisis|
    ensures forall i :: 0 <= i < |r| ==> r[i] == Abreviar(analisis[i].recomendacion, 100)
  {
    seq(|analisis|, i requires 0 <= i < |analisis| => Abreviar(analisis[i].recomendacion, 100))
  }

  /** The user's three newest agent analyses, newest first: min(3, n) of the
      n such analyses, and none left out is newer than one kept. */
  function UltimosConsejosAgente(analisis: seq<IAAnalisis>, u: UserId): (r: seq<IAAnalisis>)
    ensures var n := |AnalisisAgenteDe(analisis, u)|; |r| == if n < 3 then n else 3
    ensures multiset(r) <= multiset(AnalisisAgenteDe(analisis, u))
    ensures forall x :: x in r ==> x in analisis && x.usuario == u && x.patrones.AgentePersonal?
    ensures SortedBy(r, AnalisisPosterior)
    ensures forall x, y :: x in analisis && x.usuario == u && x.patrones.AgentePersonal? && x !in r && y in r ==>
      AnalisisPosterior(y, x)
    ensures |r| == 0 <==> forall x :: x in analisis && x.usuario == u ==> !x.patrones.AgentePersonal?
  {
    var propios := AnalisisAgenteDe(analisis, u);
    AnalisisPosteriorIsTotalPreorder();
    var r := Primeros(propios, AnalisisPosterior, 3);
    assert |propios| > 0 ==> propios[0] in propios && |r| > 0;
    assert forall x, y :: x in analisis && x.usuario == u && x.patrones.AgentePersonal? && x !in r && y in r ==>
      AnalisisPosterior(y, x) by {
      forall x, y | x in analisis && x.usuario == u && x.patrones.AgentePersonal? && x !in r && y in r
        ensures AnalisisPosterior(y, x)
      {
        assert x in propios;
      }
    }
    r
  }

  /** The recommendations of the three newest agent analyses, each cut to
      100 characters with "..." marking a cut. */
  function ConsejosRecientes(analisis: seq<IAAnalisis>, u: UserId): (r: seq<string>)
    ensures |r| == |UltimosConsejosAgente(analisis, u)| <= 3
    ensures forall i :: 0 <= i < |r| ==> r[i] == Abreviar(UltimosConsejosAgente(analisis, u)[i].recomendacion, 100)
    ensures forall i :: 0 <= i < |r| ==> |r[i]| <= 103
    ensures |r| == 0 <==> forall x :: x in analisis && x.usuario == u ==> !x.patrones.AgentePersonal?
  {
    Resumenes(UltimosConsejosAgente(analisis, u))
  }

  /** `generar_respuesta_asistente`: the reply for a message, built from the
      user's own rows. `now` is the request time. */
  function GenerarRespuesta(db: Db, u: Usuario, mensaje: string, now: Instant): (r: Respuesta)
    ensures IntencionDe(Lower(mensaje)) == Ayuda <==> r == RespAyuda(NombreVisible(u))
    ensures r.RespProductividad? ==>
      IntencionDe(Lower(mensaje)) == Productividad && r.nivel == NivelDe(r.puntaje)
    ensures IntencionDe(Lower(mensaje)) == Productividad && UltimaEstadistica(db.estadisticas, u.id).Some? ==>
      var e := UltimaEstadistica(db.estadisticas, u.id).value;
      r == RespProductividad(e.puntaje, NivelDe(e.puntaje), e.mejoras)
    ensures r == RespProductividadSinDatos <==>
      IntencionDe(Lower(mensaje)) == Productividad && forall e :: e in db.estadisticas ==> e.usuario != u.id
    ensures IntencionDe(Lower(mensaje)) == Errores ==>
      r == (if RegistrosConErrores(db.registros, u.id) != [] then RespErrores(RegistrosConErrores(db.registros, u.id))
            else RespSinErrores)
    ensures r.RespErrores? ==> 0 < |r.registros| <= 3 && forall x :: x in r.registros ==> x.usuario == u.id && x.errores != []
    ensures IntencionDe(Lower(mensaje)) == Excel <==> r == RespExcel
    ensures IntencionDe(Lower(mensaje)) == Tiempo ==>
      r.RespTiempo? && r.minutos == MinutosChat(CountOf(db.actividades, Filtro(Some(u.id), None, Some(DateOf(now)), None, None, None)))
    ensures r.RespTiempo? ==> r.estado == EstadoTiempoDe(r.minutos)
    ensures IntencionDe(Lower(mensaje)) == Consejos ==>
      r == (if ConsejosRecientes(db.analisis, u.id) != [] then RespConsejos(ConsejosRecientes(db.analisis, u.id))
            else RespConsejosGenerales)
    ensures IntencionDe(Lower(mensaje)) == Ortografia <==> r == RespOrtografia(OrtografiaDe(Lower(mensaje)))
    ensures IntencionDe(Lower(mensaje)) == General <==> r == RespGeneralDe(GeneralDe(mensaje, NombreVisible(u)))
    ensures r.RespGeneralDe? <==> IntencionDe(Lower(mensaje)) == General
  {
    var m := Lower(mensaje);
    match IntencionDe(m)
    case Ayuda => RespAyuda(NombreVisible(u))
    case Productividad =>
      (match UltimaEstadistica(db.estadisticas, u.id)
       case Some(e) => RespProductividad(e.puntaje, NivelDe(e.puntaje), e.mejoras)
       case None => RespProductividadSinDatos)
    case Errores =>
      var registros := RegistrosConErrores(db.registros, u.id);
      if |registros| > 0 then RespErrores(registros) else RespSinErrores
    case Excel => RespExcel
    case Tiempo =>
      var minutos := MinutosChat(CountOf(db.actividades, Filtro(Some(u.id), None, Some(DateOf(now)), None, None, None)));
      RespTiempo(minutos, EstadoTiempoDe(minutos))
    case Consejos =>
      var resumenes := ConsejosRecientes(db.analisis, u.id);
      if |resumenes| > 0 then RespConsejos(resumenes) else RespConsejosGenerales
    case Ortografia => RespOrtografia(OrtografiaDe(m))
    case General => RespGeneralDe(GeneralDe(mensaje, NombreVisible(u)))
  }

  datatype ChatResultado = ChatOk(respuesta: Respuesta, timestamp: Instant) | ChatSinMensaje

  /** `asistente_chat_api`: the message is trimmed; an empty one is refused
      with 400, any other is answered with the reply and the request time. */
  function AsistenteChatApi(db: Db, u: Usuario, mensaje: string, now: Instant): (r: ChatResultado)
    ensures r == ChatSinMensaje <==> Strip(mensaje) == []
    ensures r.ChatOk? ==> r.respuesta == GenerarRespuesta(db, u, Strip(mensaje), now) && r.timestamp == now
  {
    var limpio := Strip(mensaje);
    if limpio == [] then ChatSinMensaje else ChatOk(GenerarRespuesta(db, u, limpio, now), now)
  }
}
