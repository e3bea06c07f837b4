/**
 * The monitor's dashboard (sara-monitor renderer): it keeps the fifty most
 * recent samples, newest first, and derives from them the time-distribution
 * chart, the productivity percentage, the number of distinct applications,
 * the elapsed-time clock and two automatic suggestions.
 */
module Dashboard {
  import opened Text
  import opened Models
  import Monitor

  /** The history keeps at most this many samples. */
  const MaxHistorial: nat := 50

  /** `unshift` followed by `slice(0, 50)` when the history grew past fifty. */
  function Unshift(h: seq<Monitor.Actividad>, a: Monitor.Actividad): (r: seq<Monitor.Actividad>)
    ensures |r| == if |h| + 1 < MaxHistorial then |h| + 1 else MaxHistorial
    ensures r[0] == a
    ensures r[1..] == h[..|r| - 1]
  {
    var n := [a] + h;
    assert n[1..] == h;
    if |n| > MaxHistorial then n[..MaxHistorial] else n
  }

  /** A sample stays in the history for the next 49 updates and then drops
      out: after `k` further updates the entry that was at index `i` is at
      index `i + k`, as long as that is below fifty. */
  lemma {:induction false} UnshiftDesplaza(h: seq<Monitor.Actividad>, nuevas: seq<Monitor.Actividad>, i: nat)
    requires i < |h| && i + |nuevas| < MaxHistorial
    ensures |Repetir(h, nuevas)| > i + |nuevas|
    ensures Repetir(h, nuevas)[i + |nuevas|] == h[i]
    decreases |nuevas|
  {
    if |nuevas| > 0 {
      var init := nuevas[..|nuevas| - 1];
      UnshiftDesplaza(h, init, i);
    }
  }

  /** The history after the samples `nuevas` arrived, in order. */
  function Repetir(h: seq<Monitor.Actividad>, nuevas: seq<Monitor.Actividad>): seq<Monitor.Actividad>
    decreases |nuevas|
  {
    if |nuevas| == 0 then h else Unshift(Repetir(h, nuevas[..|nuevas| - 1]), nuevas[|nuevas| - 1])
  }

  // ------------------------------------------------------ distribution

  /** How many samples of the history carry label `p`. */
  function Cuenta(h: seq<Monitor.Actividad>, p: Productividad): (n: nat)
    ensures n <= |h|
    decreases |h|
  {
    if |h| == 0 then 0
    else Cuenta(h[..|h| - 1], p) + (if h[|h| - 1].productivity == p then 1 else 0)
  }

  /** The chart's data, in the order productive, unproductive, gaming, neutral. */
  function Distribucion(h: seq<Monitor.Actividad>): seq<nat> {
    [Cuenta(h, Productive), Cuenta(h, Unproductive), Cuenta(h, Gaming), Cuenta(h, Neutral)]
  }

  /** Every sample falls in exactly one of the four slices: the slices add up
      to the history length. */
  lemma {:induction false} DistribucionSuma(h: seq<Monitor.Actividad>)
    ensures Cuenta(h, Productive) + Cuenta(h, Unproductive) + Cuenta(h, Gaming) + Cuenta(h, Neutral) == |h|
    decreases |h|
  {
    if |h| > 0 {
      DistribucionSuma(h[..|h| - 1]);
    }
  }

  /** A label's slice is empty exactly when no sample carries it. */
  lemma {:induction false} CuentaCero(h: seq<Monitor.Actividad>, p: Productividad)
    ensures Cuenta(h, p) == 0 <==> forall i :: 0 <= i < |h| ==> h[i].productivity != p
    decreases |h|
  {
    if |h| > 0 {
      CuentaCero(h[..|h| - 1], p);
      assert forall i :: 0 <= i < |h| - 1 ==> h[..|h| - 1][i] == h[i];
    }
  }

  // ------------------------------------------------------------ metrics

  /** `Math.round((productive / total) * 100)`, 0 for an empty history:
      rounding half up is the floor of `100p/t + 1/2`. */
  function PorcentajeProductivo(h: seq<Monitor.Actividad>): (r: int)
    ensures |h| == 0 ==> r == 0
  {
    if |h| > 0 then (200 * Cuenta(h, Productive) + |h|) / (2 * |h|) else 0
  }

  /** Multiplying by a positive number keeps the order. */
  lemma {:induction false} MulMonotona(a: int, b: int, d: int)
    requires a <= b && d > 0
    ensures a * d <= b * d
  {
    assert b * d - a * d == (b - a) * d;
  }

  /** The quotient `q` of `n` by `d` is pinned between `n - d` and `n`. */
  lemma DivisionEntera(n: int, d: int)
    requires d > 0
    ensures (n / d) * d <= n < (n / d) * d + d
  {
  }

  /** Rounding `100p/t` half up, for `0 <= p <= t`. */
  lemma {:induction false} RedondeoPorcentaje(p: nat, t: nat)
    requires 0 < t && p <= t
    ensures var r := (200 * p + t) / (2 * t);
      && 0 <= r <= 100
      && 200 * p - t < 2 * r * t <= 200 * p + t
      && (p == t ==> r == 100)
      && (p == 0 ==> r == 0)
  {
    var n := 200 * p + t;
    var d := 2 * t;
    var r := n / d;
    DivisionEntera(n, d);
    assert 2 * r * t == r * d;
    if r > 100 {
      MulMonotona(101, r, d);
      assert false;
    }
    if p == t {
      if r < 100 {
        MulMonotona(r + 1, 100, d);
        assert false;
      }
    }
    if p == 0 {
      if r > 0 {
        MulMonotona(1, r, d);
        assert false;
      }
    }
  }

  /** The percentage lies in [0, 100], is the nearest integer to the exact
      share (within one half), is 100 when every sample is productive and 0
      when none is. */
  lemma PorcentajeProductivoCorrecto(h: seq<Monitor.Actividad>)
    requires |h| > 0
    ensures 0 <= PorcentajeProductivo(h) <= 100
    ensures 200 * Cuenta(h, Productive) - |h| < 2 * PorcentajeProductivo(h) * |h| <= 200 * Cuenta(h, Productive) + |h|
    ensures Cuenta(h, Productive) == |h| ==> PorcentajeProductivo(h) == 100
    ensures Cuenta(h, Productive) == 0 ==> PorcentajeProductivo(h) == 0
  {
    RedondeoPorcentaje(Cuenta(h, Productive), |h|);
  }

  /** The windows seen in the history. */
  function Ventanas(h: seq<Monitor.Actividad>): (r: set<string>)
    ensures forall w :: w in r <==> exists i :: 0 <= i < |h| && h[i].activeWindow == w
    decreases |h|
  {
    if |h| == 0 then {}
    else
      var r := Ventanas(h[..|h| - 1]) + {h[|h| - 1].activeWindow};
      assert forall i :: 0 <= i < |h| - 1 ==> h[..|h| - 1][i] == h[i];
      r
  }

  /** `new Set(history.map(a => a.activeWindow)).size`. */
  function AppsActivas(h: seq<Monitor.Actividad>): nat {
    |Ventanas(h)|
  }

  /** There are never more distinct applications than samples, and at least
      one when there is a sample. */
  lemma {:induction false} AppsActivasAcotadas(h: seq<Monitor.Actividad>)
    ensures AppsActivas(h) <= |h|
    ensures |h| > 0 ==> AppsActivas(h) >= 1
    decreases |h|
  {
    if |h| > 0 {
      AppsActivasAcotadas(h[..|h| - 1]);
      assert h[0].activeWindow in Ventanas(h);
    }
  }

  // --------------------------------------------------------------- clock

  const MsPorHora: nat := 3600000
  const MsPorMinuto: nat := 60000
  const MsPorSegundo: nat := 1000

  datatype Reloj = Reloj(horas: nat, minutos: nat, segundos: nat)

  /** `updateTimeDisplay`'s arithmetic on the elapsed milliseconds. */
  function RelojDe(elapsed: nat): (c: Reloj)
    ensures c.minutos < 60 && c.segundos < 60
  {
    Reloj(elapsed / MsPorHora, (elapsed % MsPorHora) / MsPorMinuto, (elapsed % MsPorMinuto) / MsPorSegundo)
  }

  /** The remainder by a minute is fixed by any split into whole minutes and a rest. */
  lemma RestoMinuto(x: nat, q: nat, r: nat)
    requires x == q * MsPorMinuto + r && r < MsPorMinuto
    ensures x % MsPorMinuto == r
  {
  }

  /** The clock shows the elapsed time truncated to whole seconds. */
  lemma RelojExacto(elapsed: nat)
    ensures var c := RelojDe(elapsed);
      c.horas * MsPorHora + c.minutos * MsPorMinuto + c.segundos * MsPorSegundo <= elapsed
      < c.horas * MsPorHora + c.minutos * MsPorMinuto + c.segundos * MsPorSegundo + MsPorSegundo
  {
    var c := RelojDe(elapsed);
    var h, resto := elapsed / MsPorHora, elapsed % MsPorHora;
    var m, r2 := resto / MsPorMinuto, resto % MsPorMinuto;
    var s, r3 := r2 / MsPorSegundo, r2 % MsPorSegundo;
    assert elapsed == (h * 60 + m) * MsPorMinuto + r2;
    RestoMinuto(elapsed, h * 60 + m, r2);
    assert c == Reloj(h, m, s);
    assert elapsed == h * MsPorHora + m * MsPorMinuto + s * MsPorSegundo + r3;
  }

  /** `x.toString().padStart(2, '0')`. */
  function DosDigitos(x: nat): string {
    PadStart(Decimal(x), 2)
  }

  /** `HH:MM:SS`. */
  function RelojTexto(c: Reloj): string {
    DosDigitos(c.horas) + ":" + DosDigitos(c.minutos) + ":" + DosDigitos(c.segundos)
  }

  /** A number below a hundred is written as exactly two digits that read
      back as the number. */
  lemma DosDigitosCorrecto(x: nat)
    requires x < 100
    ensures |DosDigitos(x)| == 2 && AllDigits(DosDigitos(x)) && DigitsValue(DosDigitos(x)) == x
  {
    assert Pow10(2) == 100;
    PaddedDecimal(x, 2);
  }

  /** Three two-character fields joined by colons sit at fixed offsets. */
  lemma CamposConDosPuntos(a: string, b: string, d: string)
    requires |a| == 2 && |b| == 2 && |d| == 2
    ensures var t := a + ":" + b + ":" + d;
      |t| == 8 && t[2] == ':' && t[5] == ':' && t[0..2] == a && t[3..5] == b && t[6..8] == d
  {
    var t := a + ":" + b + ":" + d;
    assert t[0..2] == a;
    assert t[3..5] == b;
    assert t[6..8] == d;
  }

  /** Under a hundred hours the text is eight characters, two digits per
      field separated by colons, and each field reads back as its number. */
  lemma RelojTextoCorrecto(elapsed: nat)
    requires elapsed < 100 * MsPorHora
    ensures var c := RelojDe(elapsed); var t := RelojTexto(c);
      && |t| == 8 && t[2] == ':' && t[5] == ':'
      && AllDigits(t[0..2]) && AllDigits(t[3..5]) && AllDigits(t[6..8])
      && DigitsValue(t[0..2]) == c.horas && DigitsValue(t[3..5]) == c.minutos && DigitsValue(t[6..8]) == c.segundos
  {
    var c := RelojDe(elapsed);
    assert c.horas < 100;
    DosDigitosCorrecto(c.horas);
    DosDigitosCorrecto(c.minutos);
    DosDigitosCorrecto(c.segundos);
    CamposConDosPuntos(DosDigitos(c.horas), DosDigitos(c.minutos), DosDigitos(c.segundos));
  }

  // --------------------------------------------------------- suggestions

  const SugerenciaLimite := "Has estado mucho tiempo en aplicaciones no productivas. ¿Quieres establecer un límite de tiempo?"
  const SugerenciaPausa := "Es hora laboral. ¿Quieres pausar el monitoreo durante el trabajo?"

  /** The unproductive suggestion needs more than this many unproductive samples. */
  const UmbralNoProductivo: nat := 5

  /** The hour from which gaming no longer counts as working time. */
  const FinJornada: int := 18

  /** `checkForSuggestions(activity)` with the history already updated and
      the local hour of day passed in. */
  function Sugerencias(a: Monitor.Actividad, h: seq<Monitor.Actividad>, hora: int): (r: seq<string>)
    ensures SugerenciaLimite in r <==> a.productivity == Unproductive && Cuenta(h, Unproductive) > UmbralNoProductivo
    ensures SugerenciaPausa in r <==> a.productivity == Gaming && hora < FinJornada
    ensures |r| <= 1
    ensures r == [] <==> !(a.productivity == Unproductive && Cuenta(h, Unproductive) > UmbralNoProductivo)
                         && !(a.productivity == Gaming && hora < FinJornada)
  {
    if a.productivity == Unproductive && Cuenta(h, Unproductive) > UmbralNoProductivo then [SugerenciaLimite]
    else if a.productivity == Gaming && hora < FinJornada then [SugerenciaPausa]
    else []
  }

  /** The first suggestion needs at least six unproductive samples among the
      last fifty, counting the current one. */
  lemma SugerenciaLimiteTrasSeis(h: seq<Monitor.Actividad>, a: Monitor.Actividad, hora: int)
    requires SugerenciaLimite in Sugerencias(a, Unshift(h, a), hora)
    ensures Cuenta(Unshift(h, a), Unproductive) >= UmbralNoProductivo + 1
    ensures |Unshift(h, a)| > UmbralNoProductivo && |h| >= UmbralNoProductivo
  {
  }

  /** `statusTexts[productivity] || 'Analizando...'`: each declared label
      has its own Spanish text, anything else shows "Analizando...". */
  function EstadoTexto(etiqueta: string): (t: string)
    ensures t == "Analizando..." <==> etiqueta !in ProductividadLabels
    ensures etiqueta == "productive" ==> t == "Productivo"
    ensures etiqueta == "unproductive" ==> t == "No Productivo"
    ensures etiqueta == "gaming" ==> t == "Jugando"
    ensures etiqueta == "neutral" ==> t == "Neutral"
  {
    if etiqueta == "productive" then "Productivo"
    else if etiqueta == "unproductive" then "No Productivo"
    else if etiqueta == "gaming" then "Jugando"
    else if etiqueta == "neutral" then "Neutral"
    else "Analizando..."
  }

  // ---------------------------------------------------------------- state

  /** The renderer's state: the recent history, newest first, and the time
      the dashboard started. */
  class Panel {
    var activityHistory: seq<Monitor.Actividad>
    var startTime: int

    ghost predicate Valid()
      reads this
    {
      |activityHistory| <= MaxHistorial
    }

    constructor(now: int)
      ensures Valid() && activityHistory == [] && startTime == now
    {
      activityHistory := [];
      startTime := now;
    }

    /** `handleActivityUpdate`: records the sample in front of the history,
        keeping fifty, and returns the suggestions it triggers. */
    method HandleActivityUpdate(a: Monitor.Actividad, hora: int) returns (sugerencias: seq<string>)
      requires Valid()
      modifies this
      ensures Valid()
      ensures activityHistory == Unshift(old(activityHistory), a)
      ensures sugerencias == Sugerencias(a, activityHistory, hora)
      ensures startTime == old(startTime)
    {
      activityHistory := [a] + activityHistory;
      assert activityHistory[1..] == old(activityHistory);
      if |activityHistory| > MaxHistorial {
        activityHistory := activityHistory[..MaxHistorial];
      }
      sugerencias := Sugerencias(a, activityHistory, hora);
    }

    /** `updateCharts`: one pass over the history counting each label. */
    method UpdateCharts() returns (data: seq<nat>)
      ensures data == Distribucion(activityHistory)
    {
      var h := activityHistory;
      var productive, unproductive, gaming, neutral := 0, 0, 0, 0;
      for i := 0 to |h|
        invariant productive == Cuenta(h[..i], Productive)
        invariant unproductive == Cuenta(h[..i], Unproductive)
        invariant gaming == Cuenta(h[..i], Gaming)
        invariant neutral == Cuenta(h[..i], Neutral)
      {
        assert h[..i + 1][..i] == h[..i];
        match h[i].productivity
        case Productive => productive := productive + 1;
        case Unproductive => unproductive := unproductive + 1;
        case Gaming => gaming := gaming + 1;
        case Neutral => neutral := neutral + 1;
      }
      assert h[..|h|] == h;
      data := [productive, unproductive, gaming, neutral];
    }

    /** `updateMetrics`: the elapsed clock, the productivity percentage and
        the number of distinct applications. */
    method UpdateMetrics(now: int) returns (reloj: string, porcentaje: int, apps: nat)
      requires now >= startTime
      ensures reloj == RelojTexto(RelojDe(now - startTime))
      ensures porcentaje == PorcentajeProductivo(activityHistory)
      ensures apps == AppsActivas(activityHistory)
    {
      reloj := RelojTexto(RelojDe(now - startTime));
      porcentaje := PorcentajeProductivo(activityHistory);
      apps := AppsActivas(activityHistory);
    }
  }
}
