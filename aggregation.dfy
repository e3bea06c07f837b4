/**
 * The supervision views of the back end (core/views.py): the per-user
 * activity detail with its top-applications table, and the employee
 * overview with each employee's productive share and presence state.
 */
module Aggregation {
  import opened Wrappers
  import opened Text
  import opened Sorting
  import opened Models
  import opened Validation

  // ------------------------------------------------------- label counts

  /** The count of rows carrying a given `productividad` label. */
  function CountLabel(rows: seq<ActividadUsuario>, etiqueta: string): nat {
    CountOf(rows, Filtro(None, None, None, Some(etiqueta), None, None))
  }

  /** The four label counts never exceed the total, and add up to it exactly
      when every row carries one of the four declared labels. */
  lemma {:induction false} LabelCountsPartition(rows: seq<ActividadUsuario>)
    ensures CountLabel(rows, "productive") + CountLabel(rows, "unproductive")
            + CountLabel(rows, "gaming") + CountLabel(rows, "neutral") <= |rows|
    ensures (forall x :: x in rows ==> x.productividad in ProductividadLabels) <==>
            CountLabel(rows, "productive") + CountLabel(rows, "unproductive")
            + CountLabel(rows, "gaming") + CountLabel(rows, "neutral") == |rows|
    decreases |rows|
  {
    if |rows| > 0 {
      var init := rows[..|rows| - 1];
      LabelCountsPartition(init);
      assert forall x :: x in rows <==> x in init || x == rows[|rows| - 1];
    }
  }

  // ------------------------------------------------------- top applications

  datatype AppConteo = AppConteo(ventana: string, count: nat)

  /** The number of rows whose window title is exactly `v`. */
  function CountVentana(rows: seq<ActividadUsuario>, v: string): nat
    decreases |rows|
  {
    if |rows| == 0 then 0
    else CountVentana(rows[..|rows| - 1], v) + (if rows[|rows| - 1].ventanaActiva == v then 1 else 0)
  }

  /** A title that occurs in the rows is counted at least once. */
  lemma {:induction false} CountVentanaPositive(rows: seq<ActividadUsuario>, x: ActividadUsuario)
    requires x in rows
    ensures CountVentana(rows, x.ventanaActiva) >= 1
    decreases |rows|
  {
    if rows[|rows| - 1] != x {
      var init := rows[..|rows| - 1];
      assert rows == init + [rows[|rows| - 1]];
      assert x in init;
      CountVentanaPositive(init, x);
    }
  }

  predicate Distintos(ws: seq<string>) {
    forall i, j :: 0 <= i < j < |ws| ==> ws[i] != ws[j]
  }

  /** The distinct window titles, in order of first appearance. */
  function Ventanas(rows: seq<ActividadUsuario>): (ws: seq<string>)
    ensures Distintos(ws)
    ensures forall v :: v in ws <==> CountVentana(rows, v) >= 1
    decreases |rows|
  {
    if |rows| == 0 then []
    else
      var last := rows[|rows| - 1];
      var ws := Ventanas(rows[..|rows| - 1]);
      if last.ventanaActiva in ws then ws else ws + [last.ventanaActiva]
  }

  function TallyDe(ws: seq<string>, rows: seq<ActividadUsuario>): seq<AppConteo> {
    seq(|ws|, i requires 0 <= i < |ws| => AppConteo(ws[i], CountVentana(rows, ws[i])))
  }

  /** `.values('ventana_activa').annotate(count=Count(...))`: one entry per
      distinct title with the number of rows that carry it; every title of
      the rows has its entry. */
  function Tally(rows: seq<ActividadUsuario>): (t: seq<AppConteo>)
    ensures forall i :: 0 <= i < |t| ==> t[i].count == CountVentana(rows, t[i].ventana) && t[i].count >= 1
    ensures forall i, j :: 0 <= i < j < |t| ==> t[i].ventana != t[j].ventana
    ensures forall v :: CountVentana(rows, v) >= 1 ==> exists i :: 0 <= i < |t| && t[i].ventana == v
  {
    var ws := Ventanas(rows);
    TallyDeCubre(ws, rows);
    TallyDe(ws, rows)
  }

  lemma TallyDeCubre(ws: seq<string>, rows: seq<ActividadUsuario>)
    ensures forall v :: v in ws ==> exists i :: 0 <= i < |TallyDe(ws, rows)| && TallyDe(ws, rows)[i].ventana == v
  {
    var t := TallyDe(ws, rows);
    forall v | v in ws ensures exists i :: 0 <= i < |t| && t[i].ventana == v {
      var i :| 0 <= i < |ws| && ws[i] == v;
      assert t[i].ventana == v;
    }
  }

  /** Every row's title has an entry in the tally. */
  lemma TallyCubre(rows: seq<ActividadUsuario>, x: ActividadUsuario)
    requires x in rows
    ensures exists i :: 0 <= i < |Tally(rows)| && Tally(rows)[i].ventana == x.ventanaActiva
  {
    CountVentanaPositive(rows, x);
    var t := Tally(rows);
    assert CountVentana(rows, x.ventanaActiva) >= 1;
  }

  function MayorConteo(a: AppConteo, b: AppConteo): bool {
    a.count >= b.count
  }

  lemma MayorConteoIsTotalPreorder()
    ensures TotalPreorder(MayorConteo)
  {
  }

  /** `.order_by('-count')[:10]`: at most ten titles, most frequent first,
      each with its exact count; a title left out is used no more often than
      any title kept. */
  function TopApps(rows: seq<ActividadUsuario>): (r: seq<AppConteo>)
    ensures |r| == if |Tally(rows)| < 10 then |Tally(rows)| else 10
    ensures SortedBy(r, MayorConteo)
    ensures forall i :: 0 <= i < |r| ==> r[i].count == CountVentana(rows, r[i].ventana) && r[i].count >= 1
    ensures forall i, j :: 0 <= i < j < |r| ==> r[i].ventana != r[j].ventana
    ensures |rows| > 0 ==> |r| > 0
    ensures forall y :: y in Tally(rows) && y !in r ==> forall i :: 0 <= i < |r| ==> y.count <= r[i].count
  {
    TopAppsCorrecto(rows);
    Take(SortBy(Tally(rows), MayorConteo), 10)
  }

  lemma TopAppsCorrecto(rows: seq<ActividadUsuario>)
    ensures var r := Take(SortBy(Tally(rows), MayorConteo), 10);
      && SortedBy(r, MayorConteo)
      && (forall i :: 0 <= i < |r| ==> r[i].count == CountVentana(rows, r[i].ventana) && r[i].count >= 1)
      && (forall i, j :: 0 <= i < j < |r| ==> r[i].ventana != r[j].ventana)
      && (|rows| > 0 ==> |r| > 0)
      && (forall y :: y in Tally(rows) && y !in r ==> forall i :: 0 <= i < |r| ==> y.count <= r[i].count)
  {
    var t := Tally(rows);
    var s := SortBy(t, MayorConteo);
    TallyOrdenado(rows);
    PrimerosDiez(rows, t, s);
  }

  /** The first ten of any sorted reordering of the tally with exact,
      distinct entries are its top ten. */
  lemma PrimerosDiez(rows: seq<ActividadUsuario>, t: seq<AppConteo>, s: seq<AppConteo>)
    requires multiset(s) == multiset(t)
    requires SortedBy(s, MayorConteo)
    requires forall i :: 0 <= i < |s| ==> s[i].count == CountVentana(rows, s[i].ventana) && s[i].count >= 1
    requires forall i, j :: 0 <= i < j < |s| ==> s[i].ventana != s[j].ventana
    requires |rows| > 0 ==> |s| > 0
    ensures var r := Take(s, 10);
      && SortedBy(r, MayorConteo)
      && (forall i :: 0 <= i < |r| ==> r[i].count == CountVentana(rows, r[i].ventana) && r[i].count >= 1)
      && (forall i, j :: 0 <= i < j < |r| ==> r[i].ventana != r[j].ventana)
      && (|rows| > 0 ==> |r| > 0)
      && (forall y :: y in t && y !in r ==> forall i :: 0 <= i < |r| ==> y.count <= r[i].count)
  {
    TopIsTop(t, s);
    PrefijoConserva(rows, s);
  }

  /** The tally sorted by count keeps its exact counts and distinct titles. */
  lemma TallyOrdenado(rows: seq<ActividadUsuario>)
    ensures var s := SortBy(Tally(rows), MayorConteo);
      && SortedBy(s, MayorConteo)
      && (forall i :: 0 <= i < |s| ==> s[i].count == CountVentana(rows, s[i].ventana) && s[i].count >= 1)
      && (forall i, j :: 0 <= i < j < |s| ==> s[i].ventana != s[j].ventana)
      && (|rows| > 0 ==> |s| > 0)
  {
    var t := Tally(rows);
    MayorConteoIsTotalPreorder();
    var s := SortBy(t, MayorConteo);
    SortBySorted(t, MayorConteo);
    SortedEntries(t, s);
    DistinctPermutation(t, s);
    if |rows| > 0 {
      TallyCubre(rows, rows[0]);
    }
  }

  /** The first ten entries keep what holds of every entry and pair. */
  lemma PrefijoConserva(rows: seq<ActividadUsuario>, s: seq<AppConteo>)
    requires SortedBy(s, MayorConteo)
    requires forall i :: 0 <= i < |s| ==> s[i].count == CountVentana(rows, s[i].ventana) && s[i].count >= 1
    requires forall i, j :: 0 <= i < j < |s| ==> s[i].ventana != s[j].ventana
    ensures var r := Take(s, 10);
      && SortedBy(r, MayorConteo)
      && (forall i :: 0 <= i < |r| ==> r[i].count == CountVentana(rows, r[i].ventana) && r[i].count >= 1)
      && (forall i, j :: 0 <= i < j < |r| ==> r[i].ventana != r[j].ventana)
      && (|s| > 0 ==> |r| > 0)
  {
    var r := Take(s, 10);
    assert forall i :: 0 <= i < |r| ==> r[i] == s[i];
  }

  /** The entries of a reordering of the tally are tally entries. */
  lemma SortedEntries(t: seq<AppConteo>, s: seq<AppConteo>)
    requires multiset(s) == multiset(t)
    ensures forall i :: 0 <= i < |s| ==> s[i] in t
    ensures |s| == |t|
  {
    forall i | 0 <= i < |s| ensures s[i] in t {
      assert s[i] in multiset(s);
    }
    assert |s| == |multiset(s)| == |multiset(t)| == |t|;
  }

  lemma TopIsTop(t: seq<AppConteo>, s: seq<AppConteo>)
    requires SortedBy(s, MayorConteo) && multiset(s) == multiset(t)
    ensures forall y :: y in t && y !in Take(s, 10) ==> forall i :: 0 <= i < |Take(s, 10)| ==> y.count <= Take(s, 10)[i].count
  {
    forall y | y in t && y !in Take(s, 10) ensures forall i :: 0 <= i < |Take(s, 10)| ==> y.count <= Take(s, 10)[i].count {
      assert y in multiset(s);
      TakeOfSortedIsTop(s, 10, MayorConteo, y);
    }
  }

  /** Reordering entries with distinct titles keeps the titles distinct. */
  lemma DistinctPermutation(t: seq<AppConteo>, s: seq<AppConteo>)
    requires multiset(s) == multiset(t)
    requires forall i, j :: 0 <= i < j < |t| ==> t[i].ventana != t[j].ventana
    ensures forall i, j :: 0 <= i < j < |s| ==> s[i].ventana != s[j].ventana
  {
    forall i, j | 0 <= i < j < |s| ensures s[i].ventana != s[j].ventana {
      if s[i].ventana == s[j].ventana {
        assert s[i] in multiset(t) && s[j] in multiset(t);
        var a :| 0 <= a < |t| && t[a] == s[i];
        var b :| 0 <= b < |t| && t[b] == s[j];
        assert a == b;
        Twice(s, i, j);
        DistinctOnce(t, a);
        assert false;
      }
    }
  }

  /** An entry found at two positions occurs at least twice. */
  lemma Twice(s: seq<AppConteo>, i: int, j: int)
    requires 0 <= i < j < |s| && s[i] == s[j]
    ensures multiset(s)[s[i]] >= 2
  {
    assert s == s[..j] + s[j..];
    assert s[i] in multiset(s[..j]) && s[j] in multiset(s[j..]);
  }

  /** An entry of a sequence with distinct titles occurs once. */
  lemma {:induction false} DistinctOnce(t: seq<AppConteo>, a: int)
    requires 0 <= a < |t|
    requires forall i, j :: 0 <= i < j < |t| ==> t[i].ventana != t[j].ventana
    ensures multiset(t)[t[a]] == 1
    decreases |t|
  {
    var last := |t| - 1;
    assert t == t[..last] + [t[last]];
    if a == last {
      assert t[a] !in t[..last];
    } else {
      DistinctOnce(t[..last], a);
    }
  }

  datatype AppPorcentaje = AppPorcentaje(ventana: string, count: nat, porcentaje: real)

  /** `count / max * 100`, or 0 when the maximum is 0 (exact arithmetic). */
  function Porcentaje(count: nat, max: nat): real {
    if max > 0 then (count as real) / (max as real) * 100.0 else 0.0
  }

  /** A count no larger than the maximum gives a share in [0, 100]; a
      positive one gives a share in (0, 100], and the maximum itself gives
      exactly 100. */
  lemma PorcentajeAcotado(count: nat, max: nat)
    requires count <= max
    ensures 0.0 <= Porcentaje(count, max) <= 100.0
    ensures 1 <= count ==> 0.0 < Porcentaje(count, max)
    ensures 1 <= count == max ==> Porcentaje(count, max) == 100.0
  {
    if max > 0 {
      var q := (count as real) / (max as real);
      assert q * (max as real) == count as real;
      assert q <= 1.0;
    }
  }

  /** Every entry's count as a share of the first entry's count. */
  function Porcentajes(apps: seq<AppConteo>): (r: seq<AppPorcentaje>)
    ensures |r| == |apps|
  {
    if |apps| == 0 then []
    else seq(|apps|, i requires 0 <= i < |apps| =>
               AppPorcentaje(apps[i].ventana, apps[i].count, Porcentaje(apps[i].count, apps[0].count)))
  }

  /** For a list sorted by count with every count at least 1, the first entry
      gets 100 and every entry lies in (0, 100], keeping its title and count. */
  lemma PorcentajesAcotados(apps: seq<AppConteo>)
    requires SortedBy(apps, MayorConteo)
    requires forall i :: 0 <= i < |apps| ==> apps[i].count >= 1
    ensures var r := Porcentajes(apps);
      && (|r| > 0 ==> r[0].porcentaje == 100.0)
      && (forall i :: 0 <= i < |r| ==> r[i].ventana == apps[i].ventana && r[i].count == apps[i].count)
      && (forall i :: 0 <= i < |r| ==> 0.0 < r[i].porcentaje <= 100.0)
  {
    var r := Porcentajes(apps);
    forall i | 0 <= i < |r| ensures 0.0 < r[i].porcentaje <= 100.0 {
      if i > 0 {
        assert MayorConteo(apps[0], apps[i]);
      }
      PorcentajeAcotado(apps[i].count, apps[0].count);
    }
    if |r| > 0 {
      PorcentajeAcotado(apps[0].count, apps[0].count);
    }
  }

  /** The percentage loop of `actividad_usuario_detail`: every entry is
      compared with the first. */
  method ConPorcentaje(apps: seq<AppConteo>) returns (r: seq<AppPorcentaje>)
    ensures r == Porcentajes(apps)
  {
    r := [];
    if |apps| > 0 {
      var maxCount := apps[0].count;
      for i := 0 to |apps|
        invariant |r| == i
        invariant forall k :: 0 <= k < i ==>
          r[k] == AppPorcentaje(apps[k].ventana, apps[k].count, Porcentaje(apps[k].count, maxCount))
      {
        var porcentaje := if maxCount > 0 then (apps[i].count as real) / (maxCount as real) * 100.0 else 0.0;
        r := r + [AppPorcentaje(apps[i].ventana, apps[i].count, porcentaje)];
      }
    }
  }

  // ------------------------------------------------------- per-user detail

  datatype Conteos = Conteos(productiva: nat, improductiva: nat, gaming: nat, neutral: nat, total: nat)

  function ConteosDe(rows: seq<ActividadUsuario>): (c: Conteos)
    ensures c.total == |rows|
  {
    Conteos(CountLabel(rows, "productive"), CountLabel(rows, "unproductive"),
            CountLabel(rows, "gaming"), CountLabel(rows, "neutral"), |rows|)
  }

  /** The user's rows of the last 24 hours, in storage order. */
  function Ultimas24h(rows: seq<ActividadUsuario>, u: UserId, now: Instant): (r: seq<ActividadUsuario>)
    ensures forall x :: x in r <==> x in rows && x.usuario == Some(u) && x.timestamp >= now - SecondsPerDay
  {
    Select(rows, Filtro(Some(u), Some(now - SecondsPerDay), None, None, None, None))
  }

  datatype Detalle = Detalle(
    usuario: Usuario,
    recientes: seq<ActividadUsuario>,
    conteos: Conteos,
    aplicaciones: seq<AppPorcentaje>,
    estadistica: Option<Estadistica>,
    analisis: Option<IAAnalisis>)

  datatype DetalleResultado = DetalleOk(detalle: Detalle) | DetalleSinPermiso | DetalleNoEncontrado

  /** The position of the last analysis of `u` in creation order, or -1. */
  function UltimoIndiceAnalisis(analisis: seq<IAAnalisis>, u: UserId): (i: int)
    ensures -1 <= i < |analisis|
    ensures i >= 0 ==> analisis[i].usuario == u
    ensures forall j :: i < j < |analisis| ==> analisis[j].usuario != u
    decreases |analisis|
  {
    if |analisis| == 0 then -1
    else if analisis[|analisis| - 1].usuario == u then |analisis| - 1
    else UltimoIndiceAnalisis(analisis[..|analisis| - 1], u)
  }

  /** `IAAnalisis.objects.filter(usuario=u).last()`: the table has no declared
      ordering, so this is the analysis of `u` created last. */
  function UltimoAnalisis(analisis: seq<IAAnalisis>, u: UserId): (r: Option<IAAnalisis>)
    ensures r.None? <==> forall a :: a in analisis ==> a.usuario != u
    ensures r.Some? ==> r.value in analisis && r.value.usuario == u
    ensures r.Some? ==> exists i | 0 <= i < |analisis| ::
      analisis[i] == r.value && forall j :: i < j < |analisis| ==> analisis[j].usuario != u
  {
    var i := UltimoIndiceAnalisis(analisis, u);
    if i < 0 then None else Some(analisis[i])
  }

  /** `.order_by('-timestamp')[:20]`: the 20 newest of the rows, newest first;
      min(20, n) of the n rows, and none left out is newer than one kept. */
  function Recientes(rows: seq<ActividadUsuario>): (r: seq<ActividadUsuario>)
    ensures |r| == if |rows| < 20 then |rows| else 20
    ensures NewestFirst(r)
    ensures multiset(r) <= multiset(rows)
    ensures forall x :: x in r ==> x in rows
    ensures forall x, y :: x in rows && x !in r && y in r ==> y.timestamp >= x.timestamp
  {
    LaterIsTotalPreorder();
    var r := Primeros(rows, Later, 20);
    assert forall x, y :: x in rows && x !in r && y in r ==> y.timestamp >= x.timestamp by {
      forall x, y | x in rows && x !in r && y in r ensures y.timestamp >= x.timestamp {
        assert Later(y, x);
      }
    }
    r
  }

  /** `actividad_usuario_detail`: supervision roles only; the user must
      exist; the view shows the 20 newest samples of the last 24 hours, the
      label counts, the top-ten titles with their share of the most used one,
      and the user's latest statistics and analysis. */
  method ActividadUsuarioDetail(db: Db, solicitante: Usuario, usuarioId: UserId, now: Instant) returns (r: DetalleResultado)
    ensures !EsSupervision(solicitante.rol) <==> r == DetalleSinPermiso
    ensures r == DetalleNoEncontrado <==> EsSupervision(solicitante.rol) && UsuarioPorId(db.usuarios, usuarioId).None?
    ensures r.DetalleOk? ==>
      var rows := Ultimas24h(db.actividades, usuarioId, now);
      && UsuarioPorId(db.usuarios, usuarioId) == Some(r.detalle.usuario)
      && r.detalle.recientes == Recientes(rows)
      && r.detalle.conteos == ConteosDe(rows)
      && r.detalle.aplicaciones == Porcentajes(TopApps(rows))
      && r.detalle.estadistica == UltimaEstadistica(db.estadisticas, usuarioId)
      && r.detalle.analisis == UltimoAnalisis(db.analisis, usuarioId)
  {
    if !(solicitante.rol in {Admin, Supervisor}) {
      return DetalleSinPermiso;
    }
    var usuario := UsuarioPorId(db.usuarios, usuarioId);
    if usuario.None? {
      return DetalleNoEncontrado;
    }
    var rows := Ultimas24h(db.actividades, usuarioId, now);
    var aplicaciones := ConPorcentaje(TopApps(rows));
    r := DetalleOk(Detalle(usuario.value, Recientes(rows), ConteosDe(rows), aplicaciones,
                           UltimaEstadistica(db.estadisticas, usuarioId), UltimoAnalisis(db.analisis, usuarioId)));
  }

  /** The applications table of the detail: at most ten titles, most used
      first with 100, each with its exact count and a share in (0, 100]. */
  lemma TablaAplicaciones(rows: seq<ActividadUsuario>)
    ensures var r := Porcentajes(TopApps(rows));
      && |r| <= 10
      && (|rows| > 0 ==> |r| > 0 && r[0].porcentaje == 100.0)
      && (forall i :: 0 <= i < |r| ==> r[i].count == CountVentana(rows, r[i].ventana))
      && (forall i :: 0 <= i < |r| ==> 0.0 < r[i].porcentaje <= 100.0)
      && (forall i, j :: 0 <= i < j < |r| ==> r[i].ventana != r[j].ventana && r[i].count >= r[j].count)
  {
    TablaDe(rows, TopApps(rows));
  }

  /** The percentage table of any sorted list of at most ten exact,
      distinct tally entries. */
  lemma TablaDe(rows: seq<ActividadUsuario>, top: seq<AppConteo>)
    requires |top| <= 10 && SortedBy(top, MayorConteo)
    requires forall i :: 0 <= i < |top| ==> top[i].count == CountVentana(rows, top[i].ventana) && top[i].count >= 1
    requires forall i, j :: 0 <= i < j < |top| ==> top[i].ventana != top[j].ventana
    requires |rows| > 0 ==> |top| > 0
    ensures var r := Porcentajes(top);
      && |r| <= 10
      && (|rows| > 0 ==> |r| > 0 && r[0].porcentaje == 100.0)
      && (forall i :: 0 <= i < |r| ==> r[i].count == CountVentana(rows, r[i].ventana))
      && (forall i :: 0 <= i < |r| ==> 0.0 < r[i].porcentaje <= 100.0)
      && (forall i, j :: 0 <= i < j < |r| ==> r[i].ventana != r[j].ventana && r[i].count >= r[j].count)
  {
    PorcentajesAcotados(top);
    assert forall i, j :: 0 <= i < j < |top| ==> MayorConteo(top[i], top[j]);
  }

  // ------------------------------------------------------- employee overview

  datatype Estado = Activo | InactivoHoy | SinActividad

  const VentanaActivo: int := 300

  /** The presence state as written: `(now - last).seconds < 300` reads only
      the seconds part of the difference, which wraps every 86400 seconds. */
  function EstadoTalCual(ultima: Option<ActividadUsuario>, now: Instant): Estado {
    if ultima.Some? && (now - ultima.value.timestamp) % SecondsPerDay < VentanaActivo then Activo
    else if ultima.Some? then InactivoHoy
    else SinActividad
  }

  /** A sample exactly 24 hours old is still inside the window, and the
      as-written test reports its employee as active. */
  lemma EstadoTalCualActivoTrasUnDia(a: ActividadUsuario, now: Instant)
    requires a.timestamp == now - SecondsPerDay
    ensures EstadoTalCual(Some(a), now) == Activo
    ensures EstadoEmpleado(Some(a), now) == InactivoHoy
  {
  }

  /** A sample dated one second after `now` (the client sets timestamps) has
      a `.seconds` of 86399, so the as-written test reports it inactive. */
  lemma EstadoTalCualFuturoInactivo(a: ActividadUsuario, now: Instant)
    requires a.timestamp == now + 1
    ensures EstadoTalCual(Some(a), now) == InactivoHoy
    ensures EstadoEmpleado(Some(a), now) == Activo
  {
  }

  /** The presence state: active when the newest sample of the last 24 hours
      is less than 5 minutes old, inactive today when there are samples but
      none so recent, and without activity otherwise. `ultima` is the newest
      of those samples, so "there are samples" is `ultima.Some?`. */
  function EstadoEmpleado(ultima: Option<ActividadUsuario>, now: Instant): (e: Estado)
    ensures e == Activo <==> ultima.Some? && now - ultima.value.timestamp < VentanaActivo
    ensures e == InactivoHoy <==> ultima.Some? && now - ultima.value.timestamp >= VentanaActivo
    ensures e == SinActividad <==> ultima.None?
  {
    if ultima.Some? && now - ultima.value.timestamp < VentanaActivo then Activo
    else if ultima.Some? then InactivoHoy
    else SinActividad
  }

  datatype ResumenEmpleado = ResumenEmpleado(
    usuario: Usuario,
    estado: Estado,
    ultima: Option<ActividadUsuario>,
    conteos: Conteos,
    porcentaje: real,
    analisis: Option<IAAnalisis>,
    estadistica: Option<Estadistica>)

  /** One employee's line of the overview. */
  function Resumen(db: Db, e: Usuario, now: Instant): ResumenEmpleado {
    var rows := Ultimas24h(db.actividades, e.id, now);
    var c := ConteosDe(rows);
    var ultima := Newest(rows);
    ResumenEmpleado(e, EstadoEmpleado(ultima, now), ultima, c, Porcentaje(c.productiva, c.total),
                    AnalisisMasReciente(db.analisis, e.id), UltimaEstadistica(db.estadisticas, e.id))
  }

  /** An employee's productive share lies in [0, 100] and is 0 without
      samples; the state is "no activity" exactly when there are no samples
      in the last 24 hours, and "active" only with a sample under 5 minutes
      old. */
  lemma ResumenCoherente(db: Db, e: Usuario, now: Instant)
    ensures var r := Resumen(db, e, now);
      && r.usuario == e
      && 0.0 <= r.porcentaje <= 100.0
      && (r.conteos.total == 0 ==> r.porcentaje == 0.0)
      && (r.estado == SinActividad <==> r.conteos.total == 0)
      && (r.estado == Activo ==> r.ultima.Some? && now - r.ultima.value.timestamp < VentanaActivo)
      && (r.ultima.Some? ==> r.ultima.value.usuario == Some(e.id) && r.ultima.value.timestamp >= now - SecondsPerDay)
  {
    var rows := Ultimas24h(db.actividades, e.id, now);
    LabelCountsPartition(rows);
    var c := ConteosDe(rows);
    PorcentajeAcotado(c.productiva, c.total);
  }

  function UsernameLe(a: Usuario, b: Usuario): bool {
    LexLe(a.username, b.username)
  }

  lemma UsernameLeIsTotalPreorder()
    ensures TotalPreorder(UsernameLe)
  {
    forall a: Usuario, b: Usuario ensures UsernameLe(a, b) || UsernameLe(b, a) {
      LexLeTotal(a.username, b.username);
    }
    forall a: Usuario, b: Usuario, c: Usuario | UsernameLe(a, b) && UsernameLe(b, c) ensures UsernameLe(a, c) {
      LexLeTransitive(a.username, b.username, c.username);
    }
  }

  function SoloEmpleados(usuarios: seq<Usuario>): (r: seq<Usuario>)
    ensures forall x :: x in r <==> x in usuarios && x.rol == Empleado
    decreases |usuarios|
  {
    if |usuarios| == 0 then []
    else (if usuarios[0].rol == Empleado then [usuarios[0]] else []) + SoloEmpleados(usuarios[1..])
  }

  /** `Usuario.objects.filter(rol='empleado').order_by('username')`. */
  function Empleados(usuarios: seq<Usuario>): seq<Usuario> {
    SortBy(SoloEmpleados(usuarios), UsernameLe)
  }

  /** The overview lists exactly the employees, each as often as stored,
      in username order. */
  lemma EmpleadosOrdenados(usuarios: seq<Usuario>)
    ensures multiset(Empleados(usuarios)) == multiset(SoloEmpleados(usuarios))
    ensures forall x :: x in Empleados(usuarios) <==> x in usuarios && x.rol == Empleado
    ensures SortedBy(Empleados(usuarios), UsernameLe)
  {
    var e := SoloEmpleados(usuarios);
    UsernameLeIsTotalPreorder();
    SortBySorted(e, UsernameLe);
    var r := SortBy(e, UsernameLe);
    assert forall x :: x in r <==> x in multiset(r);
    assert forall x :: x in e <==> x in multiset(e);
  }

  /** `empleados_overview`: supervision roles only (None is the redirect);
      one line per employee in username order. */
  method EmpleadosOverview(db: Db, solicitante: Usuario, now: Instant) returns (r: Option<seq<ResumenEmpleado>>)
    ensures r.None? <==> !EsSupervision(solicitante.rol)
    ensures r.Some? ==>
      var empleados := Empleados(db.usuarios);
      |r.value| == |empleados| && forall i :: 0 <= i < |r.value| ==> r.value[i] == Resumen(db, empleados[i], now)
  {
    if !(solicitante.rol in {Admin, Supervisor}) {
      return None;
    }
    var datos := Resumenes(db, Empleados(db.usuarios), now);
    return Some(datos);
  }

  /** The loop of `empleados_overview`: one line per listed employee. */
  method Resumenes(db: Db, empleados: seq<Usuario>, now: Instant) returns (datos: seq<ResumenEmpleado>)
    ensures |datos| == |empleados|
    ensures forall i :: 0 <= i < |datos| ==> datos[i] == Resumen(db, empleados[i], now)
  {
    datos := Lineas(empleados, e => Resumen(db, e, now));
  }

  /** Appends `linea(x)` for each `x` of `xs`, in order. */
  method Lineas<A, B>(xs: seq<A>, linea: A -> B) returns (ys: seq<B>)
    ensures |ys| == |xs|
    ensures forall i :: 0 <= i < |ys| ==> ys[i] == linea(xs[i])
  {
    ys := [];
    for i := 0 to |xs|
      invariant |ys| == i
      invariant forall k :: 0 <= k < i ==> ys[k] == linea(xs[k])
    {
      ys := ys + [linea(xs[i])];
    }
  }
}
