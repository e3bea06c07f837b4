/**
 * The records of the back end (core/models.py): users and their roles, daily
 * records, per-user statistics, AI analyses and monitored activity rows, with
 * the choices and defaults the schema declares. Timestamps are whole seconds
 * since the Unix epoch, in UTC.
 */
module Models {
  import opened Wrappers
  import opened Text
  import opened Sorting

  type UserId = int

  /** A point in time: seconds since 1970-01-01T00:00:00Z. */
  type Instant = int

  const SecondsPerMinute: int := 60
  const SecondsPerHour: int := 3600
  const SecondsPerDay: int := 86400

  /** `datetime.hour` of a UTC instant. */
  function HourOf(t: Instant): (h: int)
    ensures 0 <= h < 24
  {
    (t / SecondsPerHour) % 24
  }

  /** `datetime.date()` of a UTC instant, as a day number since the epoch:
      the instant lies within that day's 86400 seconds. */
  function DateOf(t: Instant): (d: int)
    ensures d * SecondsPerDay <= t < d * SecondsPerDay + SecondsPerDay
  {
    t / SecondsPerDay
  }

  // ---------------------------------------------------------------- Usuario

  datatype Rol = Admin | Supervisor | Empleado

  /** The stored value of each role choice. */
  function RolLabel(r: Rol): string {
    match r
    case Admin => "admin"
    case Supervisor => "supervisor"
    case Empleado => "empleado"
  }

  /** Reading a stored role back: exactly the three declared choices are roles. */
  function ParseRol(s: string): (r: Option<Rol>)
    ensures r.Some? <==> s in ["admin", "supervisor", "empleado"]
    ensures r.Some? ==> RolLabel(r.value) == s
  {
    if s == "admin" then Some(Admin)
    else if s == "supervisor" then Some(Supervisor)
    else if s == "empleado" then Some(Empleado)
    else None
  }

  /** `rol = CharField(..., default='empleado')`. */
  const DefaultRol: Rol := Empleado

  datatype Usuario = Usuario(id: UserId, username: string, firstName: string, lastName: string, rol: Rol)

  /** A user created without an explicit role is an employee. */
  function NuevoUsuario(id: UserId, username: string, rol: Option<Rol>): (u: Usuario)
    ensures u.id == id && u.username == username
    ensures rol.None? ==> u.rol == Empleado
    ensures rol.Some? ==> u.rol == rol.value
  {
    Usuario(id, username, "", "", rol.GetOr(DefaultRol))
  }

  /** `get_full_name() or username`: first and last name when either is set. */
  function NombreVisible(u: Usuario): (r: string)
    ensures Strip(u.firstName + " " + u.lastName) != [] ==> r == Strip(u.firstName + " " + u.lastName)
    ensures Strip(u.firstName + " " + u.lastName) == [] ==> r == u.username
  {
    var completo := Strip(u.firstName + " " + u.lastName);
    if completo != [] then completo else u.username
  }

  // ---------------------------------------------------------------- Registro

  datatype ErrorCampo = ErrorCampo(campo: string, mensaje: string)

  /** `contenido` is a JSON object; the model keeps its string-valued fields. */
  datatype Registro = Registro(usuario: UserId, fecha: int, contenido: map<string, string>, errores: seq<ErrorCampo>)

  /** `errores = JSONField(default=list)`: a new record carries no errors. */
  function NuevoRegistro(usuario: UserId, fecha: int, contenido: map<string, string>): (r: Registro)
    ensures r.usuario == usuario && r.fecha == fecha && r.contenido == contenido
    ensures r.errores == []
  {
    Registro(usuario, fecha, contenido, [])
  }

  // ---------------------------------------------------------------- Estadistica

  /** Per-user productivity score and improvement counter. */
  datatype Estadistica = Estadistica(usuario: UserId, puntaje: int, mejoras: int, fechaActualizacion: Instant)

  /** `puntaje` and `mejoras` default to 0; `fecha_actualizacion` is `auto_now`. */
  function NuevaEstadistica(usuario: UserId, now: Instant): (e: Estadistica)
    ensures e.usuario == usuario && e.fechaActualizacion == now
    ensures e.puntaje == 0 && e.mejoras == 0
  {
    Estadistica(usuario, 0, 0, now)
  }

  // ---------------------------------------------------------------- IAAnalisis

  /** `patrones_detectados`: empty by default, or one of the two shapes the
      advice engines write, told apart by their `tipo`. */
  datatype Patrones =
    | SinPatrones
    | AgentePersonal(ventanaActiva: string, consejosContextuales: nat, consejosProductividad: nat,
                     consejosTiempo: nat, timestamp: Instant)
    | Proactivo(ventanaActiva: string, horaActual: int, tiempoEnApp: nat, timestamp: Instant)

  datatype IAAnalisis = IAAnalisis(usuario: UserId, recomendacion: string, patrones: Patrones, fechaAnalisis: Instant)

  /** `patrones_detectados` defaults to an empty list and `fecha_analisis` to
      the creation time. */
  function NuevoAnalisis(usuario: UserId, recomendacion: string, patrones: Option<Patrones>, now: Instant): (a: IAAnalisis)
    ensures a.usuario == usuario && a.recomendacion == recomendacion
    ensures a.fechaAnalisis == now
    ensures patrones.None? ==> a.patrones == SinPatrones
    ensures patrones.Some? ==> a.patrones == patrones.value
  {
    IAAnalisis(usuario, recomendacion, patrones.GetOr(SinPatrones), now)
  }

  // ---------------------------------------------------------------- ActividadUsuario

  /** The four declared `productividad` choices. */
  datatype Productividad = Productive | Unproductive | Gaming | Neutral

  function ProductividadLabel(p: Productividad): string {
    match p
    case Productive => "productive"
    case Unproductive => "unproductive"
    case Gaming => "gaming"
    case Neutral => "neutral"
  }

  const ProductividadLabels: seq<string> := ["productive", "unproductive", "gaming", "neutral"]

  /** Reading a stored label back: exactly the four declared choices parse. */
  function ParseProductividad(s: string): (r: Option<Productividad>)
    ensures r.Some? <==> s in ProductividadLabels
    ensures r.Some? ==> ProductividadLabel(r.value) == s
  {
    if s == "productive" then Some(Productive)
    else if s == "unproductive" then Some(Unproductive)
    else if s == "gaming" then Some(Gaming)
    else if s == "neutral" then Some(Neutral)
    else None
  }

  /** Every choice has its own label and parses back to itself. */
  lemma ProductividadChoices(p: Productividad)
    ensures ProductividadLabel(p) in ProductividadLabels
    ensures ParseProductividad(ProductividadLabel(p)) == Some(p)
    ensures |ProductividadLabels| == 4
    ensures forall i, j :: 0 <= i < j < 4 ==> ProductividadLabels[i] != ProductividadLabels[j]
  {
  }

  /** One element of the JSON process list a client reports (CPU and memory
      in thousandths of a percent). */
  datatype ProcesoInfo = ProcesoInfo(name: string, cpu: int, memory: int)

  /** One monitored sample. `usuario` may be null; `productividad` holds
      whatever label the client sent, because `create()` does not check choices. */
  datatype ActividadUsuario = ActividadUsuario(
    usuario: Option<UserId>,
    machineId: string,
    timestamp: Instant,
    ventanaActiva: string,
    procesosActivos: seq<ProcesoInfo>,
    cargaSistema: map<string, int>,
    productividad: string,
    fechaCreacion: Instant)

  /** `Meta.ordering = ['-timestamp']`: newest first. */
  predicate NewestFirst(rows: seq<ActividadUsuario>) {
    forall i, j :: 0 <= i < j < |rows| ==> rows[i].timestamp >= rows[j].timestamp
  }

  function Later(a: ActividadUsuario, b: ActividadUsuario): bool {
    a.timestamp >= b.timestamp
  }

  lemma LaterIsTotalPreorder()
    ensures TotalPreorder(Later)
  {
  }

  /** A query's default order: the rows, newest first (stable among equal timestamps). */
  function Ordered(rows: seq<ActividadUsuario>): (r: seq<ActividadUsuario>)
    ensures multiset(r) == multiset(rows)
    ensures NewestFirst(r)
  {
    LaterIsTotalPreorder();
    SortBySorted(rows, Later);
    SortBy(rows, Later)
  }

  /** `.order_by('-timestamp').first()`: a newest row, or None for no rows. */
  function Newest(rows: seq<ActividadUsuario>): (r: Option<ActividadUsuario>)
    ensures r.None? <==> |rows| == 0
    ensures r.Some? ==> r.value in rows
    ensures r.Some? ==> forall x :: x in rows ==> x.timestamp <= r.value.timestamp
  {
    var o := Ordered(rows);
    if |o| == 0 then None
    else
      assert o[0] in multiset(rows);
      assert forall x :: x in rows ==> x in multiset(o);
      Some(o[0])
  }

  function AnalisisPosterior(a: IAAnalisis, b: IAAnalisis): bool {
    a.fechaAnalisis >= b.fechaAnalisis
  }

  lemma AnalisisPosteriorIsTotalPreorder()
    ensures TotalPreorder(AnalisisPosterior)
  {
  }

  /** The analyses of one user, in storage order. */
  function AnalisisDe(analisis: seq<IAAnalisis>, u: UserId): (r: seq<IAAnalisis>)
    ensures forall a :: a in r <==> a in analisis && a.usuario == u
    decreases |analisis|
  {
    if |analisis| == 0 then []
    else (if analisis[0].usuario == u then [analisis[0]] else []) + AnalisisDe(analisis[1..], u)
  }

  /** `.order_by('-fecha_analisis').first()` over one user's analyses. */
  function AnalisisMasReciente(analisis: seq<IAAnalisis>, u: UserId): (r: Option<IAAnalisis>)
    ensures r.None? <==> forall a :: a in analisis ==> a.usuario != u
    ensures r.Some? ==> r.value in analisis && r.value.usuario == u
    ensures r.Some? ==> forall a :: a in analisis && a.usuario == u ==> a.fechaAnalisis <= r.value.fechaAnalisis
  {
    var propios := AnalisisDe(analisis, u);
    AnalisisPosteriorIsTotalPreorder();
    SortByFirst(propios, AnalisisPosterior);
    var o := SortBy(propios, AnalisisPosterior);
    if |o| == 0 then None
    else
      assert o[0] in propios;
      Some(o[0])
  }

  // ---------------------------------------------------------------- queries

  /** The keyword arguments of a `ActividadUsuario.objects.filter(...)` call
      the back end uses; an absent argument does not filter. */
  datatype Filtro = Filtro(
    usuario: Option<UserId>,          // usuario=
    desde: Option<Instant>,           // timestamp__gte=
    dia: Option<int>,                 // timestamp__date=
    productividad: Option<string>,    // productividad=
    ventanaContiene: Option<seq<string>>, // ventana_activa__icontains= (any of the words)
    ventanaIgual: Option<string>)     // ventana_activa__iexact=

  function PorUsuario(u: UserId): Filtro {
    Filtro(Some(u), None, None, None, None, None)
  }

  predicate Matches(f: Filtro, a: ActividadUsuario) {
    && (f.usuario.Some? ==> a.usuario == f.usuario)
    && (f.desde.Some? ==> a.timestamp >= f.desde.value)
    && (f.dia.Some? ==> DateOf(a.timestamp) == f.dia.value)
    && (f.productividad.Some? ==> a.productividad == f.productividad.value)
    && (f.ventanaContiene.Some? ==>
          exists k | 0 <= k < |f.ventanaContiene.value| :: Contains(Lower(a.ventanaActiva), Lower(f.ventanaContiene.value[k])))
    && (f.ventanaIgual.Some? ==> Lower(a.ventanaActiva) == Lower(f.ventanaIgual.value))
  }

  /** The rows a filter selects, in storage order. */
  function Select(rows: seq<ActividadUsuario>, f: Filtro): (r: seq<ActividadUsuario>)
    ensures |r| <= |rows|
    ensures forall x :: x in r <==> x in rows && Matches(f, x)
    decreases |rows|
  {
    if |rows| == 0 then []
    else
      var init := Select(rows[..|rows| - 1], f);
      var last := rows[|rows| - 1];
      assert rows == rows[..|rows| - 1] + [last];
      if Matches(f, last) then init + [last] else init
  }

  /** `.count()` of a filtered query. */
  function CountOf(rows: seq<ActividadUsuario>, f: Filtro): nat {
    |Select(rows, f)|
  }

  /** Appending a row raises a count by one exactly when the row matches. */
  lemma {:induction false} CountOfAppend(rows: seq<ActividadUsuario>, extra: seq<ActividadUsuario>, f: Filtro)
    ensures CountOf(rows + extra, f) == CountOf(rows, f) + CountOf(extra, f)
    decreases |extra|
  {
    if |extra| > 0 {
      var e0 := extra[..|extra| - 1];
      CountOfAppend(rows, e0, f);
      assert (rows + extra)[..|rows + extra| - 1] == rows + e0;
      assert extra[..|extra| - 1] == e0;
    } else {
      assert rows + extra == rows;
    }
  }

  /** Narrowing a filter can only lower a count. */
  lemma {:induction false} CountOfMonotone(rows: seq<ActividadUsuario>, f: Filtro, g: Filtro)
    requires forall x :: Matches(g, x) ==> Matches(f, x)
    ensures CountOf(rows, g) <= CountOf(rows, f)
    decreases |rows|
  {
    if |rows| > 0 {
      CountOfMonotone(rows[..|rows| - 1], f, g);
    }
  }

  // ---------------------------------------------------------------- tables

  /** The tables the back end reads, each in primary-key (creation) order. */
  datatype Db = Db(
    usuarios: seq<Usuario>,
    registros: seq<Registro>,
    estadisticas: seq<Estadistica>,
    analisis: seq<IAAnalisis>,
    actividades: seq<ActividadUsuario>)

  /** `Usuario.objects.get(id=...)`: ids are the primary key, so the first
      user with the id is the only one. */
  function UsuarioPorId(usuarios: seq<Usuario>, id: UserId): (r: Option<Usuario>)
    ensures r.None? <==> forall x :: x in usuarios ==> x.id != id
    ensures r.Some? ==> r.value in usuarios && r.value.id == id
    decreases |usuarios|
  {
    if |usuarios| == 0 then None
    else if usuarios[0].id == id then Some(usuarios[0])
    else UsuarioPorId(usuarios[1..], id)
  }

  /** `Estadistica.objects.filter(usuario=u)`, in creation order. The schema
      does not make the user unique, so there may be several. */
  function EstadisticasDe(stats: seq<Estadistica>, u: UserId): (r: seq<Estadistica>)
    ensures |r| <= |stats|
    ensures forall e :: e in r <==> e in stats && e.usuario == u
    ensures r == [] <==> forall e :: e in stats ==> e.usuario != u
    decreases |stats|
  {
    if |stats| == 0 then []
    else (if stats[0].usuario == u then [stats[0]] else []) + EstadisticasDe(stats[1..], u)
  }

  /** The position of the last statistics row of `u` in creation order, or -1. */
  function UltimoIndice(stats: seq<Estadistica>, u: UserId): (i: int)
    ensures -1 <= i < |stats|
    ensures i >= 0 ==> stats[i].usuario == u
    ensures forall j :: i < j < |stats| ==> stats[j].usuario != u
    decreases |stats|
  {
    if |stats| == 0 then -1
    else if stats[|stats| - 1].usuario == u then |stats| - 1
    else UltimoIndice(stats[..|stats| - 1], u)
  }

  /** `.filter(usuario=u).last()`: the table has no declared ordering, so this
      is the statistics row of `u` created last. */
  function UltimaEstadistica(stats: seq<Estadistica>, u: UserId): (r: Option<Estadistica>)
    ensures r.None? <==> forall e :: e in stats ==> e.usuario != u
    ensures r.Some? ==> r.value in stats && r.value.usuario == u
    ensures r.Some? ==> exists i | 0 <= i < |stats| ::
      stats[i] == r.value && forall j :: i < j < |stats| ==> stats[j].usuario != u
  {
    var i := UltimoIndice(stats, u);
    if i < 0 then None else Some(stats[i])
  }
}
