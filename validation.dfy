/**
 * Record validation and access control of the back end (core/views.py): the
 * `DD/MM/YYYY` date check `validar_registro` applies to a record's `fecha`
 * field, and the role and ownership tests the views apply before showing or
 * changing a row.
 */
module Validation {
  import opened Wrappers
  import opened Text
  import opened Models

  // ------------------------------------------------------- the date check

  datatype Fecha = Fecha(dia: int, mes: int, anio: int)

  predicate Bisiesto(anio: int) {
    (anio % 4 == 0 && anio % 100 != 0) || anio % 400 == 0
  }

  function DiasDelMes(mes: int, anio: int): int
    requires 1 <= mes <= 12
  {
    if mes == 2 then (if Bisiesto(anio) then 29 else 28)
    else if mes in {4, 6, 9, 11} then 30
    else 31
  }

  /** A date the calendar has (years 1 to 9999, as `datetime.date` allows). */
  predicate EsCalendario(f: Fecha) {
    1 <= f.anio <= 9999 && 1 <= f.mes <= 12 && 1 <= f.dia <= DiasDelMes(f.mes, f.anio)
  }

  /** The first index at or after `desde` holding `c`. */
  function IndexOf(s: string, c: char, desde: nat): (r: Option<nat>)
    ensures r.Some? ==> desde <= r.value < |s| && s[r.value] == c
    ensures r.Some? ==> forall k | desde <= k < r.value :: s[k] != c
    ensures r.None? ==> forall k | desde <= k < |s| :: s[k] != c
    decreases |s| - desde
  {
    if desde >= |s| then None
    else if s[desde] == c then Some(desde)
    else IndexOf(s, c, desde + 1)
  }

  /** The day field of `%d`: two digits from 01 to 31, one digit from 1 to 9,
      or a space and one digit from 1 to 9. */
  function CampoDia(d: string): (r: Option<int>)
    ensures r.Some? ==> 1 <= r.value <= 31
  {
    if |d| == 2 && AllDigits(d) && 1 <= DigitsValue(d) <= 31 then Some(DigitsValue(d))
    else if |d| == 1 && '1' <= d[0] <= '9' then Some(d[0] as int - '0' as int)
    else if |d| == 2 && d[0] == ' ' && '1' <= d[1] <= '9' then Some(d[1] as int - '0' as int)
    else None
  }

  /** The month field of `%m`: two digits from 01 to 12, or one digit from 1 to 9. */
  function CampoMes(m: string): (r: Option<int>)
    ensures r.Some? ==> 1 <= r.value <= 12
  {
    if |m| == 2 && AllDigits(m) && 1 <= DigitsValue(m) <= 12 then Some(DigitsValue(m))
    else if |m| == 1 && '1' <= m[0] <= '9' then Some(m[0] as int - '0' as int)
    else None
  }

  /** The year field of `%Y`: exactly four digits. */
  function CampoAnio(y: string): (r: Option<int>)
    ensures r.Some? ==> 0 <= r.value <= 9999
  {
    if |y| == 4 && AllDigits(y) then
      assert DigitsValue(y) < 10000 by { DigitsBound(y); }
      Some(DigitsValue(y))
    else None
  }

  lemma {:induction false} DigitsBound(s: string)
    requires AllDigits(s)
    ensures DigitsValue(s) < Pow10(|s|)
    decreases |s|
  {
    if |s| > 0 {
      DigitsBound(s[..|s| - 1]);
    }
  }

  /** `strptime(s, '%d/%m/%Y')` up to the calendar check: the text splits at
      its first two slashes into a day, a month and a four-digit year, with
      nothing after the year. */
  function ParseFecha(s: string): (r: Option<Fecha>)
    ensures r.Some? ==> 1 <= r.value.dia <= 31 && 1 <= r.value.mes <= 12 && 0 <= r.value.anio <= 9999
    ensures r.Some? ==> 8 <= |s| <= 10
  {
    match IndexOf(s, '/', 0)
    case None => None
    case Some(i) =>
      match IndexOf(s, '/', i + 1)
      case None => None
      case Some(j) =>
        var d := CampoDia(s[..i]);
        var m := CampoMes(s[i + 1..j]);
        var y := CampoAnio(s[j + 1..]);
        if d.Some? && m.Some? && y.Some? then Some(Fecha(d.value, m.value, y.value)) else None
  }

  /** `es_fecha_valida`: the text parses and names a real calendar date. */
  predicate EsFechaValida(s: string) {
    var p := ParseFecha(s);
    p.Some? && EsCalendario(p.value)
  }

  /** `strftime('%d/%m/%Y')`: zero-padded day, month and four-digit year. */
  function FormatoFecha(f: Fecha): string
    requires EsCalendario(f)
  {
    PadStart(Decimal(f.dia), 2) + "/" + PadStart(Decimal(f.mes), 2) + "/" + PadStart(Decimal(f.anio), 4)
  }

  /** Cutting a text at its first two slashes recovers the three fields. */
  lemma {:induction false} ParseCampos(a: string, b: string, c: string)
    requires '/' !in a && '/' !in b
    ensures var s := a + "/" + b + "/" + c;
      IndexOf(s, '/', 0) == Some(|a|) && IndexOf(s, '/', |a| + 1) == Some(|a| + 1 + |b|)
      && s[..|a|] == a && s[|a| + 1..|a| + 1 + |b|] == b && s[|a| + 2 + |b|..] == c
  {
    var s := a + "/" + b + "/" + c;
    assert forall k | 0 <= k < |a| :: s[k] == a[k];
    assert forall k | |a| + 1 <= k < |a| + 1 + |b| :: s[k] == b[k - |a| - 1];
    var i := IndexOf(s, '/', 0);
    assert s[|a|] == '/';
    assert i == Some(|a|);
    assert s[|a| + 1 + |b|] == '/';
    assert IndexOf(s, '/', |a| + 1) == Some(|a| + 1 + |b|);
  }

  lemma DigitsHaveNoSlash(s: string)
    requires AllDigits(s)
    ensures '/' !in s
  {
  }

  /** The zero-padded fields `strftime` writes for a calendar date. */
  lemma {:induction false} CamposRellenos(f: Fecha)
    requires EsCalendario(f)
    ensures var dd := PadStart(Decimal(f.dia), 2);
      |dd| == 2 && AllDigits(dd) && CampoDia(dd) == Some(f.dia) && '/' !in dd
    ensures var mm := PadStart(Decimal(f.mes), 2);
      |mm| == 2 && AllDigits(mm) && CampoMes(mm) == Some(f.mes) && '/' !in mm
    ensures CampoAnio(PadStart(Decimal(f.anio), 4)) == Some(f.anio)
  {
    assert Pow10(2) == 100 && Pow10(4) == 10000;
    PaddedDecimal(f.dia, 2);
    PaddedDecimal(f.mes, 2);
    PaddedDecimal(f.anio, 4);
  }

  /** Every calendar date, written the way the form asks for it, passes the
      check and parses back to itself. */
  lemma {:induction false} FormatoFechaRoundTrip(f: Fecha)
    requires EsCalendario(f)
    ensures ParseFecha(FormatoFecha(f)) == Some(f)
    ensures EsFechaValida(FormatoFecha(f))
  {
    var dd := PadStart(Decimal(f.dia), 2);
    var mm := PadStart(Decimal(f.mes), 2);
    var yy := PadStart(Decimal(f.anio), 4);
    CamposRellenos(f);
    ParseCampos(dd, mm, yy);
  }

  /** The parser also takes unpadded fields, as `strptime` does. */
  lemma AceptaSinCeros()
    ensures EsFechaValida("1/2/2024")
    ensures ParseFecha("1/2/2024") == Some(Fecha(1, 2, 2024))
  {
    ParseCampos("1", "2", "2024");
    assert "1" + "/" + "2" + "/" + "2024" == "1/2/2024";
    assert DigitsValue("2024") == 2024 by {
      assert "2024"[..3] == "202" && "202"[..2] == "20" && "20"[..1] == "2" && "2"[..0] == "";
    }
  }

  lemma ValoresFebrero()
    ensures DigitsValue("2023") == 2023 && DigitsValue("2024") == 2024
    ensures DigitsValue("02") == 2 && DigitsValue("29") == 29
  {
    assert "2023"[..3] == "202" && "2024"[..3] == "202";
    assert "202"[..2] == "20" && "20"[..1] == "2" && "2"[..0] == "";
    assert "02"[..1] == "0" && "0"[..0] == "";
    assert "29"[..1] == "2";
  }

  /** The text "29/02/yyyy" parses to 29 February of that year. */
  lemma ParseVeintinueveFebrero(y: string, anio: int)
    requires |y| == 4 && AllDigits(y) && DigitsValue(y) == anio
    ensures ParseFecha("29/02/" + y) == Some(Fecha(29, 2, anio))
  {
    ParseCampos("29", "02", y);
    assert "29" + "/" + "02" + "/" + y == "29/02/" + y;
    ValoresFebrero();
    assert CampoDia("29") == Some(29);
    assert CampoMes("02") == Some(2);
    assert CampoAnio(y) == Some(anio);
  }

  lemma FebreroComun()
    ensures !EsFechaValida("29/02/2023")
  {
    ValoresFebrero();
    ParseVeintinueveFebrero("2023", 2023);
    assert "29/02/" + "2023" == "29/02/2023";
    assert !Bisiesto(2023);
  }

  lemma FebreroBisiesto()
    ensures EsFechaValida("29/02/2024")
  {
    ValoresFebrero();
    ParseVeintinueveFebrero("2024", 2024);
    assert "29/02/" + "2024" == "29/02/2024";
    assert Bisiesto(2024);
  }

  /** A day the month does not have is refused: 29 February of a common year,
      accepted in a leap year. */
  lemma VeintinueveDeFebrero()
    ensures !EsFechaValida("29/02/2023")
    ensures EsFechaValida("29/02/2024")
  {
    FebreroComun();
    FebreroBisiesto();
  }

  const MensajeFechaIncorrecta := "Formato de fecha incorrecto (DD/MM/AAAA)"

  /** `validar_registro`: at most one error, about `fecha`, present exactly
      when the record has a `fecha` field that is not a valid date. */
  function ValidarRegistro(contenido: map<string, string>): (r: seq<ErrorCampo>)
    ensures |r| <= 1
    ensures r == [] <==> "fecha" !in contenido || EsFechaValida(contenido["fecha"])
    ensures r != [] ==> r[0] == ErrorCampo("fecha", MensajeFechaIncorrecta)
  {
    if "fecha" in contenido && !EsFechaValida(contenido["fecha"]) then
      [ErrorCampo("fecha", MensajeFechaIncorrecta)]
    else []
  }

  /** A record whose `fecha` is a calendar date written as the form asks
      validates cleanly, whatever else it holds. */
  lemma {:induction false} RegistroConFechaCorrecta(contenido: map<string, string>, f: Fecha)
    requires EsCalendario(f)
    ensures ValidarRegistro(contenido["fecha" := FormatoFecha(f)]) == []
  {
    FormatoFechaRoundTrip(f);
  }

  // ------------------------------------------------------- access control

  /** Admins and supervisors see every user's rows. */
  predicate EsSupervision(rol: Rol) {
    rol == Admin || rol == Supervisor
  }

  /** Editing or viewing one record, statistic or analysis: supervision
      roles always, anyone else only for their own row. */
  predicate PuedeAcceder(solicitante: Usuario, propietario: UserId) {
    EsSupervision(solicitante.rol) || propietario == solicitante.id
  }

  /** User management is for admins only. */
  predicate PuedeGestionarUsuarios(solicitante: Usuario) {
    solicitante.rol == Admin
  }

  datatype Destino = Login | PanelAdministracion | PanelPersonal

  /** `dashboard_view`: anonymous visitors log in, supervision roles go to
      the administration dashboard, employees to their own. */
  function DestinoDashboard(u: Option<Usuario>): (d: Destino)
    ensures d == Login <==> u.None?
    ensures d == PanelAdministracion <==> u.Some? && EsSupervision(u.value.rol)
    ensures d == PanelPersonal <==> u.Some? && u.value.rol == Empleado
  {
    match u
    case None => Login
    case Some(x) => if x.rol in {Admin, Supervisor} then PanelAdministracion else PanelPersonal
  }

  /** `registros_list`: every record for supervision roles, the user's own
      otherwise. */
  function RegistrosVisibles(registros: seq<Registro>, u: Usuario): (r: seq<Registro>)
    ensures |r| <= |registros|
    ensures forall x :: x in r <==> x in registros && PuedeAcceder(u, x.usuario)
    decreases |registros|
  {
    if |registros| == 0 then []
    else (if EsSupervision(u.rol) || registros[0].usuario == u.id then [registros[0]] else [])
         + RegistrosVisibles(registros[1..], u)
  }

  /** An employee's list holds only their own records, and all of them. */
  lemma {:induction false} EmpleadoVeSoloLoSuyo(registros: seq<Registro>, u: Usuario)
    requires u.rol == Empleado
    ensures forall x :: x in RegistrosVisibles(registros, u) <==> x in registros && x.usuario == u.id
  {
  }
}
