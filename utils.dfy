/**
 * The assistant's string helpers (asistente-virtual `utils`): relative time
 * of a message, e-mail and password checks, capitalisation and truncation.
 * Times are integer milliseconds; the clock is a parameter.
 */
module Utils {
  import opened Text

  // ---------------------------------------------------------- formatTime

  const MsMinuto: int := 60000
  const MsHora: int := 3600000
  const MsDia: int := 86400000

  /** What `formatTime` shows: a relative text, or the date itself in the
      `es-ES` locale for anything a day old or more. */
  datatype Hace = Relativo(texto: string) | FechaLocal(date: int)

  /** `formatTime(date)` with the current time `now`. */
  function FormatTime(date: int, now: int): (r: Hace)
    ensures now - date < MsMinuto ==> r == Relativo("Ahora")
    ensures r.FechaLocal? <==> now - date >= MsDia
  {
    var diff := now - date;
    if diff < MsMinuto then Relativo("Ahora")
    else if diff < MsHora then Relativo("Hace " + Decimal(diff / MsMinuto) + " min")
    else if diff < MsDia then Relativo("Hace " + Decimal(diff / MsHora) + " h")
    else FechaLocal(date)
  }

  /** Between a minute and an hour the text is "Hace m min" with `m` in
      [1, 59] the whole minutes elapsed; between an hour and a day it is
      "Hace h h" with `h` in [1, 23] the whole hours elapsed. */
  lemma FormatTimeCubetas(date: int, now: int)
    ensures var diff := now - date;
      MsMinuto <= diff < MsHora ==>
        exists m: nat :: 1 <= m <= 59 && m * MsMinuto <= diff < (m + 1) * MsMinuto
          && FormatTime(date, now) == Relativo("Hace " + Decimal(m) + " min")
    ensures var diff := now - date;
      MsHora <= diff < MsDia ==>
        exists h: nat :: 1 <= h <= 23 && h * MsHora <= diff < (h + 1) * MsHora
          && FormatTime(date, now) == Relativo("Hace " + Decimal(h) + " h")
  {
    var diff := now - date;
    if MsMinuto <= diff < MsHora {
      var m: nat := diff / MsMinuto;
      assert 1 <= m <= 59 && m * MsMinuto <= diff < (m + 1) * MsMinuto;
      assert FormatTime(date, now) == Relativo("Hace " + Decimal(m) + " min");
    }
    if MsHora <= diff < MsDia {
      var h: nat := diff / MsHora;
      assert 1 <= h <= 23 && h * MsHora <= diff < (h + 1) * MsHora;
      assert FormatTime(date, now) == Relativo("Hace " + Decimal(h) + " h");
    }
  }

  /** The number shown reads back as the elapsed minutes. */
  lemma FormatTimeMinutosLegibles(date: int, now: int)
    requires MsMinuto <= now - date < MsHora
    ensures var t := FormatTime(date, now).texto;
      && |t| >= 10 && t[..5] == "Hace " && t[|t| - 4..] == " min"
      && AllDigits(t[5..|t| - 4]) && DigitsValue(t[5..|t| - 4]) == (now - date) / MsMinuto
  {
    var m: nat := (now - date) / MsMinuto;
    var d := Decimal(m);
    DecimalValue(m);
    var t := FormatTime(date, now).texto;
    assert t == "Hace " + d + " min";
    assert t[5..|t| - 4] == d;
  }

  // --------------------------------------------------------- isValidEmail

  /** `[^\s@]`: neither whitespace nor an at sign. */
  predicate CaracterDeEmail(c: char) {
    !IsJsSpace(c) && c != '@'
  }

  /** `[^\s@]+` over a whole slice. */
  predicate Tramo(s: string) {
    |s| > 0 && forall i :: 0 <= i < |s| ==> CaracterDeEmail(s[i])
  }

  /** The regular expression `^[^\s@]+@[^\s@]+\.[^\s@]+$` read as a
      decomposition: a local part, '@', a domain head, '.', a domain tail. */
  ghost predicate CoincideRegexEmail(e: string) {
    exists a, p :: 0 <= a < p < |e| && e[a] == '@' && e[p] == '.'
      && Tramo(e[..a]) && Tramo(e[a + 1..p]) && Tramo(e[p + 1..])
  }

  /** The index of the first `c` in `s`, or `|s|`. */
  function IndiceDe(s: string, c: char): (k: nat)
    ensures k <= |s|
    ensures k < |s| ==> s[k] == c
    ensures forall i :: 0 <= i < k ==> s[i] != c
    decreases |s|
  {
    if |s| == 0 then 0 else if s[0] == c then 0 else 1 + IndiceDe(s[1..], c)
  }

  /** `isValidEmail`: no whitespace, one '@' with something before it, and
      after it a '.' with something on both sides. */
  function IsValidEmail(e: string): bool {
    var a := IndiceDe(e, '@');
    && 0 < a < |e|
    && (forall i | a < i < |e| :: e[i] != '@')
    && (forall i | 0 <= i < |e| :: !IsJsSpace(e[i]))
    && exists p | a + 1 < p < |e| - 1 :: e[p] == '.'
  }

  /** Every character of a slice of a string free of at signs and
      whitespace qualifies. */
  lemma TramoDe(e: string, i: int, j: int)
    requires 0 <= i < j <= |e|
    requires forall k :: i <= k < j ==> CaracterDeEmail(e[k])
    ensures Tramo(e[i..j])
  {
    var t := e[i..j];
    forall k | 0 <= k < |t| ensures CaracterDeEmail(t[k]) {
      assert t[k] == e[i + k];
    }
  }

  /** What the check accepts, the regular expression matches. */
  lemma IsValidEmailEsRegex(e: string)
    requires IsValidEmail(e)
    ensures CoincideRegexEmail(e)
  {
    var a := IndiceDe(e, '@');
    var p :| a + 1 < p < |e| - 1 && e[p] == '.';
    TramoDe(e, 0, a);
    TramoDe(e, a + 1, p);
    TramoDe(e, p + 1, |e|);
    assert e[..a] == e[0..a] && e[p + 1..] == e[p + 1..|e|];
  }

  /** The converse of TramoDe: every character of a qualifying slice qualifies. */
  lemma DeTramo(e: string, i: int, j: int)
    requires 0 <= i <= j <= |e| && Tramo(e[i..j])
    ensures forall k :: i <= k < j ==> CaracterDeEmail(e[k])
  {
    var t := e[i..j];
    forall k | i <= k < j ensures CaracterDeEmail(e[k]) {
      assert e[k] == t[k - i];
    }
  }

  /** What the regular expression matches, the check accepts. */
  lemma RegexEsIsValidEmail(e: string)
    requires CoincideRegexEmail(e)
    ensures IsValidEmail(e)
  {
    var a, p :| 0 <= a < p < |e| && e[a] == '@' && e[p] == '.'
      && Tramo(e[..a]) && Tramo(e[a + 1..p]) && Tramo(e[p + 1..]);
    assert e[..a] == e[0..a] && e[p + 1..] == e[p + 1..|e|];
    DeTramo(e, 0, a);
    DeTramo(e, a + 1, p);
    DeTramo(e, p + 1, |e|);
    ValidoConArroba(e, a, p);
  }

  /** A string whose only at sign sits at `a`, with a dot at `p` further on,
      passes the check. */
  lemma ValidoConArroba(e: string, a: nat, p: nat)
    requires 0 < a && a + 1 < p < |e| - 1 && e[a] == '@' && e[p] == '.'
    requires forall k :: 0 <= k < a ==> CaracterDeEmail(e[k])
    requires forall k :: a + 1 <= k < p ==> CaracterDeEmail(e[k])
    requires forall k :: p + 1 <= k < |e| ==> CaracterDeEmail(e[k])
    ensures IsValidEmail(e)
  {
    assert IndiceDe(e, '@') == a;
    assert !IsJsSpace(e[p]) && !IsJsSpace(e[a]);
  }

  /** The check accepts exactly the strings the regular expression matches. */
  lemma IsValidEmailSiiRegex(e: string)
    ensures IsValidEmail(e) <==> CoincideRegexEmail(e)
  {
    if IsValidEmail(e) {
      IsValidEmailEsRegex(e);
    }
    if CoincideRegexEmail(e) {
      RegexEsIsValidEmail(e);
    }
  }

  // ----------------------------------------------------- validatePassword

  /** Some character of `s` lies in the range `lo`..`hi` (a regular
      expression class such as `[A-Z]`), scanning from the front. */
  function TieneEnRango(s: string, lo: char, hi: char): bool
    decreases |s|
  {
    |s| > 0 && (lo <= s[0] <= hi || TieneEnRango(s[1..], lo, hi))
  }

  lemma {:induction false} TieneEnRangoSii(s: string, lo: char, hi: char)
    ensures TieneEnRango(s, lo, hi) <==> exists i :: 0 <= i < |s| && lo <= s[i] <= hi
    decreases |s|
  {
    if |s| > 0 {
      TieneEnRangoSii(s[1..], lo, hi);
      if exists i :: 0 <= i < |s| && lo <= s[i] <= hi {
        var i :| 0 <= i < |s| && lo <= s[i] <= hi;
        if i > 0 {
          assert s[1..][i - 1] == s[i];
        }
      }
      if TieneEnRango(s[1..], lo, hi) && !(lo <= s[0] <= hi) {
        var i :| 0 <= i < |s[1..]| && lo <= s[1..][i] <= hi;
        assert s[i + 1] == s[1..][i];
      }
    }
  }

  const LongitudMinima: nat := 8

  datatype ErroresPassword = ErroresPassword(minLength: bool, hasUpperCase: bool, hasLowerCase: bool, hasNumbers: bool)
  datatype ValidacionPassword = ValidacionPassword(isValid: bool, errors: ErroresPassword)

  /** `validatePassword`: length at least eight, an ASCII capital, an ASCII
      small letter and an ASCII digit (JavaScript's `\d`). */
  function ValidatePassword(password: string): (v: ValidacionPassword)
    ensures v.isValid <==> !v.errors.minLength && !v.errors.hasUpperCase && !v.errors.hasLowerCase && !v.errors.hasNumbers
  {
    var minLength := |password| >= LongitudMinima;
    var upper := TieneEnRango(password, 'A', 'Z');
    var lower := TieneEnRango(password, 'a', 'z');
    var digit := TieneEnRango(password, '0', '9');
    ValidacionPassword(minLength && upper && lower && digit, ErroresPassword(!minLength, !upper, !lower, !digit))
  }

  /** A password is valid exactly when it is long enough and has a capital,
      a small letter and a digit somewhere; each error flag says which of
      these is missing. */
  lemma ValidatePasswordCorrecto(password: string)
    ensures ValidatePassword(password).isValid <==>
      && |password| >= LongitudMinima
      && (exists i :: 0 <= i < |password| && 'A' <= password[i] <= 'Z')
      && (exists i :: 0 <= i < |password| && 'a' <= password[i] <= 'z')
      && (exists i :: 0 <= i < |password| && '0' <= password[i] <= '9')
    ensures ValidatePassword(password).errors.minLength <==> |password| < LongitudMinima
    ensures ValidatePassword(password).errors.hasNumbers <==> forall i :: 0 <= i < |password| ==> !('0' <= password[i] <= '9')
    ensures ValidatePassword(password).errors.hasUpperCase <==> forall i :: 0 <= i < |password| ==> !('A' <= password[i] <= 'Z')
    ensures ValidatePassword(password).errors.hasLowerCase <==> forall i :: 0 <= i < |password| ==> !('a' <= password[i] <= 'z')
  {
    TieneEnRangoSii(password, 'A', 'Z');
    TieneEnRangoSii(password, 'a', 'z');
    TieneEnRangoSii(password, '0', '9');
  }

  // ----------------------------------------------------------- capitalize

  /** `str.charAt(0).toUpperCase() + str.slice(1)`. */
  function Capitalize(s: string): (r: string)
    ensures |r| == |s|
    ensures |s| > 0 ==> r[0] == UpperChar(s[0]) && r[1..] == s[1..]
  {
    if |s| == 0 then "" else [UpperChar(s[0])] + s[1..]
  }

  /** Capitalising twice is capitalising once. */
  lemma CapitalizeIdempotente(s: string)
    ensures Capitalize(Capitalize(s)) == Capitalize(s)
  {
  }

  // --------------------------------------------------------- truncateText

  /** `truncateText(text, maxLength)`: unchanged when it fits, otherwise the
      first `maxLength - 3` characters (none when that is negative, as
      `substring` clamps) followed by "...". */
  function TruncateText(text: string, maxLength: int): (r: string)
    ensures |text| <= maxLength ==> r == text
  {
    if |text| <= maxLength then text
    else
      var n := if maxLength - 3 < 0 then 0 else maxLength - 3;
      text[..n] + "..."
  }

  /** With room for the ellipsis, a truncated text is exactly `maxLength`
      long, starts with the text and ends in "..."; with less room it is
      just "...". Either way it differs from the text. */
  lemma TruncateTextCorrecto(text: string, maxLength: int)
    requires |text| > maxLength
    ensures maxLength >= 3 ==>
      && |TruncateText(text, maxLength)| == maxLength
      && TruncateText(text, maxLength)[..maxLength - 3] == text[..maxLength - 3]
      && TruncateText(text, maxLength)[maxLength - 3..] == "..."
    ensures maxLength < 3 ==> TruncateText(text, maxLength) == "..."
    ensures |TruncateText(text, maxLength)| <= if maxLength < 3 then 3 else maxLength
  {
  }

  /** Truncating an already truncated text to the same width changes nothing. */
  lemma TruncateTextIdempotente(text: string, maxLength: int)
    requires maxLength >= 3
    ensures TruncateText(TruncateText(text, maxLength), maxLength) == TruncateText(text, maxLength)
  {
  }
}
