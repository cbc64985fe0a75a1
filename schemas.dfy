/**
 * The form schemas for client types, clients and invoices. Each field rule
 * is a length bound (in UTF-16 code units, as JavaScript counts), a
 * character-class pattern or a numeric lower bound; a record is valid when
 * every field rule holds.
 */
module Schemas {
  import opened Wrappers
  import opened Text

  /** JavaScript's `\s`: the white-space and line-terminator characters. */
  predicate IsJsSpace(c: char)
  {
    c == '\t' || c == '\n' || c == '\U{0B}' || c == '\U{0C}' || c == '\r' || c == ' ' ||
    c == '\U{A0}' || c == '\U{1680}' || ('\U{2000}' <= c <= '\U{200A}') ||
    c == '\U{2028}' || c == '\U{2029}' || c == '\U{202F}' || c == '\U{205F}' ||
    c == '\U{3000}' || c == '\U{FEFF}'
  }

  /** The class `[a-zA-ZÀ-ÿ\s]` of the name patterns. */
  predicate IsNameChar(c: char)
  {
    ('a' <= c <= 'z') || ('A' <= c <= 'Z') || ('\U{C0}' <= c <= '\U{FF}') || IsJsSpace(c)
  }

  /** JavaScript's `\d`. */
  predicate IsDigit(c: char)
  {
    '0' <= c <= '9'
  }

  datatype CharClass = NameChars | Digits

  predicate InClass(k: CharClass, c: char)
  {
    match k
    case NameChars => IsNameChar(c)
    case Digits => IsDigit(c)
  }

  /** The whole string matches `^[k]+$`. */
  function MatchesOneOrMore(s: string, k: CharClass): bool
  {
    |s| > 0 && InClass(k, s[0]) && (|s| == 1 || MatchesOneOrMore(s[1..], k))
  }

  /** The whole string matches `^[k]{lo,hi}$`. */
  function MatchesBetween(s: string, k: CharClass, lo: nat, hi: nat): bool
  {
    if s == [] then lo == 0
    else hi > 0 && InClass(k, s[0]) && MatchesBetween(s[1..], k, if lo > 0 then lo - 1 else 0, hi - 1)
  }

  predicate AllIn(s: string, k: CharClass)
  {
    forall i | 0 <= i < |s| :: InClass(k, s[i])
  }

  lemma {:induction false} OneOrMoreRule(s: string, k: CharClass)
    ensures MatchesOneOrMore(s, k) <==> |s| >= 1 && AllIn(s, k)
  {
    if |s| > 1 {
      OneOrMoreRule(s[1..], k);
      assert AllIn(s, k) <==> InClass(k, s[0]) && AllIn(s[1..], k) by {
        assert forall i | 1 <= i < |s| :: s[i] == s[1..][i - 1];
      }
    }
  }

  lemma {:induction false} BetweenRule(s: string, k: CharClass, lo: nat, hi: nat)
    ensures MatchesBetween(s, k, lo, hi) <==> lo <= |s| <= hi && AllIn(s, k)
  {
    if s != [] && hi > 0 {
      BetweenRule(s[1..], k, if lo > 0 then lo - 1 else 0, hi - 1);
      assert AllIn(s, k) <==> InClass(k, s[0]) && AllIn(s[1..], k) by {
        assert forall i | 1 <= i < |s| :: s[i] == s[1..][i - 1];
      }
    }
  }

  /** Every character of a class lies in the Basic Multilingual Plane, so
      the JavaScript length of such a string is its character count. */
  lemma ClassLength(s: string, k: CharClass)
    requires AllIn(s, k)
    ensures Utf16Length(s) == |s|
  {
    assert InBmp(s) by {
      forall i | 0 <= i < |s| ensures s[i] as int <= 0xFFFF {
        assert InClass(k, s[i]);
      }
    }
    Utf16LengthBounds(s);
  }

  /** `z.string().min(n)`. */
  predicate MinLength(s: string, n: nat)
  {
    Utf16Length(s) >= n
  }

  /** `min(1)` is the same as "not empty". */
  lemma NonEmptyRule(s: string)
    ensures MinLength(s, 1) <==> s != []
  {
    Utf16LengthBounds(s);
  }

  /** A name field: at least `n` characters of the name class. */
  predicate NameFieldOk(s: string, n: nat)
  {
    MinLength(s, n) && MatchesOneOrMore(s, NameChars)
  }

  lemma NameFieldRule(s: string, n: nat)
    requires n >= 1
    ensures NameFieldOk(s, n) <==> |s| >= n && forall i | 0 <= i < |s| :: IsNameChar(s[i])
  {
    OneOrMoreRule(s, NameChars);
    if AllIn(s, NameChars) {
      ClassLength(s, NameChars);
    }
  }

  // ---------------------------------------------------------------------
  // tipoClienteSchema

  datatype TipoClienteForm = TipoClienteForm(nombre: string, montoMaximo: real)

  predicate TipoClienteNombreOk(s: string)
  {
    NameFieldOk(s, 3)
  }

  predicate MontoMaximoOk(x: real)
  {
    x >= 0.0
  }

  predicate TipoClienteValid(f: TipoClienteForm)
    ensures TipoClienteValid(f) ==> f.nombre != [] && f.montoMaximo >= 0.0
  {
    TipoClienteNombreOk(f.nombre) && MontoMaximoOk(f.montoMaximo)
  }

  /** A client-type name is at least three letters or spaces. */
  lemma TipoClienteNombreRule(s: string)
    ensures TipoClienteNombreOk(s) <==> |s| >= 3 && forall i | 0 <= i < |s| :: IsNameChar(s[i])
  {
    NameFieldRule(s, 3);
  }

  /** A client type is valid exactly when its name is at least three
      letters or spaces and its maximum amount is not negative. */
  lemma TipoClienteRule(f: TipoClienteForm)
    ensures TipoClienteValid(f) <==>
      |f.nombre| >= 3 && (forall i | 0 <= i < |f.nombre| :: IsNameChar(f.nombre[i])) && f.montoMaximo >= 0.0
  {
    TipoClienteNombreRule(f.nombre);
  }

  // ---------------------------------------------------------------------
  // clienteSchema

  /** What `z.date()` receives: nothing, an invalid `Date`, or a valid one
      (as milliseconds since the epoch). */
  datatype DateInput = MissingDate | InvalidDate | ValidDate(millis: int)

  datatype ClienteForm = ClienteForm(
    nombre: string,
    apellido: string,
    tipoIdentificacion: string,
    numeroIdentificacion: string,
    fechaNacimiento: DateInput,
    direccion: string,
    telefono: string,
    correoElectronico: string,
    tipoCliente: real,
    estado: string)

  predicate NumeroIdentificacionOk(s: string)
  {
    MinLength(s, 5) && MatchesOneOrMore(s, Digits)
  }

  predicate TelefonoOk(s: string)
  {
    MatchesBetween(s, Digits, 7, 10)
  }

  /** An identification number is at least five decimal digits. */
  lemma NumeroIdentificacionRule(s: string)
    ensures NumeroIdentificacionOk(s) <==> |s| >= 5 && forall i | 0 <= i < |s| :: IsDigit(s[i])
  {
    OneOrMoreRule(s, Digits);
    if AllIn(s, Digits) {
      ClassLength(s, Digits);
    }
  }

  /** A phone number is seven to ten decimal digits and nothing else. */
  lemma TelefonoRule(s: string)
    ensures TelefonoOk(s) <==> 7 <= |s| <= 10 && forall i | 0 <= i < |s| :: IsDigit(s[i])
  {
    BetweenRule(s, Digits, 7, 10);
  }

  /** The fields of `clienteSchema`. */
  const ClienteFields: set<string> := {
    "nombre", "apellido", "tipo_identificacion", "numero_identificacion", "fecha_nacimiento",
    "direccion", "telefono", "correo_electronico", "tipo_cliente", "estado"}

  /** Every issue of `issues` names a field of `clienteSchema`. */
  predicate NamesClienteFields(issues: seq<FieldIssue>)
  {
    forall x | x in issues :: x.field in ClienteFields
  }

  /** One failed rule, as the schema reports it: the field and its message. */
  datatype FieldIssue = FieldIssue(field: string, message: string)

  function IssueIf(fails: bool, field: string, message: string): (r: seq<FieldIssue>)
    ensures |r| <= 1 && (r != [] <==> fails)
    ensures forall x | x in r :: x.field == field
  {
    if fails then [FieldIssue(field, message)] else []
  }

  /** The issues of a string field with a minimum length and a pattern;
      both are reported when both fail. */
  function LengthAndPatternIssues(s: string, field: string, n: nat, k: CharClass,
                                  lengthMessage: string, patternMessage: string): (r: seq<FieldIssue>)
    ensures |r| <= 2
    ensures forall x | x in r :: x.field == field
  {
    IssueIf(!MinLength(s, n), field, lengthMessage) +
    IssueIf(!MatchesOneOrMore(s, k), field, patternMessage)
  }

  /** The issues `clienteSchema.safeParse` reports, in field order. The
      e-mail check is the library's own and is passed in as `isEmail`. */
  function ClienteIssues(c: ClienteForm, isEmail: string -> bool): (r: seq<FieldIssue>)
    ensures |r| <= 13
  {
    LengthAndPatternIssues(c.nombre, "nombre", 2, NameChars,
      "El nombre es requerido.", "El nombre solo debe contener letras y espacios.") +
    LengthAndPatternIssues(c.apellido, "apellido", 2, NameChars,
      "El apellido es requerido.", "El apellido solo debe contener letras y espacios.") +
    IssueIf(!MinLength(c.tipoIdentificacion, 1), "tipo_identificacion",
      "Seleccione un tipo de identificación.") +
    LengthAndPatternIssues(c.numeroIdentificacion, "numero_identificacion", 5, Digits,
      "El número de identificación es requerido.",
      "El número de identificación solo debe contener dígitos.") +
    IssueIf(c.fechaNacimiento.MissingDate?, "fecha_nacimiento", "La fecha de nacimiento es requerida.") +
    IssueIf(c.fechaNacimiento.InvalidDate?, "fecha_nacimiento", "Invalid date") +
    IssueIf(!MinLength(c.direccion, 5), "direccion", "La dirección es requerida.") +
    IssueIf(!TelefonoOk(c.telefono), "telefono", "Ingrese un número de teléfono válido (7-10 dígitos).") +
    IssueIf(!isEmail(c.correoElectronico), "correo_electronico", "Ingrese un correo electrónico válido.") +
    IssueIf(!(c.tipoCliente >= 1.0), "tipo_cliente", "Seleccione un tipo de cliente.") +
    IssueIf(!MinLength(c.estado, 1), "estado", "Seleccione un estado.")
  }

  /** Every issue the parse reports is filed under a field of the schema. */
  lemma ClienteIssuesFields(c: ClienteForm, isEmail: string -> bool)
    ensures NamesClienteFields(ClienteIssues(c, isEmail))
  {
    var r := ClienteIssues(c, isEmail);
    forall i | 0 <= i < |r| ensures r[i].field in ClienteFields {
      assert r[i] in r;
    }
  }

  /** `clienteSchema`: every field rule holds. */
  predicate ClienteValid(c: ClienteForm, isEmail: string -> bool)
    ensures ClienteValid(c, isEmail) ==>
      c.nombre != [] && c.apellido != [] && c.numeroIdentificacion != [] && c.direccion != [] && c.telefono != []
  {
    && NameFieldOk(c.nombre, 2)
    && NameFieldOk(c.apellido, 2)
    && MinLength(c.tipoIdentificacion, 1)
    && NumeroIdentificacionOk(c.numeroIdentificacion)
    && c.fechaNacimiento.ValidDate?
    && MinLength(c.direccion, 5)
    && TelefonoOk(c.telefono)
    && isEmail(c.correoElectronico)
    && c.tipoCliente >= 1.0
    && MinLength(c.estado, 1)
  }

  /** The parse reports no issue exactly when the record is valid. */
  lemma ClienteIssuesEmptyIffValid(c: ClienteForm, isEmail: string -> bool)
    ensures ClienteIssues(c, isEmail) == [] <==> ClienteValid(c, isEmail)
  {
    assert |ClienteIssues(c, isEmail)| == 0 <==> ClienteValid(c, isEmail);
  }

  /** A client record is valid exactly when every field rule holds, each
      stated on characters. */
  lemma ClienteRule(c: ClienteForm, isEmail: string -> bool)
    ensures ClienteValid(c, isEmail) <==>
      && |c.nombre| >= 2 && (forall i | 0 <= i < |c.nombre| :: IsNameChar(c.nombre[i]))
      && |c.apellido| >= 2 && (forall i | 0 <= i < |c.apellido| :: IsNameChar(c.apellido[i]))
      && c.tipoIdentificacion != []
      && |c.numeroIdentificacion| >= 5 && (forall i | 0 <= i < |c.numeroIdentificacion| :: IsDigit(c.numeroIdentificacion[i]))
      && c.fechaNacimiento.ValidDate?
      && Utf16Length(c.direccion) >= 5
      && 7 <= |c.telefono| <= 10 && (forall i | 0 <= i < |c.telefono| :: IsDigit(c.telefono[i]))
      && isEmail(c.correoElectronico)
      && c.tipoCliente >= 1.0
      && c.estado != []
  {
    NameFieldRule(c.nombre, 2);
    NameFieldRule(c.apellido, 2);
    NonEmptyRule(c.tipoIdentificacion);
    NumeroIdentificacionRule(c.numeroIdentificacion);
    TelefonoRule(c.telefono);
    NonEmptyRule(c.estado);
  }

  /** An address needs five characters; astral characters count twice, as
      in JavaScript, so four of them already suffice. */
  lemma DireccionRule(s: string)
    ensures InBmp(s) ==> (MinLength(s, 5) <==> |s| >= 5)
    ensures |s| >= 5 ==> MinLength(s, 5)
  {
    Utf16LengthBounds(s);
  }

  // ---------------------------------------------------------------------
  // facturaHeaderSchema and facturaSchema

  datatype FacturaHeader = FacturaHeader(idCliente: real, tipoPago: string, estadoFactura: string)

  datatype DetalleLinea = DetalleLinea(idProducto: real, cantidad: real)

  datatype FacturaForm = FacturaForm(header: FacturaHeader, detalles: seq<DetalleLinea>)

  predicate FacturaHeaderValid(h: FacturaHeader)
    ensures FacturaHeaderValid(h) ==> h.idCliente >= 1.0 && h.tipoPago != [] && h.estadoFactura != []
  {
    h.idCliente >= 1.0 && MinLength(h.tipoPago, 1) && MinLength(h.estadoFactura, 1)
  }

  predicate DetalleValid(d: DetalleLinea)
  {
    d.idProducto >= 1.0 && d.cantidad >= 1.0
  }

  /** The array schema checks its elements one after another. */
  function DetallesValid(ds: seq<DetalleLinea>): bool
  {
    ds == [] || (DetalleValid(ds[0]) && DetallesValid(ds[1..]))
  }

  predicate FacturaValid(f: FacturaForm)
    ensures FacturaValid(f) ==> f.detalles != [] && DetalleValid(f.detalles[0]) && f.header.tipoPago != []
  {
    FacturaHeaderValid(f.header) && |f.detalles| >= 1 && DetallesValid(f.detalles)
  }

  lemma {:induction false} DetallesValidRule(ds: seq<DetalleLinea>)
    ensures DetallesValid(ds) <==> forall i | 0 <= i < |ds| :: DetalleValid(ds[i])
  {
    if ds != [] {
      DetallesValidRule(ds[1..]);
      assert forall i | 1 <= i < |ds| :: ds[i] == ds[1..][i - 1];
    }
  }

  /** The invoice header needs a client id of at least 1, a payment type
      and a status. */
  lemma FacturaHeaderRule(h: FacturaHeader)
    ensures FacturaHeaderValid(h) <==> h.idCliente >= 1.0 && h.tipoPago != [] && h.estadoFactura != []
  {
    NonEmptyRule(h.tipoPago);
    NonEmptyRule(h.estadoFactura);
  }

  /** An invoice needs a valid header and at least one line, and every line
      needs a product id and a quantity of at least 1. */
  lemma FacturaRule(f: FacturaForm)
    ensures FacturaValid(f) <==>
      && f.header.idCliente >= 1.0 && f.header.tipoPago != [] && f.header.estadoFactura != []
      && |f.detalles| >= 1
      && forall i | 0 <= i < |f.detalles| :: f.detalles[i].idProducto >= 1.0 && f.detalles[i].cantidad >= 1.0
  {
    FacturaHeaderRule(f.header);
    DetallesValidRule(f.detalles);
  }

  /** A quantity need not be whole: one and a half units pass. */
  lemma FractionalQuantityAccepted()
    ensures FacturaValid(FacturaForm(FacturaHeader(1.0, "Contado", "Pendiente"), [DetalleLinea(1.0, 1.5)]))
  {
    var f := FacturaForm(FacturaHeader(1.0, "Contado", "Pendiente"), [DetalleLinea(1.0, 1.5)]);
    FacturaRule(f);
  }
}
