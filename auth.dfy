/**
 * The authentication context: the logged-in user with the permission list
 * the security service returned at login, and the permission decision
 * every screen and the navigation shell consult.
 */
module Auth {
  import opened Wrappers
  import opened Text

  /** One entry of the user's permission list. `descripcion` holds the
      granted action letters, such as "CR" or "CRUD". */
  datatype Permiso = Permiso(
    idPermiso: int,
    nombrePermiso: string,
    descripcion: string,
    urlPermiso: string,
    estado: bool,
    idModulo: string)

  datatype User = User(usuario: string, idUsuario: Option<int>, idModulo: string, permisos: seq<Permiso>)

  /** The four actions a permission can grant. */
  datatype Accion = Create | Read | Update | Delete

  function Letter(a: Accion): char
  {
    match a
    case Create => 'C'
    case Read => 'R'
    case Update => 'U'
    case Delete => 'D'
  }

  /** The sub-module names with a rule of their own. */
  const Dashboard: string := "Inicio"
  const ClientReport: string := "Reportes Clientes"
  const InvoiceReport: string := "Reportes Facturas"

  /** The two searches `hasPermission` runs over the permission list:
      an active entry with a given lower-case name (for the reports), or
      any entry whose lower-cased name equals the lower-cased sub-module. */
  datatype Query = ActiveNamed(name: string) | NamedLike(subModulo: string)

  predicate Matches(q: Query, p: Permiso)
  {
    match q
    case ActiveNamed(name) => ToLower(p.nombrePermiso) == name && p.estado
    case NamedLike(subModulo) => ToLower(p.nombrePermiso) == ToLower(subModulo)
  }

  /** Index `i` holds the first entry of `perms` that `q` matches. */
  predicate IsFirstMatch(perms: seq<Permiso>, q: Query, i: int)
  {
    0 <= i < |perms| && Matches(q, perms[i]) &&
    forall j | 0 <= j < i :: !Matches(q, perms[j])
  }

  lemma FirstMatchUnique(perms: seq<Permiso>, q: Query, i: int, j: int)
    requires IsFirstMatch(perms, q, i) && IsFirstMatch(perms, q, j)
    ensures i == j
  {
  }

  /** The position `Array.prototype.find` stops at. */
  function FindIndex(perms: seq<Permiso>, q: Query): (r: Option<nat>)
    ensures r.Some? ==> IsFirstMatch(perms, q, r.value)
    ensures r.None? <==> forall i | 0 <= i < |perms| :: !Matches(q, perms[i])
  {
    if perms == [] then None
    else if Matches(q, perms[0]) then Some(0)
    else match FindIndex(perms[1..], q)
      case None => None
      case Some(k) =>
        assert forall j | 1 <= j <= k + 1 :: perms[j] == perms[1..][j - 1];
        Some(k + 1)
  }

  /** `perms.find(...)`: the first matching entry, if any. */
  function Find(perms: seq<Permiso>, q: Query): (r: Option<Permiso>)
    ensures r.Some? <==> exists i :: IsFirstMatch(perms, q, i)
    ensures forall i | IsFirstMatch(perms, q, i) :: r == Some(perms[i])
  {
    match FindIndex(perms, q)
    case None => None
    case Some(i) =>
      assert forall j | IsFirstMatch(perms, q, j) :: j == i by {
        forall j | IsFirstMatch(perms, q, j) ensures j == i {
          FirstMatchUnique(perms, q, i, j);
        }
      }
      Some(perms[i])
  }

  /** A report is shown only for the descriptors "CRU" and "CRUD". */
  predicate IsReportDescriptor(d: string)
  {
    d == "CRU" || d == "CRUD"
  }

  /** Whether the report behind the lower-case permission name `name` is shown. */
  function ReportAllowed(perms: seq<Permiso>, name: string): (r: bool)
    ensures r ==> exists i :: IsFirstMatch(perms, ActiveNamed(name), i) && IsReportDescriptor(perms[i].descripcion)
  {
    match Find(perms, ActiveNamed(name))
    case None => false
    case Some(p) => IsReportDescriptor(p.descripcion)
  }

  /** `hasPermission(subModulo, accion)` for the current `user`. */
  function HasPermission(user: Option<User>, subModulo: string, accion: Accion): (r: bool)
    ensures user.None? ==> !r
    ensures user.Some? && subModulo == Dashboard ==> r
    ensures r && !IsSpecial(subModulo) ==>
      exists i :: IsFirstMatch(user.value.permisos, NamedLike(subModulo), i) && user.value.permisos[i].estado
  {
    if user.None? then false
    else if subModulo == Dashboard then true
    else if subModulo == ClientReport then ReportAllowed(user.value.permisos, "clientes")
    else if subModulo == InvoiceReport then ReportAllowed(user.value.permisos, "facturas")
    else match Find(user.value.permisos, NamedLike(subModulo))
      case None => false
      case Some(p) => p.estado && Includes(p.descripcion, [Letter(accion)])
  }

  /** Nobody logged in: every check fails. */
  lemma NoUserDenied(subModulo: string, accion: Accion)
    ensures !HasPermission(None, subModulo, accion)
  {
  }

  /** The dashboard is open to every logged-in user, whatever the list says. */
  lemma DashboardAlwaysAllowed(u: User, accion: Accion)
    ensures HasPermission(Some(u), Dashboard, accion)
  {
  }

  /** A report rule: allowed exactly when the first active entry named
      `name` carries the descriptor "CRU" or "CRUD". */
  lemma ReportRule(perms: seq<Permiso>, name: string)
    ensures ReportAllowed(perms, name) <==>
      exists i :: IsFirstMatch(perms, ActiveNamed(name), i) && IsReportDescriptor(perms[i].descripcion)
  {
    var q := ActiveNamed(name);
    if ReportAllowed(perms, name) {
      var i :| IsFirstMatch(perms, q, i);
      assert Find(perms, q) == Some(perms[i]);
    }
  }

  /** "Reportes Clientes" follows the first active "clientes" entry; the
      action asked for plays no part. */
  lemma ClientReportRule(u: User, accion: Accion)
    ensures HasPermission(Some(u), ClientReport, accion) <==>
      exists i :: IsFirstMatch(u.permisos, ActiveNamed("clientes"), i) && IsReportDescriptor(u.permisos[i].descripcion)
  {
    ReportRule(u.permisos, "clientes");
  }

  /** "Reportes Facturas" follows the first active "facturas" entry. */
  lemma InvoiceReportRule(u: User, accion: Accion)
    ensures HasPermission(Some(u), InvoiceReport, accion) <==>
      exists i :: IsFirstMatch(u.permisos, ActiveNamed("facturas"), i) && IsReportDescriptor(u.permisos[i].descripcion)
  {
    ReportRule(u.permisos, "facturas");
  }

  /** A first active "facturas" entry with "CR" or "R" hides the invoice
      report, even though it grants reading invoices. */
  lemma WeakDescriptorDeniesInvoiceReport(u: User, i: int, accion: Accion)
    requires IsFirstMatch(u.permisos, ActiveNamed("facturas"), i)
    requires u.permisos[i].descripcion in {"CR", "R"}
    ensures !HasPermission(Some(u), InvoiceReport, accion)
  {
    assert Find(u.permisos, ActiveNamed("facturas")) == Some(u.permisos[i]);
  }

  predicate IsSpecial(subModulo: string)
  {
    subModulo == Dashboard || subModulo == ClientReport || subModulo == InvoiceReport
  }

  /** Any other sub-module: the first entry whose name matches, ignoring
      case, decides; it must be active and its descriptor must contain the
      action's letter. */
  lemma ModuleRule(u: User, subModulo: string, accion: Accion)
    requires !IsSpecial(subModulo)
    ensures HasPermission(Some(u), subModulo, accion) <==>
      exists i :: IsFirstMatch(u.permisos, NamedLike(subModulo), i) &&
        u.permisos[i].estado && Letter(accion) in u.permisos[i].descripcion
  {
    var q := NamedLike(subModulo);
    match Find(u.permisos, q)
    case None =>
    case Some(p) =>
      var i :| IsFirstMatch(u.permisos, q, i);
      assert p == u.permisos[i];
      IncludesChar(p.descripcion, Letter(accion));
  }

  /** An inactive first match denies, even when an active entry with the
      same name follows it. */
  lemma InactiveFirstMatchDenies(u: User, subModulo: string, accion: Accion, i: int)
    requires !IsSpecial(subModulo)
    requires IsFirstMatch(u.permisos, NamedLike(subModulo), i) && !u.permisos[i].estado
    ensures !HasPermission(Some(u), subModulo, accion)
  {
    assert Find(u.permisos, NamedLike(subModulo)) == Some(u.permisos[i]);
  }

  /** "CRUD" grants all four actions; "CR" grants creating and reading only. */
  lemma DescriptorLetters(u: User, subModulo: string, i: int)
    requires !IsSpecial(subModulo)
    requires IsFirstMatch(u.permisos, NamedLike(subModulo), i) && u.permisos[i].estado
    ensures u.permisos[i].descripcion == "CRUD" ==>
      forall a :: HasPermission(Some(u), subModulo, a)
    ensures u.permisos[i].descripcion == "CR" ==>
      HasPermission(Some(u), subModulo, Create) && HasPermission(Some(u), subModulo, Read) &&
      !HasPermission(Some(u), subModulo, Update) && !HasPermission(Some(u), subModulo, Delete)
  {
    var d := u.permisos[i].descripcion;
    assert Find(u.permisos, NamedLike(subModulo)) == Some(u.permisos[i]);
    forall a ensures HasPermission(Some(u), subModulo, a) <==> Letter(a) in d {
      IncludesChar(d, Letter(a));
    }
  }

  /** The React state behind the context: the current user (restored from
      session storage, set at login, cleared at logout) and the loading flag. */
  class AuthContext {
    var user: Option<User>
    var loading: bool

    constructor ()
      ensures user == None && loading
    {
      user := None;
      loading := true;
    }

    /** The state update a successful login performs: the user record is
        built with the module id "FAC" and the returned permissions. */
    method SignIn(usuario: string, idUsuario: Option<int>, permisos: seq<Permiso>)
      modifies this
      ensures user == Some(User(usuario, idUsuario, "FAC", permisos))
      ensures user.value.idModulo == "FAC" && user.value.permisos == permisos
      ensures loading == old(loading)
    {
      user := Some(User(usuario, idUsuario, "FAC", permisos));
    }

    /** `logout`: the user is cleared, so every later check fails. */
    method Logout()
      modifies this
      ensures user == None && loading == old(loading)
      ensures forall s, a :: !HasPermission(user, s, a)
    {
      user := None;
    }

    /** `hasPermission`: a read-only query of the current user. */
    method Check(subModulo: string, accion: Accion) returns (allowed: bool)
      ensures user.None? ==> !allowed
      ensures user.Some? && subModulo == Dashboard ==> allowed
      ensures allowed == HasPermission(user, subModulo, accion)
    {
      allowed := HasPermission(user, subModulo, accion);
    }
  }
}
