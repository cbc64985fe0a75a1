/**
 * The server actions behind the forms: each validates its input, calls the
 * remote REST service and turns what happened into a result for the user.
 * Every remote call is a caller-supplied outcome (a returned JSON value, no
 * body, or a thrown error with its message); the actions report the
 * requests they issue and the path they revalidate.
 */
module Actions {
  import opened Wrappers
  import opened Text
  import opened Schemas

  /** What one `apiCall` did: returned a JSON value, returned no value
      (status 204, an empty body or a JSON `null`), or threw. */
  datatype ApiOutcome<T> = Returned(value: T) | NoBody | Threw(message: string)

  datatype Cliente = Cliente(
    idCliente: int, tipoCliente: int, nombre: string, apellido: string, direccion: string,
    telefono: string, correoElectronico: string, estado: string, tipoIdentificacion: string,
    numeroIdentificacion: string, fechaNacimiento: string)

  datatype DetalleFactura = DetalleFactura(
    idDetalleFactura: int, idFactura: int, idProducto: int, nombre: string, cantidad: real,
    precioUnitario: string, totalProducto: string, cantidadDisponible: real)

  /** An invoice as the service returns it, with the embedded client and lines. */
  datatype Factura = Factura(
    idFactura: int, idCliente: int, numeroFactura: string, fechaFactura: string,
    montoTotal: real, tipoPago: string, estadoFactura: string,
    cliente: Option<Cliente>, detalles: Option<seq<DetalleFactura>>)

  /** An invoice without its embedded client and lines: the body of a PUT. */
  datatype FacturaPayload = FacturaPayload(
    idFactura: int, idCliente: int, numeroFactura: string, fechaFactura: string,
    montoTotal: real, tipoPago: string, estadoFactura: string)

  /** The invoice header posted by `createFactura`. */
  datatype HeaderPayload = HeaderPayload(header: FacturaHeader, montoTotal: real)

  datatype DetallesPayload = DetallesPayload(idFactura: int, productos: seq<DetalleLinea>)

  /** The invoice requests the actions issue, in order. */
  datatype Request =
    | GetFactura(id: int)
    | PutFactura(id: int, body: FacturaPayload)
    | PostFactura(headerBody: HeaderPayload)
    | PostDetalles(detallesBody: DetallesPayload)

  const FacturasPath: string := "/facturas"

  // ---------------------------------------------------------------------
  // updateFacturaStatusBatch

  const Pagado: string := "Pagado"

  /** The PUT body: the fetched invoice without `cliente` and `detalles`,
      marked paid. */
  function PaidPayload(f: Factura): (p: FacturaPayload)
    ensures p.estadoFactura == Pagado
    ensures p.idFactura == f.idFactura && p.idCliente == f.idCliente
    ensures p.numeroFactura == f.numeroFactura && p.fechaFactura == f.fechaFactura
    ensures p.montoTotal == f.montoTotal && p.tipoPago == f.tipoPago
  {
    FacturaPayload(f.idFactura, f.idCliente, f.numeroFactura, f.fechaFactura, f.montoTotal, f.tipoPago, Pagado)
  }

  /** The payload depends neither on the embedded client and lines nor on
      the status the invoice had, so marking an invoice paid twice sends the
      same body. */
  lemma PaidPayloadIgnoresDroppedFields(f: Factura, c: Option<Cliente>, d: Option<seq<DetalleFactura>>, e: string)
    ensures PaidPayload(f.(cliente := c, detalles := d, estadoFactura := e)) == PaidPayload(f)
  {
  }

  /** The outcomes of the two calls made for one id: the GET, and the PUT
      (consulted only when the GET returned an invoice). */
  datatype ItemOutcome = ItemOutcome(get: ApiOutcome<Factura>, put: ApiOutcome<()>)

  datatype ItemStatus = Updated | Skipped | Failed

  /** What became of one id: updated, skipped (the GET gave no invoice) or
      failed (one of the calls threw). */
  function Status(o: ItemOutcome): (st: ItemStatus)
    ensures st == Updated <==> o.get.Returned? && !o.put.Threw?
    ensures st == Skipped <==> o.get.NoBody?
  {
    match o.get
    case Threw(_) => Failed
    case NoBody => Skipped
    case Returned(_) => if o.put.Threw? then Failed else Updated
  }

  /** The requests made for one id. */
  function ItemRequests(id: int, o: ItemOutcome): seq<Request>
  {
    [GetFactura(id)] + (if o.get.Returned? then [PutFactura(id, PaidPayload(o.get.value))] else [])
  }

  /** The requests made for a list of ids, one id after another. */
  function BatchRequests(ids: seq<int>, outs: seq<ItemOutcome>): (reqs: seq<Request>)
    requires |ids| == |outs|
    ensures |ids| <= |reqs| <= 2 * |ids|
  {
    if ids == [] then []
    else BatchRequests(ids[..|ids| - 1], outs[..|outs| - 1]) + ItemRequests(ids[|ids| - 1], outs[|outs| - 1])
  }

  /** The number of ids with status `st`. */
  function Count(outs: seq<ItemOutcome>, st: ItemStatus): (n: nat)
    ensures n <= |outs|
  {
    if outs == [] then 0
    else Count(outs[..|outs| - 1], st) + (if Status(outs[|outs| - 1]) == st then 1 else 0)
  }

  datatype BatchResult =
    | BatchSuccess(updatedCount: nat)
    | BatchError(error: string, updatedCount: nat)

  const SomeNotUpdated: string := "Algunas facturas no pudieron ser actualizadas."

  /** `updateFacturaStatusBatch`: fetch each invoice, PUT it back marked
      paid, and carry on past failures. */
  method UpdateFacturaStatusBatch(ids: seq<int>, outs: seq<ItemOutcome>)
    returns (r: BatchResult, requests: seq<Request>, revalidatedPath: Option<string>)
    requires |outs| == |ids|
    ensures ids == [] ==> r == BatchSuccess(0) && requests == []
    ensures requests == BatchRequests(ids, outs)
    ensures r.updatedCount == Count(outs, Updated)
    ensures r.BatchError? <==> exists i | 0 <= i < |outs| :: Status(outs[i]) == Failed
    ensures r.BatchError? ==> r.error == SomeNotUpdated
    ensures revalidatedPath == (if r.updatedCount > 0 then Some(FacturasPath) else None)
  {
    if |ids| == 0 {
      return BatchSuccess(0), [], None;
    }
    var updatedCount: nat := 0;
    var hasErrors := false;
    requests := [];
    var i := 0;
    while i < |ids|
      invariant 0 <= i <= |ids|
      invariant requests == BatchRequests(ids[..i], outs[..i])
      invariant updatedCount == Count(outs[..i], Updated)
      invariant hasErrors <==> exists j | 0 <= j < i :: Status(outs[j]) == Failed
    {
      var id := ids[i];
      requests := requests + [GetFactura(id)];
      match outs[i].get {
        case Threw(_) =>
          hasErrors := true;
        case NoBody =>
        case Returned(factura) =>
          requests := requests + [PutFactura(id, PaidPayload(factura))];
          if outs[i].put.Threw? {
            hasErrors := true;
          } else {
            updatedCount := updatedCount + 1;
          }
      }
      assert ids[..i + 1][..i] == ids[..i] && outs[..i + 1][..i] == outs[..i];
      i := i + 1;
    }
    assert ids[..i] == ids && outs[..i] == outs;
    revalidatedPath := if updatedCount > 0 then Some(FacturasPath) else None;
    if hasErrors {
      r := BatchError(SomeNotUpdated, updatedCount);
    } else {
      r := BatchSuccess(updatedCount);
    }
  }

  /** Every id ends in exactly one status, so the counts add up to the
      number of ids and the updated count never exceeds it. */
  lemma {:induction false} CountsPartition(outs: seq<ItemOutcome>)
    ensures Count(outs, Updated) + Count(outs, Skipped) + Count(outs, Failed) == |outs|
    ensures Count(outs, Updated) <= |outs|
  {
    if outs != [] {
      CountsPartition(outs[..|outs| - 1]);
    }
  }

  /** An error is reported exactly when the failure count is positive. */
  lemma {:induction false} CountPositive(outs: seq<ItemOutcome>, st: ItemStatus)
    ensures Count(outs, st) > 0 <==> exists i | 0 <= i < |outs| :: Status(outs[i]) == st
  {
    if outs != [] {
      var init := outs[..|outs| - 1];
      CountPositive(init, st);
      if i :| 0 <= i < |init| && Status(init[i]) == st {
        assert outs[i] == init[i];
      }
      if i :| 0 <= i < |outs| && Status(outs[i]) == st {
        if i < |init| {
          assert init[i] == outs[i];
        }
      }
    }
  }

  /** A GET that returns no invoice is neither counted nor an error. */
  lemma NoInvoiceSkipped(o: ItemOutcome)
    requires o.get.NoBody?
    ensures Status(o) != Updated && Status(o) != Failed
  {
  }

  /** The ids of the GET requests of a request list, in order. */
  function FetchedIds(reqs: seq<Request>): seq<int>
  {
    if reqs == [] then []
    else FetchedIds(reqs[..|reqs| - 1]) + (if reqs[|reqs| - 1].GetFactura? then [reqs[|reqs| - 1].id] else [])
  }

  lemma {:induction false} FetchedIdsAppend(a: seq<Request>, b: seq<Request>)
    ensures FetchedIds(a + b) == FetchedIds(a) + FetchedIds(b)
    decreases |b|
  {
    if b != [] {
      var b' := b[..|b| - 1];
      assert (a + b)[..|a + b| - 1] == a + b';
      FetchedIdsAppend(a, b');
    } else {
      assert a + b == a;
    }
  }

  /** Every id is fetched exactly once, in input order, whatever the
      outcomes of the calls. */
  lemma {:induction false} EachIdFetchedOnceInOrder(ids: seq<int>, outs: seq<ItemOutcome>)
    requires |ids| == |outs|
    ensures FetchedIds(BatchRequests(ids, outs)) == ids
  {
    if ids != [] {
      var n := |ids| - 1;
      EachIdFetchedOnceInOrder(ids[..n], outs[..n]);
      var item := ItemRequests(ids[n], outs[n]);
      FetchedIdsAppend(BatchRequests(ids[..n], outs[..n]), item);
      assert FetchedIds(item) == [ids[n]] by {
        var get := [GetFactura(ids[n])];
        assert FetchedIds(get) == [ids[n]] by {
          assert get[..0] == [];
        }
        if outs[n].get.Returned? {
          var put := [PutFactura(ids[n], PaidPayload(outs[n].get.value))];
          FetchedIdsAppend(get, put);
          assert FetchedIds(put) == [] by {
            assert put[..0] == [];
          }
        } else {
          assert item == get;
        }
      }
    }
  }

  /** The requests for the ids from position `k` on are the same whatever
      happened to the ids before: a failure does not stop the batch. */
  lemma BatchSplit(ids: seq<int>, outs: seq<ItemOutcome>, k: nat)
    requires |ids| == |outs| && k <= |ids|
    ensures BatchRequests(ids, outs) == BatchRequests(ids[..k], outs[..k]) + BatchRequests(ids[k..], outs[k..])
    ensures Count(outs, Updated) == Count(outs[..k], Updated) + Count(outs[k..], Updated)
  {
    RequestsSplit(ids, outs, k);
    CountSplit(outs, k);
  }

  lemma {:induction false} RequestsSplit(ids: seq<int>, outs: seq<ItemOutcome>, k: nat)
    requires |ids| == |outs| && k <= |ids|
    ensures BatchRequests(ids, outs) == BatchRequests(ids[..k], outs[..k]) + BatchRequests(ids[k..], outs[k..])
    decreases |ids|
  {
    if k == |ids| {
      assert ids[..k] == ids && outs[..k] == outs;
      assert ids[k..] == [] && outs[k..] == [];
    } else {
      var n := |ids| - 1;
      var last := ItemRequests(ids[n], outs[n]);
      RequestsSplit(ids[..n], outs[..n], k);
      assert ids[..n][..k] == ids[..k] && outs[..n][..k] == outs[..k];
      var (tailIds, tailOuts) := (ids[k..], outs[k..]);
      assert tailIds[..|tailIds| - 1] == ids[..n][k..] && tailOuts[..|tailOuts| - 1] == outs[..n][k..];
      assert tailIds[|tailIds| - 1] == ids[n] && tailOuts[|tailOuts| - 1] == outs[n];
      var front, back := BatchRequests(ids[..k], outs[..k]), BatchRequests(ids[..n][k..], outs[..n][k..]);
      calc {
        BatchRequests(ids, outs);
        BatchRequests(ids[..n], outs[..n]) + last;
        (front + back) + last;
        front + (back + last);
        front + BatchRequests(tailIds, tailOuts);
      }
    }
  }

  lemma {:induction false} CountSplit(outs: seq<ItemOutcome>, k: nat)
    requires k <= |outs|
    ensures Count(outs, Updated) == Count(outs[..k], Updated) + Count(outs[k..], Updated)
    decreases |outs|
  {
    if k == |outs| {
      assert outs[..k] == outs && outs[k..] == [];
    } else {
      var n := |outs| - 1;
      CountSplit(outs[..n], k);
      assert outs[..n][..k] == outs[..k];
      assert outs[k..][..|outs[k..]| - 1] == outs[..n][k..];
    }
  }

  // ---------------------------------------------------------------------
  // createFactura

  /** The response to the header POST. `idFactura` is `None` when the
      field is absent or null. */
  datatype NewFactura = NewFactura(idFactura: Option<int>)

  /** The id of the new invoice, when the response has a truthy one. */
  function HeaderId(o: ApiOutcome<NewFactura>): (id: Option<int>)
    ensures !o.Returned? ==> id.None?
    ensures id.Some? ==> id.value != 0 && o.value.idFactura == id
  {
    if o.Returned? && o.value.idFactura.Some? && o.value.idFactura.value != 0
    then Some(o.value.idFactura.value) else None
  }

  datatype CreateFacturaResult = FacturaCreated(newFacturaId: int) | FacturaFailed(error: string)

  const InvalidFactura: string := "Datos inválidos. Verifique la cabecera y los detalles."
  const NoHeader: string := "No se pudo crear la cabecera de la factura."

  /** `(error as Error).message || "..."`: an empty message falls back to a
      fixed text. */
  function ErrorText(message: string): (t: string)
    ensures t != []
    ensures message != [] ==> t == message
  {
    if message == "" then "Ocurrió un error al guardar la factura." else message
  }

  /** `createFactura`: validate, post the header with a zero total, check
      the returned id, post the lines under that id. */
  method CreateFactura(form: FacturaForm, headerResponse: ApiOutcome<NewFactura>, detallesResponse: ApiOutcome<()>)
    returns (r: CreateFacturaResult, requests: seq<Request>, revalidatedPath: Option<string>)
    ensures !FacturaValid(form) ==> r == FacturaFailed(InvalidFactura) && requests == []
    ensures FacturaValid(form) ==> 1 <= |requests| && requests[0] == PostFactura(HeaderPayload(form.header, 0.0))
    ensures |requests| <= 2
    ensures |requests| == 2 <==> FacturaValid(form) && HeaderId(headerResponse).Some?
    ensures |requests| == 2 ==> requests[1] == PostDetalles(DetallesPayload(HeaderId(headerResponse).value, form.detalles))
    ensures r.FacturaCreated? <==> FacturaValid(form) && HeaderId(headerResponse).Some? && !detallesResponse.Threw?
    ensures r.FacturaCreated? ==> Some(r.newFacturaId) == HeaderId(headerResponse) && r.newFacturaId != 0
    ensures FacturaValid(form) && headerResponse.Threw? ==> r == FacturaFailed(ErrorText(headerResponse.message))
    ensures FacturaValid(form) && !headerResponse.Threw? && HeaderId(headerResponse).None? ==> r == FacturaFailed(NoHeader)
    ensures FacturaValid(form) && HeaderId(headerResponse).Some? && detallesResponse.Threw? ==>
      r == FacturaFailed(ErrorText(detallesResponse.message))
    ensures revalidatedPath == (if r.FacturaCreated? then Some(FacturasPath) else None)
  {
    revalidatedPath := None;
    if !FacturaValid(form) {
      return FacturaFailed(InvalidFactura), [], None;
    }
    requests := [PostFactura(HeaderPayload(form.header, 0.0))];
    if headerResponse.Threw? {
      return FacturaFailed(ErrorText(headerResponse.message)), requests, None;
    }
    var newId := HeaderId(headerResponse);
    if newId.None? {
      return FacturaFailed(ErrorText(NoHeader)), requests, None;
    }
    requests := requests + [PostDetalles(DetallesPayload(newId.value, form.detalles))];
    if detallesResponse.Threw? {
      return FacturaFailed(ErrorText(detallesResponse.message)), requests, None;
    }
    revalidatedPath := Some(FacturasPath);
    r := FacturaCreated(newId.value);
  }

  // ---------------------------------------------------------------------
  // Client types, clients and deletions

  datatype ActionResult = Succeeded(message: Option<string>) | ActionFailed(error: string)

  datatype ActionOutcome = ActionOutcome(result: ActionResult, called: bool, revalidatedPath: Option<string>)

  datatype SaveOp = CreateOp | UpdateOp

  const AlreadyExists: string := "already exists"
  const DuplicateTipoCliente: string := "Un tipo de cliente con este nombre ya existe."

  /** The error a failed create or update of a client type shows. */
  function TipoClienteFailure(op: SaveOp, message: string): (e: string)
    ensures e != []
    ensures e == DuplicateTipoCliente <==> Includes(message, AlreadyExists)
  {
    if Includes(message, AlreadyExists) then DuplicateTipoCliente
    else if op == CreateOp then "No se pudo crear el tipo de cliente."
    else "No se pudo actualizar el tipo de cliente."
  }

  /** The duplicate-name error is shown exactly when "already exists"
      occurs somewhere in the server's message. */
  lemma TipoClienteFailureRule(op: SaveOp, message: string)
    ensures TipoClienteFailure(op, message) == DuplicateTipoCliente <==>
      exists k :: OccursAt(message, AlreadyExists, k)
  {
    IncludesIffOccurs(message, AlreadyExists);
  }

  /** `createTipoCliente` / `updateTipoCliente`. */
  function SaveTipoCliente(op: SaveOp, form: TipoClienteForm, outcome: ApiOutcome<()>): (r: ActionOutcome)
    ensures r.called <==> TipoClienteValid(form)
    ensures !TipoClienteValid(form) ==> r.result == ActionFailed("Datos inválidos.")
    ensures r.result.Succeeded? <==> TipoClienteValid(form) && !outcome.Threw?
    ensures TipoClienteValid(form) && outcome.Threw? ==>
      r.result == ActionFailed(TipoClienteFailure(op, outcome.message))
    ensures r.revalidatedPath == (if r.result.Succeeded? then Some("/tipo-clientes") else None)
  {
    if !TipoClienteValid(form) then ActionOutcome(ActionFailed("Datos inválidos."), false, None)
    else if outcome.Threw? then ActionOutcome(ActionFailed(TipoClienteFailure(op, outcome.message)), true, None)
    else
      var text := if op == CreateOp then "Tipo de cliente creado." else "Tipo de cliente actualizado.";
      ActionOutcome(Succeeded(Some(text)), true, Some("/tipo-clientes"))
  }

  /** A field of the parsed error body, by JavaScript truthiness. */
  datatype JsonField = Falsy | Str(s: string) | OtherTruthy

  /** What `JSON.parse(error.message)` gives: it throws, it gives `null`, or
      it gives a value whose `details` and `numero_identificacion` are read. */
  datatype ErrorBody = NotJson | JsonNull | JsonValue(details: JsonField, hasNumeroIdentificacion: bool)

  datatype ClienteError = ClienteError(error: string, field: Option<string>)

  const NumeroIdentificacion: string := "numero_identificacion"
  const DuplicateCliente: string := "Un cliente con este número de identificación ya existe."
  const GenericCliente: string := "No se pudo procesar la solicitud. Verifique los datos e intente de nuevo."

  /** The server's details name an invalid identity card or tax number. */
  predicate NamesInvalidId(d: string)
  {
    Includes(ToLower(d), "cédula inválida") || Includes(ToLower(d), "ruc inválido")
  }

  /** The `try` block runs to its end: the message parsed as JSON, the
      value is not `null`, and `details` is not a truthy non-string (whose
      lower-casing would throw). */
  predicate ParsedCleanly(body: ErrorBody)
  {
    body.JsonValue? && !body.details.OtherTruthy?
  }

  predicate InvalidIdDetails(body: ErrorBody)
  {
    body.JsonValue? && body.details.Str? && body.details.s != "" && NamesInvalidId(body.details.s)
  }

  /** `handleClienteError`. */
  function HandleClienteError(message: string, body: ErrorBody): (r: ClienteError)
    ensures r.error != []
    ensures r.field.Some? ==> r.field == Some(NumeroIdentificacion)
    ensures r.field.None? ==> r.error == GenericCliente
  {
    if ParsedCleanly(body) then
      if InvalidIdDetails(body) then ClienteError(body.details.s, Some(NumeroIdentificacion))
      else if body.hasNumeroIdentificacion then ClienteError(DuplicateCliente, Some(NumeroIdentificacion))
      else ClienteError(GenericCliente, None)
    else if Includes(message, AlreadyExists) then ClienteError(DuplicateCliente, Some(NumeroIdentificacion))
    else ClienteError(GenericCliente, None)
  }

  /** Invalid identity numbers are reported in the server's own words. */
  lemma InvalidIdKeepsServerText(message: string, d: string, n: bool)
    requires d != "" && NamesInvalidId(d)
    ensures HandleClienteError(message, JsonValue(Str(d), n)) == ClienteError(d, Some(NumeroIdentificacion))
  {
  }

  /** When the body parses cleanly, the raw message plays no part: a JSON
      body mentioning "already exists" does not make a duplicate. */
  lemma ParsedBodyIgnoresMessage(m1: string, m2: string, body: ErrorBody)
    requires ParsedCleanly(body)
    ensures HandleClienteError(m1, body) == HandleClienteError(m2, body)
  {
  }

  /** The error is tied to the identification field exactly when the server
      rejected the number, reported it as taken, or (when the body did not
      parse cleanly) said "already exists"; otherwise it is the generic
      message. */
  lemma ClienteErrorFieldRule(message: string, body: ErrorBody)
    ensures HandleClienteError(message, body).field.Some? <==>
      if ParsedCleanly(body) then InvalidIdDetails(body) || body.hasNumeroIdentificacion
      else exists k :: OccursAt(message, AlreadyExists, k)
    ensures HandleClienteError(message, body).field.None? ==> HandleClienteError(message, body).error == GenericCliente
    ensures HandleClienteError(message, body).field.Some? ==>
      HandleClienteError(message, body).field == Some(NumeroIdentificacion)
  {
    IncludesIffOccurs(message, AlreadyExists);
  }

  datatype ClienteResult =
    | ClienteSaved(message: string)
    | ClienteRejected(error: string, fieldErrors: seq<FieldIssue>)
    | ClienteFailed(failure: ClienteError)

  datatype ClienteOutcome = ClienteOutcome(result: ClienteResult, called: bool, revalidatedPath: Option<string>)

  /** `createCliente` / `updateCliente`. The e-mail check and `JSON.parse`
      are library code and are passed in. */
  function SaveCliente(op: SaveOp, form: ClienteForm, isEmail: string -> bool,
                       parseJson: string -> ErrorBody, outcome: ApiOutcome<()>): (r: ClienteOutcome)
    ensures r.called <==> ClienteValid(form, isEmail)
    ensures !ClienteValid(form, isEmail) ==>
      r.result == ClienteRejected("Datos inválidos.", ClienteIssues(form, isEmail)) && r.result.fieldErrors != []
    ensures r.result.ClienteSaved? <==> ClienteValid(form, isEmail) && !outcome.Threw?
    ensures ClienteValid(form, isEmail) && outcome.Threw? ==>
      r.result == ClienteFailed(HandleClienteError(outcome.message, parseJson(outcome.message)))
    ensures r.revalidatedPath == (if r.result.ClienteSaved? then Some("/clientes") else None)
  {
    ClienteIssuesEmptyIffValid(form, isEmail);
    if !ClienteValid(form, isEmail) then
      ClienteOutcome(ClienteRejected("Datos inválidos.", ClienteIssues(form, isEmail)), false, None)
    else if outcome.Threw? then
      ClienteOutcome(ClienteFailed(HandleClienteError(outcome.message, parseJson(outcome.message))), true, None)
    else
      var text := if op == CreateOp then "Cliente creado." else "Cliente actualizado.";
      ClienteOutcome(ClienteSaved(text), true, Some("/clientes"))
  }

  datatype Entity = TipoClienteEntity | ClienteEntity | FacturaEntity

  function EntityPath(e: Entity): string
  {
    match e
    case TipoClienteEntity => "/tipo-clientes"
    case ClienteEntity => "/clientes"
    case FacturaEntity => FacturasPath
  }

  function DeleteFailure(e: Entity): string
  {
    match e
    case TipoClienteEntity => "No se pudo eliminar el tipo de cliente. Es posible que esté en uso."
    case ClienteEntity => "No se pudo eliminar el cliente. Es posible que tenga facturas asociadas."
    case FacturaEntity => "No se pudo eliminar la factura."
  }

  /** `deleteTipoCliente`, `deleteCliente`, `deleteFactura`: any failure
      shows the entity's fixed message, whatever the server said. */
  function DeleteEntity(e: Entity, outcome: ApiOutcome<()>): (r: ActionOutcome)
    ensures r.called
    ensures r.result.Succeeded? <==> !outcome.Threw?
    ensures r.result.Succeeded? ==> r.result.message.None? && r.revalidatedPath == Some(EntityPath(e))
    ensures r.result.ActionFailed? ==> r.result.error == DeleteFailure(e) && r.revalidatedPath.None?
  {
    if outcome.Threw? then ActionOutcome(ActionFailed(DeleteFailure(e)), true, None)
    else ActionOutcome(Succeeded(None), true, Some(EntityPath(e)))
  }
}
