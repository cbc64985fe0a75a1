# Billing console: permissions, form validation, navigation and server actions

A Dafny model of the decision logic of a billing and sales administration
console (client types, clients, invoices and two reports). The application
keeps no data of its own: everything lives behind a REST service. What it
does decide is modelled here:

- **Permissions** (`auth.dfy`, module `Auth`): `hasPermission(subModulo, accion)`
  over the logged-in user's permission list. The dashboard is open to every
  logged-in user. The two reports require the first *active* entry named
  "clientes" / "facturas" to carry exactly "CRU" or "CRUD". Every other
  sub-module is decided by the first entry whose name matches ignoring case:
  it must be active and its descriptor must contain the action letter. The
  React state behind it is the class `AuthContext` (fields `user`,
  `loading`), with `Logout`, the state update of a successful login, and a
  read-only `Check`.
- **Form schemas** (`schemas.dfy`, module `Schemas`): the Zod schemas for
  client types, clients, invoice headers and invoices, as field predicates.
  Character-class patterns are recursive matchers. Lengths count UTF-16
  code units, as JavaScript does. Each rule is proved equal to a plain
  statement over characters, except the address length, which stays in
  UTF-16 code units (`DireccionRule` relates it to the character count).
- **Navigation** (`sidebar_nav.dfy`, module `SidebarNav`): the fixed table of
  seven menu entries, the entries a user may see, and the active-link test.
- **Server actions** (`actions.dfy`, module `Actions`): the batch "mark as
  paid" loop, the invoice creation sequence, the client-type and client
  save actions with their error classification, and the delete actions.
  Every remote call is an input outcome: a returned value, no body, or a
  thrown error with its message. The invoice actions return the requests
  they issue; the save and delete actions report only whether their single
  call was made. Every action returns the path it revalidates.
- `text.dfy` (module `Text`) holds the JavaScript string operations used
  throughout (`toLowerCase`, `includes`, `startsWith`, `length`), and
  `wrappers.dfy` holds `Option`.

The invoice total with 15 % IVA and the credit-limit check live in the
invoice form component (src/app/(app)/facturas/crear/form.tsx), outside the
modelled files. `createFactura` posts `monto_total` 0 and leaves the total
to the server.

## Model

| member | source | states |
|---|---|---|
| `Text.StartsWith` | src/components/layout/sidebar-nav.tsx:31 | defined by its body (`startsWith`); a true answer means the prefix is no longer than the string and agrees with it position by position; `PrefixesComparable` relates two prefixes |
| `Text.Includes` | src/context/AuthContext.tsx:114 | defined by its body (a left scan); the empty string is always included and an included string is no longer than its host; `IncludesIffOccurs` and `IncludesChar` state what it means |
| `Text.Utf16Length` | src/lib/schemas.ts:5 | defined by its body (JavaScript `length`); it lies between the character count and twice it; `Utf16LengthBounds` adds equality without astral characters |
| `Text.ToLower` | src/context/AuthContext.tsx:108 | lower-casing keeps the length, maps each character on its own and leaves no upper-case ASCII or Latin-1 letter |
| `Text.ToLowerIdempotent` | src/context/AuthContext.tsx:108 | lower-casing twice is the same as once |
| `Text.IncludesIffOccurs` | src/lib/actions.ts:49 | `includes` holds iff the substring occurs at some offset |
| `Text.IncludesChar` | src/context/AuthContext.tsx:114 | for one letter, `includes` is membership in the descriptor |
| `Text.Utf16LengthBounds` | src/lib/schemas.ts:5 | the JavaScript length lies between the character count and twice it, and equals it when no character needs a surrogate pair |
| `Auth.FindIndex` | src/context/AuthContext.tsx:108 | the index `find` stops at is the first matching entry; there is none iff no entry matches |
| `Auth.Find` | src/context/AuthContext.tsx:108 | `find` returns an entry iff some entry matches, and then it is the first matching one |
| `Auth.ReportAllowed` | src/context/AuthContext.tsx:96-106 | defined by its body; an allowed report has a first active entry of that name with descriptor "CRU" or "CRUD"; `ReportRule` gives the converse |
| `Auth.HasPermission` | src/context/AuthContext.tsx:89-115 | defined by its body; no user denies, the dashboard is allowed, and an allowed ordinary sub-module has an active first match; the full rules are `NoUserDenied`, `DashboardAlwaysAllowed`, `ClientReportRule`, `InvoiceReportRule` and `ModuleRule` |
| `Auth.NoUserDenied` | src/context/AuthContext.tsx:90 | with no user, every sub-module and action is denied |
| `Auth.DashboardAlwaysAllowed` | src/context/AuthContext.tsx:93 | "Inicio" is allowed for any logged-in user and action, whatever the permission list |
| `Auth.ReportRule` | src/context/AuthContext.tsx:96-106 | a report is allowed iff the first active entry with the given name has descriptor "CRU" or "CRUD" |
| `Auth.ClientReportRule` | src/context/AuthContext.tsx:96-100 | "Reportes Clientes" follows the first active "clientes" entry, for every action |
| `Auth.InvoiceReportRule` | src/context/AuthContext.tsx:102-106 | "Reportes Facturas" follows the first active "facturas" entry, for every action |
| `Auth.WeakDescriptorDeniesInvoiceReport` | src/context/AuthContext.tsx:102-106 | a first active "facturas" entry with "CR" or "R" denies the invoice report |
| `Auth.ModuleRule` | src/context/AuthContext.tsx:108-114 | any other sub-module is allowed iff the first entry with the same lower-cased name is active and its descriptor contains the action letter |
| `Auth.InactiveFirstMatchDenies` | src/context/AuthContext.tsx:108-112 | an inactive first match denies, even if an active entry with the same name follows |
| `Auth.DescriptorLetters` | src/context/AuthContext.tsx:10 | an active "CRUD" grants all four actions; "CR" grants C and R and denies U and D |
| `Auth.AuthContext.constructor` | src/context/AuthContext.tsx:34-35 | the context starts with no user and loading set |
| `Auth.AuthContext.SignIn` | src/context/AuthContext.tsx:72-79 | a successful login stores the user with module id "FAC" and the returned permissions |
| `Auth.AuthContext.Logout` | src/context/AuthContext.tsx:83-87 | after logout the user is cleared, so every permission check is false |
| `Auth.AuthContext.Check` | src/context/AuthContext.tsx:89-115 | the check changes no state and answers `HasPermission` for the current user |
| `Schemas.OneOrMoreRule` | src/lib/schemas.ts:6 | the pattern `^[class]+$` matches iff the string is non-empty and every character is in the class |
| `Schemas.BetweenRule` | src/lib/schemas.ts:21 | the pattern `^[class]{lo,hi}$` matches iff the length is between lo and hi and every character is in the class |
| `Schemas.NonEmptyRule` | src/lib/schemas.ts:17 | `min(1)` on a string holds iff the string is not empty |
| `Schemas.NameFieldRule` | src/lib/schemas.ts:11-16 | a name field with minimum n holds iff it has at least n characters, all ASCII letters, U+00C0 to U+00FF, or white space |
| `Schemas.TipoClienteValid` | src/lib/schemas.ts:3-8 | defined by its body (`tipoClienteSchema`); a valid client type has a non-empty name and a non-negative maximum; `TipoClienteRule` is the exact rule |
| `Schemas.TipoClienteNombreRule` | src/lib/schemas.ts:4-6 | a client-type name is valid iff it has at least 3 characters, all ASCII letters, U+00C0 to U+00FF (× and ÷ included), or white space |
| `Schemas.TipoClienteRule` | src/lib/schemas.ts:3-8 | a client type is valid iff its name rule holds and the maximum amount is at least 0 |
| `Schemas.NumeroIdentificacionRule` | src/lib/schemas.ts:18 | an identification number is valid iff it has at least 5 characters, all digits 0-9 |
| `Schemas.TelefonoRule` | src/lib/schemas.ts:21 | a phone number is valid iff it is 7 to 10 digits and nothing else |
| `Schemas.DireccionRule` | src/lib/schemas.ts:20 | an address of 5 characters is long enough; without astral characters, 5 characters are also needed |
| `Schemas.ClienteValid` | src/lib/schemas.ts:10-25 | defined by its body (`clienteSchema`); a valid client has non-empty names, id number, address and phone; `ClienteRule` is the exact rule |
| `Schemas.ClienteIssues` | src/lib/schemas.ts:10-25 | defined by its body (the issues of `safeParse`, in field order); there are at most 13 of them; `ClienteIssuesFields` and `ClienteIssuesEmptyIffValid` state the rest |
| `Schemas.ClienteIssuesFields` | src/lib/schemas.ts:10-25 | every reported issue is filed under one of the ten fields of the schema |
| `Schemas.ClienteIssuesEmptyIffValid` | src/lib/schemas.ts:10-25 | parsing a client reports no field issue iff every field rule holds |
| `Schemas.ClienteRule` | src/lib/schemas.ts:10-25 | a client is valid iff each field rule holds, stated on characters (names, id number, phone, non-empty selections, address length, date present and valid, e-mail, client type at least 1) |
| `Schemas.DetallesValidRule` | src/lib/schemas.ts:36-38 | the element-by-element line check holds iff every line has product id and quantity at least 1 |
| `Schemas.FacturaHeaderValid` | src/lib/schemas.ts:28-32 | defined by its body (`facturaHeaderSchema`); a valid header has client id at least 1 and non-empty payment type and status; `FacturaHeaderRule` gives the converse |
| `Schemas.FacturaValid` | src/lib/schemas.ts:34-40 | defined by its body (`facturaSchema`); a valid invoice has a first line that is itself valid; `FacturaRule` is the exact rule |
| `Schemas.FacturaHeaderRule` | src/lib/schemas.ts:28-32 | an invoice header is valid iff the client id is at least 1 and payment type and status are non-empty |
| `Schemas.FacturaRule` | src/lib/schemas.ts:34-40 | an invoice is valid iff its header is valid, it has at least one line, and every line has product id and quantity at least 1 |
| `Schemas.FractionalQuantityAccepted` | src/lib/schemas.ts:38 | a quantity need not be whole: 1.5 passes |
| `SidebarNav.Keep` | src/components/layout/sidebar-nav.tsx:29-36 | defined by its body (the filter callback); it keeps nothing without a user and always keeps the dashboard; `KeepIsReadPermission` is the exact rule |
| `SidebarNav.FilterItems` | src/components/layout/sidebar-nav.tsx:29 | defined by its body (`filter`); the result is no longer than the input and holds only input entries; `FilterItemsSpec` is the exact rule |
| `SidebarNav.NavItems` | src/components/layout/sidebar-nav.tsx:29-36 | defined by its body (`navItems`); at most seven entries, all from the table; `NavItemsSpec` is the exact rule |
| `SidebarNav.KeepIsReadPermission` | src/components/layout/sidebar-nav.tsx:29-36 | the report branch and the other branch give the same answer: keep iff the sub-module may be read |
| `SidebarNav.FilterItemsSpec` | src/components/layout/sidebar-nav.tsx:29-36 | the filter result is a subsequence of its input and holds exactly the readable entries |
| `SidebarNav.SubsequenceProperties` | src/components/layout/sidebar-nav.tsx:29 | a subsequence is no longer than its source, holds only its entries, and has no duplicates when the source has none |
| `SidebarNav.NavItemsSpec` | src/components/layout/sidebar-nav.tsx:15-36 | the visible entries are the readable table entries in table order, at most 7, none twice |
| `SidebarNav.NoUserNoItems` | src/components/layout/sidebar-nav.tsx:29-36 | with no user the menu is empty |
| `SidebarNav.DashboardFirst` | src/components/layout/sidebar-nav.tsx:16 | any logged-in user sees the dashboard entry, first |
| `SidebarNav.AllNavItemsDistinct` | src/components/layout/sidebar-nav.tsx:15-23 | the table has no duplicate entry |
| `SidebarNav.HrefsPrefixFree` | src/components/layout/sidebar-nav.tsx:15-23 | no href of the table is a prefix of another |
| `SidebarNav.IsActive` | src/components/layout/sidebar-nav.tsx:44 | defined by its body; the dashboard is active at "/", and elsewhere an active href is a prefix of the path; `RootActivatesDashboardOnly` and `AtMostOneActive` state the consequences |
| `SidebarNav.RootActivatesDashboardOnly` | src/components/layout/sidebar-nav.tsx:44 | at path "/" an entry is active iff it is the dashboard |
| `SidebarNav.AtMostOneActive` | src/components/layout/sidebar-nav.tsx:44 | for every path, at most one table entry is active |
| `Actions.PaidPayload` | src/lib/actions.ts:235-239 | the PUT body keeps every invoice field except client and lines, with status "Pagado" |
| `Actions.PaidPayloadIgnoresDroppedFields` | src/lib/actions.ts:235-239 | the PUT body does not depend on the embedded client, the lines or the previous status |
| `Actions.Status` | src/lib/actions.ts:228-254 | defined by its body; an id is updated iff its GET returned an invoice and its PUT did not throw, and skipped iff its GET returned nothing |
| `Actions.BatchRequests` | src/lib/actions.ts:228-248 | defined by its body (the requests, id after id); between one and two requests per id; `EachIdFetchedOnceInOrder` and `BatchSplit` state the rest |
| `Actions.Count` | src/lib/actions.ts:247 | defined by its body (the ids with a given status); never more than the number of ids; `CountsPartition` and `CountPositive` state the rest |
| `Actions.UpdateFacturaStatusBatch` | src/lib/actions.ts:217-266 | an empty list succeeds with 0 and no call; otherwise each id gets a GET, and a PUT when an invoice came back; the count is the number of updated ids; the result is an error iff some id failed; "/facturas" is revalidated iff the count is positive |
| `Actions.CountsPartition` | src/lib/actions.ts:225-248 | every id is updated, skipped or failed, so the counts add to the number of ids and the updated count is at most that |
| `Actions.CountPositive` | src/lib/actions.ts:261-265 | the failure count is positive iff some id failed |
| `Actions.NoInvoiceSkipped` | src/lib/actions.ts:233 | a GET with no invoice is neither counted nor an error |
| `Actions.EachIdFetchedOnceInOrder` | src/lib/actions.ts:228-231 | the GET requests name exactly the input ids, once each, in input order |
| `Actions.BatchSplit` | src/lib/actions.ts:228-254 | the requests and count split at any position, so the later ids are handled the same whatever failed before |
| `Actions.HeaderId` | src/lib/actions.ts:181 | defined by its body (a truthy `id_factura`); no id without a returned body, and a found id is non-zero and is the response's id |
| `Actions.ErrorText` | src/lib/actions.ts:202 | the error shown is never empty and is the thrown message when that is non-empty |
| `Actions.CreateFactura` | src/lib/actions.ts:164-204 | invalid input fails with no call; the header goes out with total 0; with no truthy id the lines are never posted; otherwise the lines carry that id and the validated lines; success iff both posts succeed, and then "/facturas" is revalidated |
| `Actions.TipoClienteFailure` | src/lib/actions.ts:47-53 | defined by its body; the message is never empty and is the duplicate-name error iff the server message includes "already exists"; `TipoClienteFailureRule` states it by offsets |
| `Actions.TipoClienteFailureRule` | src/lib/actions.ts:47-53 | a failed save shows the duplicate-name error iff "already exists" occurs in the server message |
| `Actions.SaveTipoCliente` | src/lib/actions.ts:34-76 | invalid input fails with "Datos inválidos." and no call; success iff valid and the call did not throw; a thrown error is classified; revalidation iff success |
| `Actions.HandleClienteError` | src/lib/actions.ts:90-105 | defined by its body; the error text is never empty, a field is always the identification field, and no field means the generic message; `ClienteErrorFieldRule` states when the field is set |
| `Actions.InvalidIdKeepsServerText` | src/lib/actions.ts:93-94 | server details naming an invalid cédula or RUC are returned verbatim, tied to the identification field |
| `Actions.ParsedBodyIgnoresMessage` | src/lib/actions.ts:91-98 | when the body parses cleanly, the raw message plays no part |
| `Actions.ClienteErrorFieldRule` | src/lib/actions.ts:90-105 | the error is tied to the identification field iff the id was rejected, reported taken, or (only when parsing failed) the message says "already exists"; otherwise it is the generic message |
| `Actions.SaveCliente` | src/lib/actions.ts:107-151 | invalid input fails with the non-empty field issues and no call; success iff valid and the call did not throw; a thrown error goes through the client error classifier; revalidation iff success |
| `Actions.DeleteEntity` | src/lib/actions.ts:78-86 | a delete succeeds iff the call did not throw; a failure shows the entity's fixed message whatever the server said; revalidation iff success |

## Left out

- HTTP: `apiCall`, `fetch`, status codes and headers are not modelled; each call is an input outcome. `console.error` is left out. `revalidatePath` is modelled as the path returned, not as a cache effect.
- `Auth.AuthContext.constructor`: `loading` starts true and never becomes false in the model, because the session restore that clears it is not modelled.
- Login request, its JSON error parsing, `sessionStorage` restore and persist, and the router navigation in `logout`: these are network, browser-storage and framework I/O. Only the state updates (`SignIn`, `Logout`) are modelled.
- `Text.ToLower`: only ASCII and Latin-1 upper-case letters are lowered. JavaScript's full Unicode case mapping (Greek, Cyrillic, characters whose lower case changes length) is not modelled.
- Zod's `.email()` check is a predicate passed in (`isEmail`). `z.date()` is an input that is missing, an invalid date or a valid one. `z.coerce.number()` values are taken as already-numeric reals; NaN and infinities are not modelled.
- `JSON.parse` of an error message is an input (`ErrorBody`), not a parser.
- The client payload (date formatted with `toISOString().split('T')[0]`) is not modelled: it depends on JavaScript `Date` and time zones. `SaveCliente` records only whether the call is made.
- `Actions.SaveTipoCliente`, `Actions.DeleteEntity`: the request body (`validatedFields.data`) and the `/…/${id}/` URL are not modelled; only whether the single call is made is recorded.
- `Actions.SaveCliente`: field errors are a list of (field, message) pairs in schema order, not the map that `flatten().fieldErrors` builds from them.
- `Actions.PaidPayload`: the invoice carries the fields the service returns. Unknown extra JSON fields (and the client-side `isDeletable` flag), which the spread operator would also copy, are not modelled.
- `Actions.CreateFactura`: an `id_factura` is an optional integer; non-numeric ids (strings, NaN) are not modelled.
- src/components/data-table.tsx, the login page, the page header, the root redirect and src/lib/types.ts have no behaviour to verify. They are UI, delegation to the grid widget, or interface declarations.
- The invoice total (`totalFactura`, per-line 15 % IVA, src/app/(app)/facturas/crear/form.tsx:37 and 100-109) and the credit-limit check (`handleCreditCheck`, same file, 116-150) are not part of this model: they are UI state of the invoice form component, outside the modelled files, and work on JavaScript floating point.
