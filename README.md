# mi-app-reservas, modelled in Dafny

mi-app-reservas is the backend of a tour-booking site: an Express application over a relational
database reached through Prisma. This project models the part of it that makes decisions of its
own, rather than passing one query through. That part is:

- **Per-tour statistics** for the admin dashboard (`getReservasPorTour`). A map starts with one
  zeroed entry per tour. The handler walks the reservations and bumps the counters of each
  reservation's tour, matching statuses after lower-casing them. It then keeps the tours that
  have at least one reservation. The model keeps the JavaScript `Map` with its insertion order,
  the loop over tours and the loop over reservations. The handler is proved equal to a
  specification function, and the promised properties are proved about that function:
  - only active tours appear, in tour order;
  - orphan reservations change nothing;
  - status counts stay within the total;
  - the totals add up to the reservations that name a known tour.
- **Tour search** (`filtrarTours`):
  - the filter record, built key by key;
  - page size, offset, sort column and order;
  - the page number and page count of the answer.

  **Tour detail** (`getTourById`): the 404 branch and the reshaping of reviews with the
  "Viajero" default name.

  **Tour creation with a generated description** (`createTourAI`): the defaults, and one
  translation row per language, in the order en, fr, de.
- **Session middleware**:
  - `protegerRuta` picks a token from the `Authorization: Bearer` header or the `token` cookie,
    checks it, loads the user and sets `req.usuario`;
  - `soloAdmin` checks the role;
  - the two other gates are `adminAuth` (which reads `req.user`) and `requireRole` (which reads
    `req.body.user`).
- **Reservations**:
  - `createReserva` applies its required-field guard, then inserts exactly one row;
  - `misReservas` reads the token its own way (`substring(7)`), then lists the caller's
    reservations, newest first.
- **Accounts**:
  - `register` and `login`, with their guard order;
  - the role default;
  - the session cookie and its lifetime;
  - the public view of a user, which has no password.
- **Small helpers**:
  - the interface-language choice (`useIdioma`);
  - the upload filter (`fileFilter`);
  - the stored file name (`filename`, with Node's `path.extname` on POSIX paths);
  - the 5 MB size limit.

The database is the class `Store.Database`. It holds one sequence per table, in insertion
order, and an auto-increment counter per table with an id. Its `Valid()`
invariant holds the unique constraints on user e-mails, user ids and tour ids, and keeps every
id below its table's counter. Everything the handlers get from outside is a
parameter:
- password hashing and checking (`hash`, `compare`);
- token signing and verification (`sign`, `verify`);
- the description generator and the translator (`generar`, `traducir`);
- JavaScript's `Number`/`parseInt`/`parseFloat` on request text (`number`);
- the ORM's count and search (`count`, `find`);
- the clock (`ahora`);
- the browser's language tag;
- the random file-name suffix.

`createReserva` checks four fields and inserts one row. It neither checks nor changes the seats
of any departure (src/controllers/reservas.controller.ts:91-109). The lemma
`Reservas.AnyNonZeroCountAccepted` shows that any non-zero number of people is accepted.

Other behaviour of the code that the model states as it is:
- `register` stores whatever role the client sends (`AuthController.SelfAssignedAdmin`).
- `adminAuth` reads `req.user`, which `protegerRuta` never sets (it sets `req.usuario`). It
  answers 403 for a missing user, where `soloAdmin` answers 401
  (`AdminAuth.AgreesWithSoloAdmin`).
- `requireRole` judges the user object that the request body itself carries
  (`RoleMiddleware.SelfDeclaredRolePasses`).
- A page parameter of "0" is reported as page 1 but passes `skip = -pageSize` to the query
  (`Tours.PageZeroSkipsBackwards`).
- `misReservas` answers 500 for a token that does not verify, where `protegerRuta` answers 401.
- A header of exactly "Bearer " falls back to the cookie in `protegerRuta` but is an empty
  token in `misReservas` (`Reservas.EmptyBearerRefusedHere`).

## Model

| member | source | states |
|---|---|---|
| Common.Option.GetOr | src/controllers/stats.controller.ts:70 | `x ?? d`: the value when it is present, `d` when it is missing |
| Common.Truthy | src/middleware/auth.middleware.ts:39 | `!x` on a string: falsy exactly for `undefined`, `null` and `""` |
| Common.TruthyNum | src/controllers/reservas.controller.ts:91 | `!x` on a number: falsy exactly for `undefined`, `null` and `0` |
| Text.StartsWith | src/middleware/auth.middleware.ts:32 | `s.startsWith(p)` holds exactly when `s` is `p` followed by some rest |
| Text.FirstIndex | src/hooks/useIdioma.ts:3 | the position of the first separator, or the length when there is none; nothing before it is the separator |
| Text.Lower | src/controllers/stats.controller.ts:71 | `toLowerCase` keeps the length, maps each character by itself and leaves no ASCII upper-case letter |
| Text.LowerIdempotent | src/controllers/stats.controller.ts:71 | lower-casing twice is lower-casing once |
| Text.Split | src/hooks/useIdioma.ts:3 | `split` on one character always gives at least one piece, and no piece contains the separator |
| Text.SplitHead | src/hooks/useIdioma.ts:3 | the first piece is the text before the first separator |
| Text.JoinSplit | src/hooks/useIdioma.ts:3 | joining the pieces with the separator gives the original string back |
| Text.SplitJoin | src/hooks/useIdioma.ts:3 | splitting pieces that lack the separator, after joining them, gives the pieces back |
| Text.SplitWithoutSeparator | src/hooks/useIdioma.ts:3 | a string without the separator splits into itself alone |
| Text.SplitOnSeparator | src/hooks/useIdioma.ts:3 | splitting `p + sep + q` peels off `p` and then splits `q` |
| Text.SplitAfterPrefix | src/middleware/auth.middleware.ts:33 | after a separator-free prefix and one separator, the second piece is the first piece of the rest |
| Store.FindUsuarioByEmail | src/controllers/auth.controller.ts:45 | `findUnique` by e-mail finds a stored user with that e-mail, and finds none exactly when no stored user has it |
| Store.FindUsuarioById | src/middleware/auth.middleware.ts:46-49 | `findUnique` by id finds a stored user with that id, and finds none exactly when no stored user has it |
| Store.FindByEmailUnique | src/controllers/auth.controller.ts:116 | with unique e-mails, the lookup by a user's e-mail returns that very user |
| Store.FindByIdUnique | src/middleware/auth.middleware.ts:46-49 | with unique ids, the lookup by a user's id returns that very user |
| Store.IdsIdentify | src/middleware/auth.middleware.ts:46-49 | with unique ids, two stored users with the same id are the same user |
| Store.Database.CreateUsuario | src/controllers/auth.controller.ts:54-61 | inserts exactly one user with the next id, appended; keeps e-mails and ids unique |
| Store.Database.CreateTour | src/controllers/tours.controller.ts:96-118 | inserts exactly one tour with the next id, appended; keeps ids unique |
| Store.Database.CreateTraduccion | src/controllers/tours.controller.ts:124-126 | appends exactly one translation row |
| Store.Database.CreateReserva | src/controllers/reservas.controller.ts:96-109 | inserts exactly one reservation with the next id, the clock's date and the column's default status |
| Stats.Set | src/controllers/stats.controller.ts:51-60 | `Map.set`: the value is stored; a new key goes last in iteration order; a known key keeps its place |
| Stats.Values | src/controllers/stats.controller.ts:82 | `Array.from(mapa.values())` lists the entries in iteration order |
| Stats.KeepActive | src/controllers/stats.controller.ts:82-84 | the filter keeps no more entries than it was given, and every entry it keeps has a reservation |
| Stats.KeepActiveMembers | src/controllers/stats.controller.ts:82-84 | an entry survives the filter exactly when it was there and has a reservation |
| Stats.StatusWithinTotal | src/controllers/stats.controller.ts:76-78 | the three status counts together never exceed the number of reservations |
| Stats.Zeroed | src/controllers/stats.controller.ts:51-60 | a tour's first entry carries its id, title and place, with every counter at 0 |
| Stats.Personas | src/controllers/stats.controller.ts:70 | a reservation's people, with null as 0 |
| Stats.Estado | src/controllers/stats.controller.ts:71 | the status lower-cased, with null or empty as the empty text: same length, no upper-case letter |
| Stats.Summary | src/controllers/stats.controller.ts:64-79 | a tour's specified counters, whose status counts stay within its total |
| Stats.Summaries | src/controllers/stats.controller.ts:82 | one summary per tour, in the tours' order |
| Stats.Expected | src/controllers/stats.controller.ts:82-84 | the specified answer: at most one line per tour, each with at least one reservation |
| Stats.BuildBase | src/controllers/stats.controller.ts:50-61 | the map starts with exactly the tour ids, in tour order, each with a zeroed entry |
| Stats.BaseStep | src/controllers/stats.controller.ts:50-61 | setting the next tour's zeroed entry extends the map by that tour at the end |
| Stats.SummaryOfNone | src/controllers/stats.controller.ts:55-59 | before any reservation, a tour's summary is its zeroed entry |
| Stats.TracksAtStart | src/controllers/stats.controller.ts:50-61 | the zeroed map holds the summary of no reservations for every tour |
| Stats.UncountedStep | src/controllers/stats.controller.ts:65-68 | a reservation that does not count for a tour leaves its summary unchanged |
| Stats.CountedStep | src/controllers/stats.controller.ts:70-78 | a reservation that counts adds 1 reservation, its people (null as 0) and at most one status |
| Stats.Count | src/controllers/stats.controller.ts:70-78 | the loop body bumps a tour's counters exactly as one counted reservation must |
| Stats.SkipKeepsTracking | src/controllers/stats.controller.ts:65-68 | skipping a reservation with a falsy or unknown `tour_id` keeps every entry equal to its summary |
| Stats.CountKeepsTracking | src/controllers/stats.controller.ts:67-78 | bumping the entry of the reservation's tour keeps every entry equal to its summary |
| Stats.AddOne | src/controllers/stats.controller.ts:64-79 | one turn of the loop: same keys, and every entry is the summary of one more reservation |
| Stats.AddReservas | src/controllers/stats.controller.ts:64-79 | after the loop, every tour's entry is its summary of all reservations, with the keys unchanged |
| Stats.ReservasPorTour | src/controllers/stats.controller.ts:50-84 | the answer is the summaries of the tours that have reservations, in tour order |
| Stats.ExpectedLinesAreActive | src/controllers/stats.controller.ts:82-84 | every line has at least one reservation, and its status counts stay within its total |
| Stats.ExpectedHasTour | src/controllers/stats.controller.ts:82-84 | a tour has a line exactly when some reservation counts for it |
| Stats.KeepActiveCons | src/controllers/stats.controller.ts:82-84 | filtering a list with one more entry in front |
| Stats.KeepActiveAppend | src/controllers/stats.controller.ts:82-84 | filtering a concatenation is concatenating the filtered parts |
| Stats.ExpectedInTourOrder | src/controllers/stats.controller.ts:50-84 | cutting the tour list anywhere, the lines of the first part come before those of the second |
| Stats.OrphanChangesNothing | src/controllers/stats.controller.ts:65-68 | a reservation with a null, zero or unknown `tour_id` changes neither the summaries nor the answer |
| Stats.KeepActiveSum | src/controllers/stats.controller.ts:82-84 | dropping tours without reservations does not change the sum of `total_reservas` |
| Stats.HitsKnown | src/controllers/stats.controller.ts:65-68 | with distinct tour ids, a reservation counts for one tour if its tour is known and for none otherwise |
| Stats.SumSummariesStep | src/controllers/stats.controller.ts:64-79 | one more reservation adds the number of tours it counts for to the sum of totals |
| Stats.SumSummariesEmpty | src/controllers/stats.controller.ts:50-61 | with no reservations the totals sum to 0 |
| Stats.SummariesTotal | src/controllers/stats.controller.ts:64-79 | the totals over all tours sum to the number of reservations that name a known tour |
| Stats.ExpectedTotal | src/controllers/stats.controller.ts:64-84 | the totals in the answer sum to the number of reservations that name a known tour |
| Stats.StatusCaseIgnored | src/controllers/stats.controller.ts:71-78 | two statuses that lower-case alike ("CONFIRMADA", "confirmada") give the same summary |
| Tours.Describes | src/controllers/tours.controller.ts:16-45 | the filter a query must give; under it, the filter is empty exactly when no criterion is truthy |
| Tours.BuildFiltros | src/controllers/tours.controller.ts:16-45 | the filter has the search, price, category and season keys exactly for the criteria that are truthy, with those values |
| Tours.DescribesUnique | src/controllers/tours.controller.ts:16-45 | the query determines the filter |
| Tours.NoCriteriaNoFilter | src/controllers/tours.controller.ts:19-45 | missing or empty criteria add no key to the filter |
| Tours.PriceRangeNeverEmpty | src/controllers/tours.controller.ts:27-31 | a price condition, when present, bounds at least one side |
| Tours.Take | src/controllers/tours.controller.ts:48 | the page size is `Number(pageSize)` when given, else 10 |
| Tours.Skip | src/controllers/tours.controller.ts:49 | the offset is 0 without a page, and `(page - 1) * take` with one; it is not negative for a page of at least 1 |
| Tours.SortBy | src/controllers/tours.controller.ts:52 | the sort column is the given one, else "id" |
| Tours.Order | src/controllers/tours.controller.ts:53 | the order is descending exactly when `order` is "desc" |
| Tours.PageNumber | src/controllers/tours.controller.ts:71 | the reported page is never 0: the page read as a number when that is not 0, else 1 |
| Tours.PageZeroSkipsBackwards | src/controllers/tours.controller.ts:49-71 | a page that reads as 0 is reported as page 1 but passes `skip = -pageSize` to the query |
| Tours.CeilDiv | src/controllers/tours.controller.ts:73 | `Math.ceil(a / b)` on integers, for a divisor of either sign |
| Tours.TotalPages | src/controllers/tours.controller.ts:73 | there is no page count exactly when the page size is 0; otherwise it is the least number of pages that hold all rows |
| Tours.EveryRowOnSomePage | src/controllers/tours.controller.ts:64-73 | every matching row lies on a page that is no later than the last page reported |
| Tours.FiltrarTours | src/controllers/tours.controller.ts:11-75 | the query arguments and the answer's metadata are built from the query as specified, and the results are what the search returns |
| Tours.NombreAutor | src/controllers/tours.controller.ts:258 | the author's name when present (empty included), else "Viajero" |
| Tours.Vista | src/controllers/tours.controller.ts:256-262 | a reshaped review keeps id, comment, rating and date and replaces the author by a name |
| Tours.Vistas | src/controllers/tours.controller.ts:256-262 | the reviews are reshaped one to one, in order |
| Tours.VistasAppend | src/controllers/tours.controller.ts:256-262 | reshaping works review by review: it distributes over concatenation |
| Tours.VistasKeepIds | src/controllers/tours.controller.ts:256-262 | each reshaped review keeps its id and position; a review without an author is signed "Viajero" |
| Tours.GetTourById | src/controllers/tours.controller.ts:235-263 | 404 "Tour no encontrado" exactly when there is no tour; otherwise the tour's fields, its departures and all its reviews reshaped one to one |
| Tours.TemporadaTexto | src/controllers/tours.controller.ts:92 | the season text is "de ", the first month, " a ", then the last month |
| Tours.Cupo | src/controllers/tours.controller.ts:104 | the capacity is `Number(cupo_maximo)` when given, else 0 |
| Tours.Categorias | src/controllers/tours.controller.ts:105-113 | categories are linked only when a list is sent, and then exactly those |
| Tours.TraduccionesDe | src/controllers/tours.controller.ts:121-127 | one translation row per language, in order, of the description, for the tour |
| Tours.TraduccionesStep | src/controllers/tours.controller.ts:121-127 | one more language adds its row at the end |
| Tours.Traducir | src/controllers/tours.controller.ts:121-127 | the loop appends exactly the translation rows for en, fr and de, in that order |
| Tours.CreateTourAI | src/controllers/tours.controller.ts:83-132 | 201; exactly one new tour, with every field from the body, the generated description and the capacity and category defaults; then its translations |
| Tours.ThreeTranslations | src/controllers/tours.controller.ts:121-127 | exactly three translations, for en, fr and de in that order, all for the new tour |
| AuthMiddleware.HeaderToken | src/middleware/auth.middleware.ts:30-34 | a header token exists exactly for a header that starts with "Bearer ", and is the text after it up to the next space |
| AuthMiddleware.BearerSplit | src/middleware/auth.middleware.ts:33 | a "Bearer " header splits into at least two pieces, the second being the first piece of the rest |
| AuthMiddleware.SelectToken | src/middleware/auth.middleware.ts:36-37 | a non-empty header token wins; otherwise the cookie is used |
| AuthMiddleware.Authenticate | src/middleware/auth.middleware.ts:29-60 | 401 "No autenticado." exactly without a token; 401 "Token inválido o caducado." exactly for a token that does not verify; 401 "Usuario no encontrado." exactly for a verified token whose user id is not stored; granted exactly when the token's user is stored, with the stored id and role |
| AuthMiddleware.ProtegerRuta | src/middleware/auth.middleware.ts:24-61 | calls next exactly when granted, setting `req.usuario`; otherwise replies with the refusal and leaves the request alone |
| AuthMiddleware.BearerTokenRoundTrip | src/middleware/auth.middleware.ts:30-37 | "Bearer t", for a non-empty `t` without spaces, is checked with `t`, whatever the cookie |
| AuthMiddleware.EmptyHeaderTokenFallsThrough | src/middleware/auth.middleware.ts:36-37 | a header of exactly "Bearer " gives an empty token, so the cookie is used |
| AuthMiddleware.OtherSchemesIgnored | src/middleware/auth.middleware.ts:32 | a header that does not start with "Bearer " is ignored |
| AuthMiddleware.GrantedUsesStoredRole | src/middleware/auth.middleware.ts:46-55 | the role granted is the stored one, whatever role the token claims |
| AuthMiddleware.SoloAdmin | src/middleware/auth.middleware.ts:64-80 | 401 without a user, 403 for a non-admin, next exactly for an admin |
| AuthMiddleware.ProtectedAdminGate | src/middleware/auth.middleware.ts:24-80 | behind `protegerRuta`, `soloAdmin` never answers 401, and lets through exactly the users the store holds as admins |
| AdminAuth.AdminAuth | src/middleware/adminAuth.ts:10-16 | next exactly for a user whose role is "admin"; otherwise 403 "Acceso restringido a administradores" |
| AdminAuth.AgreesWithSoloAdmin | src/middleware/adminAuth.ts:12-15 | for a present user both admin gates decide alike; a missing user gets 403 here and 401 from `soloAdmin` |
| AdminAuth.MissingRolRejected | src/middleware/adminAuth.ts:12-14 | a user object without a role is refused |
| RoleMiddleware.RequireRole | src/middleware/role.middleware.ts:3-10 | next exactly when the body's user has the role; otherwise 403 with the role appended to the message |
| RoleMiddleware.SelfDeclaredRolePasses | src/middleware/role.middleware.ts:5-8 | a body that declares the role passes the gate for it |
| RoleMiddleware.AdminRoleAgreesWithAdminAuth | src/middleware/role.middleware.ts:6-8 | the "admin" gate lets through exactly what `adminAuth` lets through, judged on another object |
| RoleMiddleware.DistinctRolesExclusive | src/middleware/role.middleware.ts:6-8 | gates for two different roles never both let the same user through |
| Reservas.CamposObligatorios | src/controllers/reservas.controller.ts:91 | the guard passes only with all four fields present, and never for zero people |
| Reservas.CreateReserva | src/controllers/reservas.controller.ts:90-145 | 400 without touching the store exactly when a required field is falsy; otherwise 201 and exactly one new reservation; departures, tours and users unchanged |
| Reservas.ZeroIsMissing | src/controllers/reservas.controller.ts:91-93 | zero people, or a user id of 0, is refused as a missing field |
| Reservas.AnyNonZeroCountAccepted | src/controllers/reservas.controller.ts:91 | any non-zero number of people, negative ones included, passes the guard |
| Reservas.MisReservasToken | src/controllers/reservas.controller.ts:165-172 | the text after "Bearer " when the header starts with it, else the cookie when truthy, else none |
| Reservas.DeUsuario | src/controllers/reservas.controller.ts:184-185 | exactly the reservations of the user, each as often as it is stored, and no other |
| Reservas.Insertar | src/controllers/reservas.controller.ts:186 | inserting into a newest-first list keeps it newest first and adds exactly that reservation |
| Reservas.OrdenarPorFechaDesc | src/controllers/reservas.controller.ts:186 | the same reservations, newest first |
| Reservas.MisReservas | src/controllers/reservas.controller.ts:162-204 | 401 exactly without a token; 500 exactly for a token that does not verify; for a verified token always a list, holding the caller's reservations newest first |
| Reservas.ListaExacta | src/controllers/reservas.controller.ts:184-186 | a reservation is listed exactly when it is stored and belongs to the caller |
| Reservas.OrdenarKeepsLength | src/controllers/reservas.controller.ts:186 | sorting loses and duplicates nothing |
| Reservas.TokenStylesAgree | src/controllers/reservas.controller.ts:167-172 | for a plain token both ways of reading the header give that token |
| Reservas.EmptyBearerRefusedHere | src/controllers/reservas.controller.ts:168-172 | a header of exactly "Bearer " is an empty token here, so the cookie is ignored, while `protegerRuta` uses the cookie |
| Reservas.TrailingTextKeptHere | src/controllers/reservas.controller.ts:168-169 | text after a space stays in the token here, while `protegerRuta` stops at the space |
| AuthController.TokenCarriesIdentity | src/controllers/auth.controller.ts:24-26 | a token from `generarJWT`, verified with the matching key, gives back exactly the id and the role it was made for |
| AuthController.CookieLifetime | src/controllers/auth.controller.ts:82 | the cookie lives 604800000 ms, which is seven days |
| AuthController.SessionCookie | src/controllers/auth.controller.ts:78-83 | the `token` cookie is HTTP-only, secure, `SameSite=None` and lives seven days |
| AuthController.Publico | src/controllers/auth.controller.ts:139-147 | the answer shows id, name, e-mail and role of the user |
| AuthController.PublicoHidesPassword | src/controllers/auth.controller.ts:139-147 | the answer does not depend on the stored password |
| AuthController.RolInicial | src/controllers/auth.controller.ts:59 | the role sent, when truthy, else "usuario" |
| AuthController.RegistroCompleto | src/controllers/auth.controller.ts:40 | the guard passes only with name, e-mail and password present, and never with one of them empty |
| AuthController.NuevoUsuario | src/controllers/auth.controller.ts:54-61 | the new row has the hashed password and the initial role |
| AuthController.Register | src/controllers/auth.controller.ts:39-94 | 400 for a missing field, 400 for a taken e-mail, both leaving the table alone; otherwise exactly one new user and 201 with a session cookie |
| AuthController.LoginResult | src/controllers/auth.controller.ts:110-147 | 400, 404 and 401 in that order, each exactly in its case; a 200 session exactly for a stored user whose password checks, for that user |
| AuthController.Login | src/controllers/auth.controller.ts:106-147 | the handler answers as the login decision says |
| AuthController.RegisterThenLogin | src/controllers/auth.controller.ts:116-128 | a user who has just registered logs in with the same credentials and gets their own account |
| AuthController.EmailTakenAfterRegister | src/controllers/auth.controller.ts:45-48 | after a registration the e-mail is taken |
| AuthController.LoginCookieAuthenticates | src/controllers/auth.controller.ts:128-136 | the login cookie passes `protegerRuta` as the user who logged in, with the stored role |
| AuthController.SelfAssignedAdmin | src/controllers/auth.controller.ts:59 | registering with role "admin" stores an admin that `soloAdmin` lets through |
| Idioma.Subetiqueta | src/hooks/useIdioma.ts:3 | the text before the first "-" |
| Idioma.UseIdioma | src/hooks/useIdioma.ts:2-5 | always one of es, en, fr, de: the primary subtag when supported as written, else "es" |
| Idioma.UseIdiomaIdempotent | src/hooks/useIdioma.ts:3-4 | choosing again from the choice changes nothing |
| Idioma.RegionIgnored | src/hooks/useIdioma.ts:3-4 | "fr-CA" gives "fr" |
| Idioma.UpperCaseNotRecognised | src/hooks/useIdioma.ts:4 | "EN-US" gives "es": the match is case-sensitive |
| Upload.MaxFileSizeValue | src/middleware/upload.middleware.ts:32 | the limit is 5242880 bytes |
| Upload.FileFilter | src/middleware/upload.middleware.ts:20-26 | a file is accepted exactly when its MIME type starts with "image/"; otherwise "Solo se permiten imágenes" |
| Upload.OnlyLeadingImageAccepted | src/middleware/upload.middleware.ts:21 | "image/png" is accepted and "text/image/png" refused |
| Upload.StripTrailingSlashes | src/middleware/upload.middleware.ts:14 | a prefix of the path, without a trailing slash, having dropped only slashes |
| Upload.LastIndex | src/middleware/upload.middleware.ts:14 | the last position of a character, or -1 |
| Upload.Basename | src/middleware/upload.middleware.ts:14 | the last path segment has no slash |
| Upload.Extname | src/middleware/upload.middleware.ts:14 | empty, or a dot followed by no dot and no slash, taken from inside the base name after its first character |
| Upload.StoredFilename | src/middleware/upload.middleware.ts:15 | the stored name is the field name, "-", the suffix and the original extension, in that order and nothing more |
| Upload.StoredFilenameShape | src/middleware/upload.middleware.ts:15 | the stored name is the field name, "-", the suffix, then the original extension |
| Upload.DistinctSuffixesDistinctNames | src/middleware/upload.middleware.ts:13-15 | different suffixes of one length give different names |
| Upload.ExtnameOfPlainName | src/middleware/upload.middleware.ts:14 | a plain name keeps its last extension, letter case included |
| Upload.NoExtensionForDotFile | src/middleware/upload.middleware.ts:14 | a name whose only dot is its first character has no extension |
| Upload.NoExtensionWithoutDot | src/middleware/upload.middleware.ts:14 | a name without a dot has no extension |

## Left out

- The e-mails sent by `register` and `createReserva`: SMTP I/O, with no effect on the answers.
- The 500 branches that catch database, e-mail and generator failures. The ORM is assumed to
  succeed. The exceptions are `misReservas`, whose failed token check is modelled as its 500,
  and `protegerRuta`, whose failed token check is modelled as its 401.
- The ORM's own semantics: what `count`/`findMany` return for a filter, the `orderBy` on
  departures, and `include` joins. `getTourById` and `filtrarTours` take these as inputs.
  `misReservas` keeps only the `where` on the user and the `orderBy` on the date, with ties
  between equal dates in any order.
- Reservas.MisReservas: promises a newest-first permutation of the caller's reservations, not
  one particular order among reservations with the same date, because the query leaves that
  order to the database.
- Floating point: `parseFloat` prices, `Number` on text that is not an integer, and the `isNaN`
  guard on `numero_personas` (stats.controller.ts:74). Numbers are integers, and `number` stands
  for the conversion.
- Tours.TotalPages: a page size of 0 gives no page count (`None`), where JavaScript gives
  `Infinity` or `NaN`. A negative page size is divided as `Math.ceil` would divide it.
- `toLowerCase` beyond ASCII letters.
- Express query parameters that arrive as arrays rather than strings.
- The `createReserva` body holds its ids and its number of people as numbers. A field sent as
  text, such as `"0"`, is truthy in JavaScript and would pass the guard at
  reservas.controller.ts:91; that case is not modelled.
- Tour columns the modelled handlers only copy (latitude, longitude, duration, difficulty,
  image): they are not part of `Store.Tour`.
- Multer's enforcement of the size limit and its disk writes. Only the limit's value is
  modelled.
- `Date.now`/`Math.random` for the file-name suffix, which is a parameter. `navigator.language`
  is a parameter too.
- bcrypt, jsonwebtoken (including token expiry), cookie parsing and CORS. They are the
  parameters `hash`, `compare`, `sign` and `verify`.
- `logout` and every handler that is one ORM call with no logic of its own (offers, reviews,
  users, departures, translations, the admin dashboard, health, the other tour handlers). They
  are not part of this model.
- The OpenAI-backed generator and translator, which are the parameters `generar` and
  `traducir`.
- Aliasing of the counter objects in the statistics map: each entry is a value replaced on
  update. No other code holds a reference to these entries, so nothing observable is lost.
