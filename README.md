# SARA activity monitoring and advice, modelled in Dafny

SARA is an employee-activity system with four parts:

- a Django back end (`core/views.py`, `core/models.py`);
- a desktop monitor, SARA Monitor (`sara-monitor/main.js`), with its dashboard window (`sara-monitor/renderer.js`);
- a desktop virtual assistant (`asistente-virtual/src/main/main.js`, `asistente-virtual/src/assets/js/utils.js`).

The monitor samples the busiest processes every five seconds. It classifies the active window as productive, unproductive, gaming or neutral. It buffers the samples and posts them in batches of six.

The back end stores each sample as an `ActividadUsuario` row. On the last sample of a batch it runs a personal "agent". The agent applies contextual, pattern and working-time rules, records an `IAAnalisis` with the tips, and updates the user's `Estadistica` score (0 to 100) and improvement count.

The back end also serves several other operations:

- proactive advice, deduplicated over five minutes;
- a keyword-routed chat;
- per-user and per-employee aggregates for supervisors;
- the DD/MM/YYYY date check on records.

The assistant holds the configuration and authentication state, chooses contextual tips, and estimates browser tabs from window titles.

The model runs in two modes:

- **Pure logic as functions.** The rules, classifiers, buckets and parsers are functions. Lemmas state what the code promises of them.
- **State as classes.** State that the source changes in place is a class whose methods are proved against those functions:
  - `Backend.Store` holds the database tables;
  - `Monitor.Sesion` holds the monitor's buffer and login;
  - `Dashboard.Panel` holds the 50-entry history;
  - `Assistant.SaraAsistenteVirtual` holds the config and session.

The database is a record of sequences, one per table. Clock readings and server replies are parameters: `now` is in seconds for the back end and in milliseconds for the JavaScript clients. Time is UTC. CPU loads are integers in thousandths of a percent.

Modules, one per file:

- `Wrappers`, `Text` and `Sorting` are shared helpers: Option, string search, Python/JS string built-ins, and stable insertion sort.
- `Models` holds the tables and their defaults.
- `Validation` holds the record validation and access rules.
- `Rules` holds the advisory rules.
- `Chat` holds the chat.
- `Aggregation` holds the supervisor views.
- `Backend` holds ingest, the agent, proactive advice and the store.
- `Monitor`, `Dashboard`, `Assistant` and `Utils` hold the desktop clients.

## Model

| member | source | states |
|---|---|---|
| Models.HourOf | core/views.py:1218 | the hour of a timestamp lies in [0, 24) |
| Models.DateOf | core/views.py:1202-1206 | `timestamp.date()` as a day number: the instant lies within that day's 86400 seconds, so `timestamp__date=hoy` selects exactly that day |
| Models.ParseRol | core/models.py:7-12 | exactly the three declared role values parse, and each parses back to its stored value |
| Models.NuevoUsuario | core/models.py:12 | a user created without a role is an employee; otherwise the given role is kept |
| Models.NombreVisible | core/views.py:675 | `get_full_name() or username`: the trimmed full name when it is non-empty, else the username |
| Models.NuevoRegistro | core/models.py:18-22 | a new record keeps its owner, date and content and has an empty error list |
| Models.NuevaEstadistica | core/models.py:27-31 | new statistics have score 0 and 0 improvements, dated now |
| Models.NuevoAnalisis | core/models.py:36-40 | a new analysis is dated at creation time; patterns default to the empty list |
| Models.ParseProductividad | core/models.py:53-58 | exactly the four declared productivity labels parse, each back to its label |
| Models.ProductividadChoices | core/models.py:53-58 | there are exactly four distinct choices, each with a label that round-trips |
| Models.Ordered | core/models.py:64 | the default order is a permutation of the rows, newest timestamp first |
| Models.Newest | core/views.py:574 | `.order_by('-timestamp').first()`: None iff there are no rows, else a row with the greatest timestamp |
| Models.AnalisisDe | core/views.py:577-578 | exactly the analyses of the given user |
| Models.AnalisisMasReciente | core/views.py:577-579 | None iff the user has no analysis, else one of theirs with the latest date |
| Models.Select | core/views.py:555-558 | a filter keeps exactly the matching rows and never adds any |
| Models.CountOfAppend | core/views.py:953-962 | counts over stored rows are additive when rows are appended |
| Models.CountOfMonotone | core/views.py:1175-1180 | a narrower filter never counts more rows (a labelled count never exceeds the total) |
| Models.UsuarioPorId | core/views.py:944 | None iff no user has the id, else the user with that id |
| Models.EstadisticasDe | core/views.py:1338 | exactly the statistics rows of one user; empty iff the user has none |
| Models.UltimaEstadistica | core/views.py:690 | `.last()` over a table without declared ordering: None iff the user has no statistics, else their row that no later row of theirs follows |
| Validation.ParseFecha | core/views.py:94-100 | a parsed date has day 1..31, month 1..12 and year 0..9999, and comes from 8 to 10 characters |
| Validation.FormatoFechaRoundTrip | core/views.py:94-100 | every calendar date written as DD/MM/YYYY parses back to itself and is accepted |
| Validation.AceptaSinCeros | core/views.py:97 | unpadded day and month fields are accepted, as `strptime` accepts them |
| Validation.VeintinueveDeFebrero | core/views.py:97 | 29/02 is rejected in a common year and accepted in a leap year |
| Validation.ValidarRegistro | core/views.py:88-92 | at most one error; no error iff there is no `fecha` key or its date is valid; the error names `fecha` with the fixed message |
| Validation.RegistroConFechaCorrecta | core/views.py:90-91 | content whose `fecha` is a formatted calendar date yields no errors |
| Validation.DestinoDashboard | core/views.py:21-31 | anonymous visitors go to login, admins and supervisors to the admin dashboard, employees to their own |
| Validation.RegistrosVisibles | core/views.py:222-228 | the list holds exactly the records the user may access: all for supervision roles, their own otherwise |
| Validation.EmpleadoVeSoloLoSuyo | core/views.py:227 | an employee's list holds exactly their own records |
| Rules.GrupoDe | core/views.py:1029-1053 | some group is chosen iff one of the five lists (writing, "spreadsheet", browser, IDE, communication) matches the title |
| Rules.GrupoDeEnOrden | core/views.py:1029-1053 | first match wins: each group is chosen iff its own test holds and every earlier test (writing, "excel"/"spreadsheet", browser, IDE) fails |
| Rules.ExcelEsEscritura | core/views.py:1034 | a title containing "excel" already matches the writing list |
| Rules.HojaCalculoSoloPorSpreadsheet | core/views.py:1034-1039 | the Excel branch is reached iff no writing word matches and "spreadsheet" occurs, so never for "excel" |
| Rules.EscrituraPrimero | core/views.py:1034-1035 | any writing word puts a title in the writing group |
| Rules.ExcelTitleIsEscritura | core/views.py:1034-1039 | a workbook title containing "excel" gets writing advice |
| Rules.ConsejosEscritura | core/views.py:1055-1074 | the rest tip iff more than 20 samples; the documentation tip iff hour 9..12; nothing else |
| Rules.ConsejosExcel | core/views.py:1076-1095 | the two best-practice tips always; the save and shortcut tips iff more than 30 samples |
| Rules.ConsejosNavegacion | core/views.py:1097-1116 | the tabs tip iff more than 15 samples; the fatigue tip iff hour 14..16 |
| Rules.ConsejosDesarrollo | core/views.py:1118-1137 | tests and naming tips always; commit and shortcut tips iff more than 40 samples |
| Rules.ConsejosComunicacion | core/views.py:1139-1156 | the concise-messages tip always; the balance tip iff more than 25 samples |
| Rules.ConsejosContextuales | core/views.py:1029-1053 | no advice outside the five groups; the spreadsheet, IDE and communication groups always advise |
| Rules.ConsejosContextualesPorGrupo | core/views.py:1029-1053 | the advice is exactly the selected group's own tip list, read from that group's own count (writing, Excel, browser, IDE or communication) |
| Rules.ConsejosPatron | core/views.py:1158-1195 | nothing unless more than 5 samples; then low-ratio (< 0.3) adds exactly two tips, unproductive > productive one, gaming before 18h one |
| Rules.ConsejosTiempo | core/views.py:1197-1229 | over 480 minutes (count*30/60) one tip, over 360 another, exclusive; out-of-hours, lunch or end-of-day tip by hour; exactly one tip per rule that fires and nothing else |
| Rules.PuntajeSiguiente | core/views.py:1340-1346 | productive gives min(100, p+1), unproductive max(0, p-2), gaming max(0, p-3), other labels unchanged; [0,100] is preserved |
| Rules.MejorasSiguiente | core/views.py:1349-1356 | improvements rise by exactly one iff today has more than 50 productive samples, else stay |
| Rules.EstadisticaTras | core/views.py:1335-1358 | `get_or_create` then update: new statistics start from 0 and 0; the row is dated now |
| Rules.PuntajeAcotado | core/views.py:1341-1346 | any sequence of updates keeps a score in [0, 100] |
| Rules.PuntajeProductivoNoBaja | core/views.py:1341-1342 | n productive samples raise a score to exactly min(100, p + n) |
| Rules.ConsejoEnApp | core/views.py:1260-1268 | an in-app tip iff the title names Excel, Word, an IDE or a browser, and always one of the four in-app tips |
| Rules.ConsejoEnAppPorAplicacion | core/views.py:1260-1268 | first match among Excel, Word, IDEs and browsers: each application's own tip exactly when its test holds and the earlier ones fail |
| Rules.ConsejoHora | core/views.py:1287-1295 | the coffee tip iff hour 11, lunch iff 14, end-of-day iff 17, go-home iff 18 or later, none otherwise |
| Rules.ConsejosProactivos | core/views.py:1253-1303 | in-app tip after more than 20 samples; low-share tips iff more than 10 samples and share < 0.4; welcome iff no statistics; low-score tip iff score < 50 |
| Rules.ConsejosProactivosExactos | core/views.py:1253-1303 | nothing but the rules' own tips: every tip is one of the twelve the rules know, and the length is exactly one per firing rule (two for falling productivity) |
| Rules.ConsejosProactivosEnOrden | core/views.py:1253-1303 | the joined advice lists in-app, falling-productivity, Pomodoro, hour and statistics tips in that order, with an hour tip exactly when it is the current hour's |
| Rules.TipsEnApp | core/views.py:1260-1268 | the in-app tip is present iff more than 20 recent samples share the title and the title names a known application, and it is that application's tip |
| Rules.TipsBaja | core/views.py:1280-1284 | the falling-productivity and Pomodoro tips appear together, exactly when there are more than 10 samples and under 40% of them are productive |
| Rules.TipsEstadistica | core/views.py:1298-1303 | the welcome tip iff the user has no statistics row, the low-score tip iff the score is below 50, and no other tip |
| Rules.SinEstadisticaSiempreAconseja | core/views.py:1302-1303 | without statistics the welcome tip makes the advice non-empty |
| Chat.PrimerGrupo | core/views.py:644-670 | the first keyword group, in order, that the message contains; no earlier group matches |
| Chat.IntencionDe | core/views.py:644-670 | general iff no group matches; otherwise the matched group and no earlier one |
| Chat.AyudaConExcel | core/views.py:647-648 | "ayuda con excel" is routed to help, not to Excel |
| Chat.HolaEsGeneral | core/views.py:668-670 | "hola" falls through to the general handler |
| Chat.NivelDe | core/views.py:696-701 | excellent iff score >= 80, good iff 60..79, focus otherwise |
| Chat.NivelMonotono | core/views.py:696-701 | a higher score never gets a lower level |
| Chat.MinutosChat | core/views.py:796 | minutes are `samples*30 // 60`, the floor of half the sample count |
| Chat.EstadoTiempoDe | core/views.py:798-805 | the four time states partition minutes at 240, 360 and 480 |
| Chat.ChatYAgenteDifierenEn961 | core/views.py:796-805 | with 961 samples the chat reports "several hours" while the agent (true division, line 1209) already gives the 8-hour tip |
| Chat.ChatMuchoTrabajoImplicaAgente | core/views.py:796-799 | whenever the chat says "worked a lot", the agent gives the 8-hour tip |
| Chat.PalabraReportada | core/views.py:1466-1471 | "es" is reported iff the message contains it, "oyo" iff it contains "oyo" but not "es", nothing iff neither nor "hoyo" occurs; never "hoyo" itself, which contains "oyo" |
| Chat.OyoEnHoyo | core/views.py:1466 | any message containing "hoyo" contains "oyo" |
| Chat.PalabraSobreLaQueResponder | core/views.py:1468-1471 | the loop over the word list returns exactly the first explained word found |
| Chat.SoloLasPrimerasSeExplican | core/views.py:1466-1470 | only the first three listed words can be explained; the rest are dead entries |
| Chat.OrtografiaDe | core/views.py:1457-1489 | "se escribe" gives the how-to reply; otherwise the "es" reply iff "es" occurs, then the "oyo" reply, else the general rules |
| Chat.GeneralDe | core/views.py:875-925 | greeting iff a greeting word occurs; otherwise a question is answered by its topic and a statement by its words |
| Chat.TemaPregunta | core/views.py:886-903 | the question reply is chosen by the first matching list, in the order writing, Excel, time, error, else the open reply (each as an iff) |
| Chat.TemaAfirmacion | core/views.py:905-925 | positive, then negative, then status, then advice words, else the introduction (each as an iff) |
| Chat.PreguntasInalcanzables | core/views.py:888-900 | after routing, the writing, time and error question replies of the general handler can never be produced |
| Chat.OrdenesSonPreordenes | core/views.py:733 | ordering records by date is a total preorder |
| Chat.RegistrosConErrores | core/views.py:730-735 | the corrected query (see Findings): the three newest of the user's records with errors, min(3, n) of them, each taken at most as often as it occurs (a sub-multiset), newest first, none left out newer than one kept; empty iff none has errors |
| Chat.RegistrosConErroresTalCual | core/views.py:730-733 | the query as written: the three newest of all the user's records, with or without errors: min(3, n) of them, a sub-multiset, newest first, none left out newer than one kept |
| Chat.ErroresTalCualListaRegistroLimpio | core/views.py:732 | a user with one clean record gets it listed as an error record, while the intended query lists nothing |
| Chat.AnalisisAgenteDe | core/views.py:841-844 | exactly the user's agent analyses |
| Chat.UltimosConsejosAgente | core/views.py:841-844 | the user's three newest agent analyses: min(3, n) of them, a sub-multiset of the user's agent analyses, newest first, none left out newer than one kept |
| Chat.Resumenes | core/views.py:849-850 | each summary is the text cut to 100 characters plus "..." when longer |
| Chat.ConsejosRecientes | core/views.py:841-850 | one summary per newest agent analysis, in order, each its recommendation cut by `Abreviar(rec, 100)`; none iff the user has no agent analyses |
| Chat.GenerarRespuesta | core/views.py:642-670 | each routed intent gets its own reply: productivity from the last-created statistics row (`.last()`), errors from the corrected query `RegistrosConErrores` (see Findings), time from today's sample count, tips from the newest analyses, spelling and general from their handlers |
| Chat.AsistenteChatApi | core/views.py:622-640 | a blank message is refused; any other is answered for its trimmed text with the request time |
| Aggregation.LabelCountsPartition | core/views.py:447-452 | the four label counts sum to the total iff every row carries a declared label |
| Aggregation.Ventanas | core/views.py:456 | the distinct titles, each appearing in the rows, without repeats |
| Aggregation.Tally | core/views.py:456-457 | one entry per distinct title with its exact positive count |
| Aggregation.TallyCubre | core/views.py:456-457 | every row's title has a tally entry |
| Aggregation.MayorConteoIsTotalPreorder | core/views.py:458 | ordering by count, descending, is a total preorder |
| Aggregation.TopApps | core/views.py:456-458 | `.order_by('-count')[:10]`: min(10, number of distinct titles) entries, most frequent first, exact counts, distinct titles; a title left out is used no more often than any kept |
| Aggregation.TopAppsCorrecto | core/views.py:456-458 | the table is the first ten of the sorted tally |
| Aggregation.PorcentajeAcotado | core/views.py:465 | the exact share of the maximum (before `round(x, 1)`) lies in [0,100], is positive for a positive count, and 100 at the maximum |
| Aggregation.Porcentajes | core/views.py:461-470 | one percentage per app entry |
| Aggregation.PorcentajesAcotados | core/views.py:462-470 | with the table sorted, the first exact share is 100 and all lie in (0,100] |
| Aggregation.ConPorcentaje | core/views.py:461-470 | the loop builds exactly the percentage table |
| Aggregation.TablaAplicaciones | core/views.py:456-470 | the detail table has at most 10 rows, first 100, all exact shares in (0,100] |
| Aggregation.ConteosDe | core/views.py:447-452 | the total is the number of rows |
| Aggregation.Ultimas24h | core/views.py:441-444 | exactly the user's rows of the last 24 hours |
| Aggregation.UltimoAnalisis | core/views.py:474 | `.last()` over a table without declared ordering: None iff the user has no analyses, else their analysis that no later analysis of theirs follows |
| Aggregation.Recientes | core/views.py:478 | `.order_by('-timestamp')[:20]`: min(20, n) of the rows, a sub-multiset of them (no row repeated), newest first, none left out newer than one kept |
| Aggregation.ActividadUsuarioDetail | core/views.py:432-491 | employees are refused, an unknown id is not found, otherwise the counts and table of the user's last 24 hours |
| Aggregation.EstadoTalCualActivoTrasUnDia | core/views.py:585 | a last sample exactly one day old reads as active under `.seconds`, but inactive by elapsed time |
| Aggregation.EstadoTalCualFuturoInactivo | core/views.py:585 | a last sample dated one second in the future reads as inactive under `.seconds`, but active by elapsed time |
| Aggregation.EstadoEmpleado | core/views.py:584-590 | the corrected state (see Findings): active iff the last sample is under 300 seconds old, inactive today iff older, no activity iff none |
| Aggregation.ResumenCoherente | core/views.py:555-606 | an employee's percentage lies in [0,100] and is 0 without samples; "no activity" iff no sample in 24 hours; with the corrected state (see Findings), "active" only with the user's own sample under 5 minutes old |
| Aggregation.UsernameLeIsTotalPreorder | core/views.py:549 | ordering by username is a total preorder |
| Aggregation.SoloEmpleados | core/views.py:549 | exactly the users with the employee role |
| Aggregation.EmpleadosOrdenados | core/views.py:549 | the employee list is a permutation of the employees, sorted by username |
| Aggregation.EmpleadosOverview | core/views.py:542-612 | refused iff the requester is an employee; otherwise one line per employee, in username order, each with the corrected state (see Findings) |
| Aggregation.Resumenes | core/views.py:553-606 | the loop yields one line per employee, each that employee's summary with the corrected state (see Findings) |
| Backend.ActualizarEstadisticas | core/views.py:1335-1361 | no row: one new row is appended; one row: it alone is updated in place; several rows: `get_or_create` raises and nothing changes |
| Backend.ActualizarEstadisticasCorrecto | core/views.py:1335-1361 | other users' statistics are untouched; a user with at most one row ends with exactly one, with its score kept in [0,100] |
| Backend.BuscarEstadisticas | core/views.py:1338 | the search counts the user's rows exactly and returns the index of one of them |
| Backend.AnalizarActividadCorrecto | core/views.py:978-1027 | one agent analysis, dated now, joining all tips with ". " and counting each rule's tips, is recorded iff some rule advises, and then the statistics are exactly `actualizar_estadisticas_inteligentes`'s update; users, records and samples are untouched |
| Backend.TalCualCallaEnIdesYComunicacion | core/views.py:1118-1156 | as written, coding and communication titles record nothing although their rules always advise |
| Backend.TituloVSCodeEsDesarrollo | core/views.py:1046 | a VS Code title belongs to the development group |
| Backend.TalCualCallaEnVSCode | core/views.py:1123-1127 | a concrete VS Code sample is silently dropped as written and recorded by the corrected agent |
| Backend.Fila | core/views.py:953-961 | a stored row has the user, machine and timestamp, and the defaults "Desconocido" and "neutral" for missing keys |
| Backend.PrimeraSinFecha | core/views.py:952-956 | the index of the first entry without timestamp, where `create()` fails |
| Backend.Filas | core/views.py:951-962 | one row per entry, in order |
| Backend.IngerirCorrecto | core/views.py:929-976 | 400 iff machine id or activities missing; 404 iff not 400 and the user id is missing or unknown, and it changes nothing; 500 keeps the rows before the failing entry; 201 stores one row per entry, in order, and the tables are then the agent's result on the last created row |
| Backend.ConsejoSiiRegistro | core/views.py:1305-1333 | advice is returned iff one proactive analysis, dated now, holding that text, is appended; no other table changes |
| Backend.ProactivoRecienteSuprime | core/views.py:1309-1316 | any proactive analysis of the user in the last five minutes suppresses advice, and nothing is recorded |
| Backend.SinActividadSinConsejo | core/views.py:1235-1240 | a user without samples gets no advice and nothing is recorded |
| Backend.SinDuplicados | core/views.py:1309-1316 | after advice at `now`, asking again within five minutes yields none and records nothing |
| Backend.BienvenidaSinEstadistica | core/views.py:1298-1303 | a user with samples, no statistics and no recent advice always gets advice |
| Backend.Store.ActividadUsuarioApi | core/views.py:929-976 | the tables afterwards and the response are exactly the ingest function's, which runs the corrected agent (see Left out) |
| Backend.Store.GuardarFilas | core/views.py:951-962 | stores exactly the rows of the entries before the first one without timestamp, in order, and touches no other table |
| Backend.Store.AnalizarActividadProactiva | core/views.py:978-1027 | the tables afterwards are the corrected agent's result (see Left out and Findings) |
| Backend.Store.ActualizarEstadisticasInteligentes | core/views.py:1335-1361 | only the statistics table changes, to the update function's result |
| Backend.Store.ConsejosProactivosApi | core/views.py:1365-1386 | the returned advice and the new tables are the proactive function's |
| Monitor.AnalyzeProductivity | sara-monitor/main.js:259-286 | productive iff the lower-cased title contains a productive app; neutral iff it contains none of the three lists |
| Monitor.AnalyzeProductivityLabel | sara-monitor/main.js:277-285 | the result is always one of the four declared labels |
| Monitor.UnproductiveSii | sara-monitor/main.js:277-280 | unproductive iff no productive app and some unproductive app occurs |
| Monitor.TiendasNuncaGaming | sara-monitor/main.js:265-282 | titles with "steam" or "epicgames" are never classified as gaming |
| Monitor.GamingPorOtroJuego | sara-monitor/main.js:270-282 | gaming needs one of the last eight gaming names |
| Monitor.AnalyzeProductivityIgnoraMayusculas | sara-monitor/main.js:275 | the classification ignores letter case |
| Monitor.Activos | sara-monitor/main.js:226 | exactly the processes above 0.1 % CPU |
| Monitor.MasCpuIsTotalPreorder | sara-monitor/main.js:227 | ordering by CPU, descending, is a total preorder |
| Monitor.SeleccionCorrecta | sara-monitor/main.js:225-228 | exactly min(5, n) of the n busy processes, a sub-multiset of them, by CPU descending, none busier left out; all of them when at most 5 qualify |
| Monitor.Centesimas | sara-monitor/main.js:231 | rounding to two decimals lands on a multiple of 0.01 within half of it |
| Monitor.CentesimasMonotona | sara-monitor/main.js:231 | rounding preserves order |
| Monitor.TopProcesses | sara-monitor/main.js:225-233 | the selection with each CPU rounded |
| Monitor.TopProcessesCorrecto | sara-monitor/main.js:225-233 | at most 5 entries in non-increasing CPU order, each a rounded busy process |
| Monitor.ActiveWindow | sara-monitor/main.js:236-241 | the first selected process's name, or "Sistema" when none or when it is empty |
| Monitor.ActiveWindowEsElMasActivo | sara-monitor/main.js:222-241 | "Sistema" when no process is above 0.1%; when every busy process has a name, and whenever the label is not "Sistema", the label is the name of a busy process with the highest CPU of the whole input |
| Monitor.CaptureActivity | sara-monitor/main.js:215-256 | a sample has the capture time, at most 5 processes, the window of the top one and its classification |
| Monitor.ComoEntradas | sara-monitor/main.js:217-296 | one posted entry per buffered sample, in order, carrying its time converted from the client's milliseconds to the server's whole seconds, its window, processes and label |
| Monitor.LoteCapturadoSeIngiere | sara-monitor/main.js:289-305 | a captured batch posted for a known user is stored whole by the back end: one row per sample, in order, with its window, label and time in seconds |
| Monitor.LoteCapturadoSeAnaliza | sara-monitor/main.js:289-305 | after storing a captured batch, the back end's tables are the agent's result on the row of the batch's last sample, whose window and time in seconds are that sample's |
| Monitor.MensajeLogin | sara-monitor/main.js:17-45 | a reply without a user is invalid; 401 gives the wrong-credentials text; another error passes the server's text on, or the connection text when there is none; no reply gives the connection text |
| Monitor.Aplanar | sara-monitor/main.js:305-311 | the samples of the posted, saved and discarded batches, in order |
| Monitor.SalidasEnOrden | sara-monitor/main.js:188-193 | every sample leaves the buffer in capture order: the batches are a prefix of the captures and the buffer the rest |
| Monitor.Sesion.LoginUser | sara-monitor/main.js:17-45 | success sets the current user; any failure keeps it and reports the message |
| Monitor.Sesion.LoginIpc | sara-monitor/main.js:324-329 | a missing username or password is refused before any request |
| Monitor.Sesion.StartMonitoring | sara-monitor/main.js:180-203 | monitoring is on afterwards; starting twice is harmless |
| Monitor.Sesion.StartMonitoringIpc | sara-monitor/main.js:335-341 | refused with "Usuario no autenticado" iff no user is logged in |
| Monitor.Sesion.StopMonitoring | sara-monitor/main.js:206-212 | monitoring is off; nothing else changes |
| Monitor.Sesion.SendActivityData | sara-monitor/main.js:289-313 | no-op with an empty buffer or no user; otherwise the buffer is emptied on success and on failure |
| Monitor.Sesion.Tick | sara-monitor/main.js:185-202 | while monitoring, a capture is appended; once at least 6 are buffered and a user is logged in, the whole buffer is posted with the user's id, or saved locally when the post fails, and emptied; with a user the buffer stays below 6; no sample is lost or duplicated |
| Monitor.Sesion.GetActivityData | sara-monitor/main.js:348-350 | returns the buffer |
| Monitor.Sesion.ClearActivityData | sara-monitor/main.js:352-355 | the buffer is emptied and its samples are accounted as discarded |
| Dashboard.Unshift | sara-monitor/renderer.js:107-110 | the new sample first, then the old history in order, length min(old+1, 50) |
| Dashboard.UnshiftDesplaza | sara-monitor/renderer.js:107-110 | after n more updates an old entry moves n places down while it stays within 50 |
| Dashboard.DistribucionSuma | sara-monitor/renderer.js:203-219 | the four counts add up to the history length |
| Dashboard.CuentaCero | sara-monitor/renderer.js:210-212 | a count is 0 iff no entry has that label |
| Dashboard.PorcentajeProductivoCorrecto | sara-monitor/renderer.js:230-232 | the percent lies in [0,100], within half of 100*productive/total, 100 when all and 0 when none are productive |
| Dashboard.Ventanas | sara-monitor/renderer.js:237 | exactly the window titles of the history |
| Dashboard.AppsActivasAcotadas | sara-monitor/renderer.js:237 | the distinct-app count is at most the history length and at least 1 when non-empty |
| Dashboard.RelojDe | sara-monitor/renderer.js:246-249 | minutes and seconds lie in [0,59] |
| Dashboard.RelojExacto | sara-monitor/renderer.js:246-249 | h*3600000 + m*60000 + s*1000 <= elapsed < that + 1000 |
| Dashboard.RelojTextoCorrecto | sara-monitor/renderer.js:251-252 | under 100 hours the text is HH:MM:SS, two digits per field, reading back the three fields |
| Dashboard.Sugerencias | sara-monitor/renderer.js:256-265 | the limit suggestion iff the sample is unproductive and the history holds more than 5 unproductive; the pause suggestion iff gaming before 18h; no suggestion iff neither holds, and at most one |
| Dashboard.SugerenciaLimiteTrasSeis | sara-monitor/renderer.js:258-259 | the limit suggestion needs at least six unproductive entries including the new one |
| Dashboard.EstadoTexto | sara-monitor/renderer.js:136-143 | "productive", "unproductive", "gaming" and "neutral" show "Productivo", "No Productivo", "Jugando" and "Neutral"; exactly the undeclared labels show "Analizando..." |
| Dashboard.Panel.HandleActivityUpdate | sara-monitor/renderer.js:103-120 | the history becomes the unshifted one and the suggestions are those of the new history |
| Dashboard.Panel.UpdateCharts | sara-monitor/renderer.js:199-222 | the loop's four counters equal the label distribution of the history |
| Dashboard.Panel.UpdateMetrics | sara-monitor/renderer.js:225-242 | the clock text, productive percent and distinct-app count of the history |
| Assistant.OcurrenciasSiiContains | asistente-virtual/src/main/main.js:520 | splitting on a separator gives more than one part iff the separator occurs |
| Assistant.OcurrenciasCaben | asistente-virtual/src/main/main.js:520 | non-overlapping occurrences fit in the title |
| Assistant.MaxPartes | asistente-virtual/src/main/main.js:517-524 | the estimate is at least 1 |
| Assistant.ConteoPestanasCorrecto | asistente-virtual/src/main/main.js:514-527 | at least 1, the largest part count of the three separators, and 1 iff none occurs |
| Assistant.MuchasPestanasTituloLargo | asistente-virtual/src/main/main.js:514-527 | more than 10 estimated tabs need a title of at least 30 characters |
| Assistant.CountBrowserTabs | asistente-virtual/src/main/main.js:514-527 | the loop returns the tab estimate |
| Assistant.GenerateContextualAdvice | asistente-virtual/src/main/main.js:487-512 | the tip, when any, is one of the four fixed tips |
| Assistant.PrecedenciaConsejos | asistente-virtual/src/main/main.js:487-512 | each tip iff its own test passes and every earlier one fails: Excel (app or title), then Word (app or title), then VS Code (app), then a browser app with more than 10 estimated tabs; no tip iff all four fail; the tab tip needs a title of 30 or more characters |
| Assistant.NavegadorConPocasPestanas | asistente-virtual/src/main/main.js:504-511 | a browser with 10 or fewer estimated tabs gets no tab tip |
| Assistant.DefaultConfig | asistente-virtual/src/main/main.js:16-29 | flags on, no token or user id, the API URL from the environment or the local default |
| Assistant.Fusionar | asistente-virtual/src/main/main.js:219 | every new key takes its new value, every other key keeps its old one, no key is lost |
| Assistant.FusionarIdempotente | asistente-virtual/src/main/main.js:219 | merging nothing changes nothing; merging the same settings twice equals merging once |
| Assistant.TokenInyectivo | asistente-virtual/src/main/main.js:295 | different user ids give different "Bearer" tokens |
| Assistant.SaraAsistenteVirtual.constructor | asistente-virtual/src/main/main.js:31-37 | the stored config overlays the defaults; not authenticated; no current app; no timer set |
| Assistant.SaraAsistenteVirtual.Init | asistente-virtual/src/main/main.js:39-58 | both timers are set; nothing else changes |
| Assistant.SaraAsistenteVirtual.SetConfig | asistente-virtual/src/main/main.js:218-222 | the config becomes the merge, is stored and returned |
| Assistant.SaraAsistenteVirtual.Authenticate | asistente-virtual/src/main/main.js:277-313 | success sets authenticated, the user id and the "Bearer" token and stores them; failure reports the server or connection error and changes nothing; neither timer is set again |
| Assistant.SaraAsistenteVirtual.Logout | asistente-virtual/src/main/main.js:315-329 | not authenticated, token and user id null, both timers stopped |
| Assistant.SaraAsistenteVirtual.SendMessage | asistente-virtual/src/main/main.js:331-352 | unauthenticated: "No autenticado" and no request; otherwise a post of the message to "/asistente/chat/" carrying the token, answered by the server's body or a connection error |
| Assistant.SaraAsistenteVirtual.GetProactiveAdvice | asistente-virtual/src/main/main.js:354-372 | unauthenticated: null and no request; otherwise a bodiless request to "/consejos-proactivos/" with the token, answered by the server's advice or null on an error |
| Assistant.SaraAsistenteVirtual.SendActivity | asistente-virtual/src/main/main.js:470-485 | a request is made iff authenticated: the given sample posted to "/activity/" with the token |
| Assistant.SaraAsistenteVirtual.AdviceTick | asistente-virtual/src/main/main.js:437-457 | nothing unless the timer is set and the user is authenticated with advice enabled; then one request to "/consejos-proactivos/" with the token, and a notice iff the advice is non-empty, cut to 100 characters plus "..." |
| Assistant.SaraAsistenteVirtual.MonitorTick | asistente-virtual/src/main/main.js:379-429 | nothing unless the timer is set and the user is authenticated; headless posts the "Sistema Docker" background sample to "/activity/"; an app change records the app, posts the window's sample and gives its tip; the same app again sends nothing |
| Assistant.SesionCompleta | asistente-virtual/src/main/main.js:293-352 | no request before login, a chat request with the message and the "Bearer" token after it, none after logout |
| Assistant.TimersTrasRelogin | asistente-virtual/src/main/main.js:52-329 | after init, login, logout and a new login the assistant is authenticated, yet neither timer sends a request: logout clears both and login never sets them again |
| Utils.FormatTime | asistente-virtual/src/assets/js/utils.js:5-25 | "Ahora" under a minute; a local date iff at least a day |
| Utils.FormatTimeCubetas | asistente-virtual/src/assets/js/utils.js:9-17 | "Hace m min" with m = floor(diff/60000) in 1..59; "Hace h h" with h in 1..23 |
| Utils.FormatTimeMinutosLegibles | asistente-virtual/src/assets/js/utils.js:11-13 | the minutes text reads back the minute count |
| Utils.IsValidEmailSiiRegex | asistente-virtual/src/assets/js/utils.js:28-31 | accepted iff the address splits as the regular expression describes: one "@", no whitespace, a dot in the domain with text on both sides |
| Utils.TieneEnRangoSii | asistente-virtual/src/assets/js/utils.js:177-179 | a class test holds iff some character lies in the range |
| Utils.ValidatePassword | asistente-virtual/src/assets/js/utils.js:175-190 | valid iff no error flag is set |
| Utils.ValidatePasswordCorrecto | asistente-virtual/src/assets/js/utils.js:175-190 | valid iff at least 8 characters with an upper-case letter, a lower-case letter and a digit; each flag negates its check |
| Utils.Capitalize | asistente-virtual/src/assets/js/utils.js:154-156 | the length is kept and only the first character may change |
| Utils.CapitalizeIdempotente | asistente-virtual/src/assets/js/utils.js:154-156 | capitalizing twice equals once |
| Utils.TruncateText | asistente-virtual/src/assets/js/utils.js:159-162 | a text within the limit is returned unchanged |
| Utils.TruncateTextCorrecto | asistente-virtual/src/assets/js/utils.js:159-162 | a longer text becomes its first maxLength-3 characters plus "...", exactly maxLength long |
| Utils.TruncateTextIdempotente | asistente-virtual/src/assets/js/utils.js:159-162 | truncating twice equals once |

## Left out

- The web layer is out: rendering, redirects, flash messages, user and record CRUD views, serializers, URLs and admin. Only the role and ownership rules are kept.
- ORM queries are modelled as filters over in-memory sequences, and transactions are autocommit. The read-modify-write race on statistics between concurrent requests is not modelled; requests are sequential.
- Clock reads (`timezone.now()`, `Date.now()`, `new Date()`) become parameters, and time zones are fixed to UTC. ISO timestamp strings are not parsed: a sample's timestamp is an instant, and the string fallback at core/views.py:986-990 is absent.
- Ingest: an entry without a timestamp makes `create()` fail with a NOT NULL error; the view answers 500, and the rows created before it stay.
- Chat.GenerarRespuesta and Chat.AsistenteChatApi answer the errors question with the corrected query `RegistrosConErrores` (records whose error list is non-empty), not the query as written (`RegistrosConErroresTalCual`), which lists clean records too (see Findings).
- Aggregation.ResumenCoherente: its "active" clause holds of the corrected state `EstadoEmpleado` (total elapsed seconds under 300), not of `(now - last).seconds < 300` as written at core/views.py:585 (`EstadoTalCual`, see Findings). As written, a last sample exactly 86400 s old reads as active, and one dated after `now` reads as inactive.
- Aggregation.Resumen, Aggregation.EmpleadosOverview and Aggregation.Resumenes use the corrected state `EstadoEmpleado`, not `EstadoTalCual` (see Findings).
- Ingerir, Store.ActividadUsuarioApi and Store.AnalizarActividadProactiva run the corrected agent `AnalizarActividad`, not the agent as written (`AnalizarActividadTalCual`). As written, a batch whose last title is a coding or communication one records no analysis and leaves the statistics alone (see Findings); the model records the analysis the code evidently intends.
- Aggregation.Porcentaje: `round(x, 1)` is not modelled; percentages are exact rationals. The same holds for the employee percentage at core/views.py:569. Rounding can turn a small positive share into 0.0 (a title seen once against a maximum of 17280 samples), so "positive for a positive count" and "(0,100]" in PorcentajeAcotado, PorcentajesAcotados and TablaAplicaciones hold of the exact share only.
- The CPU and memory figures in floating point are modelled as integers in thousandths of a percent. `Math.round` to two decimals becomes rounding to tens, half up, for both the CPU and the memory figure of each reported process.
- Ties under a sort are kept in storage order, as a stable sort does. The database's order among equal keys is not modelled.
- Registro contents are string-valued maps. Non-string JSON values and explicit nulls in posted activities are not modelled; a missing key is `None`.
- Validation.RegistrosVisibles: it does not model the `-fecha` ordering of the list.
- Text.Lower maps ASCII and Latin-1 upper-case letters only. The upper-casing in Utils.Capitalize maps ASCII and Latin-1 lower-case letters except 'ß', 'ÿ' and 'µ', whose upper case is two letters or lies outside Latin-1; those three are left as they are. Other Unicode case mappings are not modelled, and neither are UTF-16 surrogate pairs in JavaScript lengths.
- PorcentajeProductivo: rounds the exact share `100p/t` half up. The code rounds the double `(p / t) * 100`, whose error can push a half just below: at 23 productive samples of 40 the double is 57.49999999999999 and the dashboard shows 57, where the model gives 58.
- PorcentajeProductivoCorrecto: its bounds are about the exact share, so they do not admit the double's 57 at 23 of 40.
- Aggregation.UsernameLe: usernames are ordered by code point, not by the database's collation.
- Electron, IPC, DOM, notifications, the tray, window position, `saveLocalData`'s file write and its contents are out. A failed send is recorded only as a saved batch.
- Timers are modelled one firing at a time. `setInterval`, `clearInterval` and their periods are out: Monitor.Sesion.Tick, Assistant.SaraAsistenteVirtual.AdviceTick and MonitorTick model one firing.
- Sesion.Valid: holds only because each firing of the monitor's timer is taken as atomic. In the code, `sendActivityData` awaits the post while the five-second timer keeps firing. Samples pushed during that wait are cleared unsent when the post returns (sara-monitor/main.js:305). A firing that finds six or more samples while a post is in flight posts the same samples again (sara-monitor/main.js:191-192). Neither the loss nor the duplicate is modelled.
- Dashboard.Panel.UpdateMetrics: it requires a clock not earlier than the start, so it does not model a negative elapsed time.
- The random suggestion count (sara-monitor/renderer.js:241), random tips, `generateId`, `getRandomColor`, `debounce`, `throttle`, `getUrlParams`, `formatNumber` and `sanitizeHtml` are out.
- Utils.FormatTime: beyond a day the result is only tagged as a local date. `toLocaleDateString` itself is not modelled.
- Fixed reply texts of the chat are represented by their reply kinds, not their full wording.
- `core/ia_module.py` is not part of this model. Its import is optional and its prediction is never used.
- The automatic login from environment credentials and the reconnect loop of the clients are out: they are network and timer code.

## Findings

| source | as written | input that shows it | evidently intended | confidence | as-written member | corrected member |
|---|---|---|---|---|---|---|
| core/views.py:585 | `(now - last).seconds < 300` reads only the seconds part of the timedelta, ignoring whole days | a last sample exactly 24 hours old: `.seconds` is 0, so the employee shows as active | compare the total elapsed seconds with 300 | high, not executed | Aggregation.EstadoTalCualActivoTrasUnDia | Aggregation.EstadoEmpleado |
| core/views.py:1125 | `ventana_activa__icontains__in` is not a Django lookup; the query raises, the agent's handler swallows it, and coding and communication titles get no analysis and no score update | a sample titled "main.py - visual studio code" | count the samples whose title contains any of the listed words | high, not executed | Backend.TalCualCallaEnVSCode | Backend.AnalizarActividad |
| core/views.py:732 | `errores__isnull=False` matches every record, because `errores` defaults to an empty list, not null | a user whose only record has no errors is told errors were found | select records whose error list is non-empty | high, not executed | Chat.ErroresTalCualListaRegistroLimpio | Chat.RegistrosConErrores |
