# JM Vision: a verified model of the platform's rules

JM Vision is a learning platform. A Django backend keeps users, courses, enrolments, attention-monitoring sessions and AI-generated study recommendations. A Next.js frontend gives administrators, teachers and students their dashboards. This project models the platform's decision logic in Dafny and proves properties about it:

- **Backend.**
  - How the monitoring endpoints find the resource a request names.
  - Get-or-create of one monitoring session per (student, resource, phase).
  - The two modes of the monitoring endpoint.
  - The combined grade.
  - The user record and its uniqueness rules.
  - The username synthesised at sign-up.
  - Login by email.
  - The recommendation and history models.
  - The rule-based fallback that replaces a rejected AI reply.
- **Frontend.**
  - The student's course viewer: the flattened course, previous/next moves and the navigation gate.
  - The three admin pages: users, courses and enrolments.
  - The teacher's filtered and sorted course list.
  - The memoising name caches.
  - The route guard.
  - The login form's routing.

One Dafny module models each source file. A few shared modules support them:

| module | content |
|---|---|
| `Wrappers` | `Option` and `Result` |
| `Text` | ASCII lower-casing, whitespace stripping, decimal notation, substring search, lexicographic order |
| `PyValue` | decoded JSON bodies as Python values, with Python truthiness and the value-returning `or` |
| `FrontCommon` | the outcome of an awaited API call, the user rows the admin API lists, and the array operations the pages use (`filter`, `map`-replace, `findIndex`, `find`) |

**Pages with state.** Each page that holds React state is a class. Its fields are the state variables, and each handler is a method.

- An awaited request becomes a parameter, `resp`: what the server would answer, or the rejection with its message.
- A handler returns the request it sent, or `None` when it sent none.
- Its postcondition states every state variable afterwards.

**Backend tables.** Tables that the backend views update are sequence fields of a class, and a `Valid` predicate carries the table constraints.

**Two details of the code the model keeps:**

- **The combined grade** of the `nota_combinada` endpoint is `0.6 * nota + 0.4 * atencion` (sistema_educativo/atencion/views.py:317-319). It is not rounded, and it is `None` when either part is missing. The teacher's report page blends on its own, as `Math.round(0.4 * (att ?? 0) + 0.6 * (acad ?? 0))` (frontend/src/app/dashboard/docente/[cursoId]/reportes/page.tsx:42-44). That page is not part of this model.
- **The resource id.** The session endpoint accepts it under `recurso`, `recurso_id`, `recursoId` or `id` (sistema_educativo/atencion/views.py:52-57). The personal-session endpoint does not consult `recursoId` (sistema_educativo/atencion/views.py:231-235).

## Model

| member | source | states |
|---|---|---|
| AtencionViews.ResolveRecursoIdIsSpec | sistema_educativo/atencion/views.py:52-72 | The `or` chain over the body's keys yields the first truthy value. When that value is an object, the chain yields the first truthy of its `id`, `uuid`, `pk`. No id is found exactly when none of these is truthy. |
| AtencionViews.ParaMiIgnoresRecursoId | sistema_educativo/atencion/views.py:231-240 | The personal-session endpoint resolves the same resource whatever `recursoId` holds. |
| AtencionViews.EnrolledIn | sistema_educativo/atencion/views.py:90-92 | The enrolments of a course are exactly the rows whose course is that course. |
| AtencionViews.EnrolledInCounts | sistema_educativo/atencion/views.py:90-92 | Each enrolment of the course is listed as many times as the table holds it; no other row is listed. |
| AtencionViews.EnrolledInAppend | sistema_educativo/atencion/views.py:90-92 | The listed enrolments keep the table's order: filtering two stretches of the table and joining them is filtering the whole. |
| AtencionViews.GrowthMeansMissingKey | sistema_educativo/atencion/views.py:104-113 | If get-or-create over the enrolments added any row, some enrolment had no session beforehand. |
| AtencionViews.SessionRegistry.constructor | sistema_educativo/atencion/views.py:104-113 | An empty session table satisfies the key and id invariants. |
| AtencionViews.SessionRegistry.GetOrCreate | sistema_educativo/atencion/views.py:108-112 | Creates a row exactly when the key has none, appends it with start time `now`, and otherwise returns the existing row unchanged. The invariant keeps keys unique. |
| AtencionViews.SessionRegistry.GetOrCreateAll | sistema_educativo/atencion/views.py:104-113 | Returns one session per enrolment, in order, each with that enrolment's key. Every added row has a key that was missing and belongs to an enrolment. Nothing is added when all keys exist. |
| AtencionViews.SessionRegistry.CrearMultiples | sistema_educativo/atencion/views.py:37-122 | Returns 400 without a resource id and 404 for an unknown resource; neither changes the table. It returns 200 with no sessions for a course without enrolments. Otherwise it returns 201, with as many sessions as enrolments. |
| AtencionViews.SessionRegistry.CrearSesionParaMi | sistema_educativo/atencion/views.py:226-271 | Returns 400 or 404 as above. Otherwise it gets or creates the caller's session: 201 when it appended a new row, 200 when the row existed and the table is unchanged. |
| AtencionViews.SessionRegistry.MonitoreoAtencion | sistema_educativo/atencion/views.py:141-205 | Returns 404 for an unknown session. With `duracion`, only that session's start and end change, and it returns 500 when the value is not an integer. Otherwise it returns 400 without a frame and 422 without a face. On 200 exactly one sample of that session is appended. |
| AtencionViews.AverageBounds | sistema_educativo/atencion/views.py:311-315 | The average of the scores is null exactly for no scores, and lies within any bounds of the scores. |
| AtencionViews.ScoresOf | sistema_educativo/atencion/views.py:311-315 | The scores averaged are exactly the non-null scores of the pair's sessions; a single session contributes one score when it belongs to the pair and has one, else none. |
| AtencionViews.ScoresOfAppend | sistema_educativo/atencion/views.py:311-315 | One score per matching session, in table order: the scores of two stretches of the table, joined, are the scores of the whole. |
| AtencionViews.FirstNota | sistema_educativo/atencion/views.py:306-309 | The grade is null exactly when the pair has no academic grade; otherwise it is one of the pair's grades. |
| AtencionViews.NotaCombinada | sistema_educativo/atencion/views.py:317-319 | Present exactly when both parts are. The gap to the attention score is 0.6 times the gap between grade and score. |
| AtencionViews.NotaCombinadaBetween | sistema_educativo/atencion/views.py:319 | The combined grade lies between the academic grade and the attention score. |
| AtencionViews.SessionRegistry.ObtenerNotaCombinada | sistema_educativo/atencion/views.py:276-330 | Returns 400 exactly when a parameter is missing and 404 for an unknown student or resource. On 200 it gives the first grade, the average score and their blend, and the blend is null unless both are present. |
| AtencionViews.CombinedGradeInRange | sistema_educativo/atencion/views.py:317-319 | With grades and scores in [0, 100], the combined grade is in [0, 100]. |
| AtencionViews.CrearMultiplesTwice | sistema_educativo/atencion/views.py:104-122 | A second identical request returns the same status and the same sessions. |
| UsuariosModels.Display | sistema_educativo/usuarios/models.py:44-48 | "first last (username)" when a name part is set, else the username. |
| UsuariosModels.Clean | sistema_educativo/usuarios/models.py:50-53 | Validation fails exactly when the email is empty. |
| UsuariosModels.Save | sistema_educativo/usuarios/models.py:19-23 | An insert succeeds exactly when neither the email nor the username is taken, and then appends the row. |
| UsuariosModels.SaveKeepsUnique | sistema_educativo/usuarios/models.py:19-23 | A successful insert keeps emails and usernames unique. |
| UsuariosModels.EmailIdentifiesUser | sistema_educativo/usuarios/models.py:19-23 | At most one user has a given email. |
| UsuariosSerializers.NameSlugShape | sistema_educativo/usuarios/serializers.py:35-36 | A name part of the username is no longer than the name and has no spaces or upper-case letters. |
| UsuariosSerializers.CandidateInjective | sistema_educativo/usuarios/serializers.py:39-44 | Distinct counters give distinct candidate usernames. |
| UsuariosSerializers.CandidatesBelow | sistema_educativo/usuarios/serializers.py:39-44 | The set of the first n candidates holds exactly the candidates numbered below n. |
| UsuariosSerializers.CandidatesBelowCount | sistema_educativo/usuarios/serializers.py:39-44 | There are exactly n such candidates, which bounds the loop. |
| UsuariosSerializers.ForcedRol | sistema_educativo/usuarios/serializers.py:32-34 | An anonymous request gets the role `estudiante`. Otherwise the role is exactly the one sent, and absent when none is sent. |
| UsuariosSerializers.TokenClaims | sistema_educativo/usuarios/serializers.py:8-11 | The token gets a `rol` claim equal to the user's role, and keeps its other claims. |
| UsuariosSerializers.IndexOfEmail | sistema_educativo/usuarios/serializers.py:17-21 | Finds a user with the email exactly when one exists. |
| UsuariosSerializers.UsuarioTable.constructor | sistema_educativo/usuarios/serializers.py:31-52 | An empty user table is valid. |
| UsuariosSerializers.UsuarioTable.UniqueUsername | sistema_educativo/usuarios/serializers.py:39-45 | Returns the first of base, base1, base2, ... that no user holds. |
| UsuariosSerializers.UsuarioTable.Insert | sistema_educativo/usuarios/serializers.py:49-51 | `save()` succeeds exactly when the model's constraints allow it, and keeps the table valid. |
| UsuariosSerializers.UsuarioTable.Create | sistema_educativo/usuarios/serializers.py:31-52 | Succeeds exactly when a password is given and the email is free. A new user has the forced role, or `estudiante` by default, and the first free username. The password is stored only as its hash. The user is active unless the request sets `is_active`. A failure changes nothing. |
| UsuariosSerializers.UsuarioTable.LoginAttributes | sistema_educativo/usuarios/serializers.py:13-22 | A username that is some user's email is replaced by that user's username; anything else passes unchanged. |
| UsuariosSerializers.LoginUsesOwnerOfEmail | sistema_educativo/usuarios/serializers.py:17-19 | The username substituted at login is that of the only user owning the email. |
| RecomendacionesModels.ParseRecomendacion | sistema_educativo/recomendaciones/models.py:26-30 | Only the three declared states are read back, each from its own code. |
| RecomendacionesModels.ParseHistorial | sistema_educativo/recomendaciones/models.py:95-99 | Only the three declared states are read back, each from its own code. |
| RecomendacionesModels.ChoicesRoundTrip | sistema_educativo/recomendaciones/models.py:26-30 | Every state reads back from its stored code. |
| RecomendacionesModels.NuevoHistorial | sistema_educativo/recomendaciones/models.py:95-99 | A new history row starts in state `Observacion`. |
| RecomendacionesModels.Clean | sistema_educativo/recomendaciones/models.py:106-111 | Validation passes exactly when both scores are absent or in [0, 100]. An out-of-range attention score reports the attention error. The grade error is reported only when the attention score is in range. |
| RecomendacionesModels.Insert | sistema_educativo/recomendaciones/models.py:116 | A history row is refused exactly when the (student, phase) pair already has one. |
| RecomendacionesModels.InsertKeepsUnique | sistema_educativo/recomendaciones/models.py:116 | Accepted inserts keep (student, phase) unique. |
| RecomendacionesModels.NuevaRecomendacion | sistema_educativo/recomendaciones/models.py:26-31 | A new recommendation is pending and not approved. |
| ClaudeApi.OrDefault | sistema_educativo/recomendaciones/claude_api.py:96-98 | A missing, null or zero entry takes the default. |
| ClaudeApi.ZeroThresholdIsSeventy | sistema_educativo/recomendaciones/claude_api.py:98 | A threshold of 0 counts as the default 70. |
| ClaudeApi.FallbackShape | sistema_educativo/recomendaciones/claude_api.py:95-125 | One or two actions, all on the context's resource. The technique comes first exactly when attention is below 50. Two actions exactly when both measures are low. The content action appears exactly when the grade is below the threshold; otherwise the single "continue" action. The praise message appears exactly when neither measure is low. |
| ClaudeApi.Fallback | sistema_educativo/recomendaciones/claude_api.py:95-125 | Building the list by appends and keeping its first two entries gives the reference suggestion. |
| ClaudeApi.Head | sistema_educativo/recomendaciones/claude_api.py:125 | `xs[:n]` keeps the first min(n, len) entries. |
| ClaudeApi.SugerenciaValue | sistema_educativo/recomendaciones/claude_api.py:125 | The returned dictionary has exactly `acciones` and `mensaje`. `mensaje` is the suggestion's message, and entry i of `acciones` encodes action i. |
| ClaudeApi.GenerarSugerencia | sistema_educativo/recomendaciones/claude_api.py:82-93 | Always returns a well-shaped suggestion. The model's reply is returned exactly when there was no error, the text was non-empty, it parsed and it is well shaped. Otherwise the fallback is returned. |
| PyValue.FirstTruthy | sistema_educativo/atencion/views.py:52-57 | A truthy member that no truthy member precedes, or none exactly when all are falsy. |
| PyValue.OrChainIsFirstTruthy | sistema_educativo/atencion/views.py:52-57 | Python's `a or b or ...` is the first truthy operand, and falsy when there is none. |
| CursoEstudiante.FlatEntries | frontend/src/app/dashboard/estudiante/cursoId/page.tsx:92-103 | The flat list holds exactly one selection per resource of the tree. |
| CursoEstudiante.CursoPage.GetFlatRecursos | frontend/src/app/dashboard/estudiante/cursoId/page.tsx:92-103 | The nested loops produce the flattened tree in level, lesson and resource order; no course gives an empty list. |
| CursoEstudiante.Resolve | frontend/src/app/dashboard/estudiante/cursoId/page.tsx:74-88 | A resolved resource lies in the selected lesson of the selected level and has the selected id. Its breadcrumb names that level, lesson and resource. Nothing resolves without a course or a selection. |
| CursoEstudiante.FlatEntriesResolve | frontend/src/app/dashboard/estudiante/cursoId/page.tsx:74-103 | With distinct level and lesson ids, every flat entry resolves to a resource. |
| CursoEstudiante.CurrentIndex | frontend/src/app/dashboard/estudiante/cursoId/page.tsx:106-111 | The first position of the selection, or -1 exactly when there is no selection or it is not in the list. |
| CursoEstudiante.CursoPage.SincronizarSeleccion | frontend/src/app/dashboard/estudiante/cursoId/page.tsx:74-88 | The shown resource and breadcrumb are the resolved ones, or both cleared. |
| CursoEstudiante.CursoPage.Anterior | frontend/src/app/dashboard/estudiante/cursoId/page.tsx:121-125 | Moves to the previous flat entry only when one exists and navigation is allowed. |
| CursoEstudiante.CursoPage.Siguiente | frontend/src/app/dashboard/estudiante/cursoId/page.tsx:127-131 | Moves to the next flat entry only when one exists and navigation is allowed. |
| CursoEstudiante.CursoPage.SeleccionarRecurso | frontend/src/app/dashboard/estudiante/cursoId/page.tsx:134-136 | The selection becomes the clicked triple, and nothing else changes. |
| CursoEstudiante.CursoPage.EmpezarRecurso | frontend/src/app/dashboard/estudiante/cursoId/page.tsx:139-142 | The shown resource is the given one marked as started. |
| CursoEstudiante.EmpezarBloqueaCalificado | frontend/src/app/dashboard/estudiante/cursoId/page.tsx:114-142 | Starting a resource blocks navigation exactly when it is graded and not completed. |
| CursoEstudiante.MovesLandOnResources | frontend/src/app/dashboard/estudiante/cursoId/page.tsx:121-131 | Every entry a move can select resolves to a resource. |
| AdminUsuarios.ConCampo | frontend/src/app/dashboard/admin/usuarios/page.tsx:61-76 | The input named after a field sets that field only; other names leave the form as it is. |
| AdminUsuarios.CreatePayload | frontend/src/app/dashboard/admin/usuarios/page.tsx:96-103 | The create body has exactly the six form keys; each carries its form field, the role lower-cased. |
| AdminUsuarios.EditPayload | frontend/src/app/dashboard/admin/usuarios/page.tsx:184-191 | The edit body carries the id and the five other form fields, the role lower-cased, and `password` exactly when it is non-empty. |
| AdminUsuarios.Normalizar | frontend/src/app/dashboard/admin/usuarios/page.tsx:153-167 | The edit form's fallbacks: name from `first_name` or `nombre`; role lower-cased or `docente`; state from `estado`, else from `is_active`; password empty. |
| AdminUsuarios.NormalizedRolIsLower | frontend/src/app/dashboard/admin/usuarios/page.tsx:160 | A normalised role is already lower-case. |
| AdminUsuarios.EdicionSinCambios | frontend/src/app/dashboard/admin/usuarios/page.tsx:153-191 | Saving an unchanged edit sends no password, and the role as shown. |
| AdminUsuarios.UsuariosPage.constructor | frontend/src/app/dashboard/admin/usuarios/page.tsx:29-36 | The create form starts empty with role `docente` and state `Activo`. |
| AdminUsuarios.UsuariosPage.CambiarCampo | frontend/src/app/dashboard/admin/usuarios/page.tsx:61-65 | Typing updates the create form's named field. |
| AdminUsuarios.UsuariosPage.CambiarCampoEdicion | frontend/src/app/dashboard/admin/usuarios/page.tsx:67-76 | Typing updates the edit form's named field, only while a user is being edited. |
| AdminUsuarios.UsuariosPage.CrearUsuario | frontend/src/app/dashboard/admin/usuarios/page.tsx:78-129 | A missing field gives "Todos los campos son obligatorios". No token means no request and no change. On success the user is appended, the form is reset and the modal is closed. A failure shows the server's message or the default. |
| AdminUsuarios.UsuariosPage.EliminarUsuario | frontend/src/app/dashboard/admin/usuarios/page.tsx:131-151 | Only after confirmation, with a token and on success, the users with that id are filtered out. |
| AdminUsuarios.UsuariosPage.EditarUsuario | frontend/src/app/dashboard/admin/usuarios/page.tsx:153-171 | Opens the edit form on the normalised user. |
| AdminUsuarios.UsuariosPage.GuardarEdicionUsuario | frontend/src/app/dashboard/admin/usuarios/page.tsx:173-217 | Requires a name and an email. On success the user with the returned id is replaced and the form is closed. A failure shows the message. |
| AdminUsuarios.UsuariosPage.LimpiarMensaje | frontend/src/app/dashboard/admin/usuarios/page.tsx:121-124 | The timer clears the message and nothing else. |
| AdminUsuarios.EliminarQuitaSoloEseId | frontend/src/app/dashboard/admin/usuarios/page.tsx:139 | After deletion no user has the id, every other user is kept, and the filter distributes over concatenation. |
| AdminUsuarios.EditarConservaIds | frontend/src/app/dashboard/admin/usuarios/page.tsx:199-201 | Replacing by id keeps the length and the id at every position. |
| AdminCursos.ToNumber | frontend/src/app/dashboard/admin/cursos/page.tsx:76-78 | `Number` of blank text is 0. |
| AdminCursos.ToNumberRoundTrip | frontend/src/app/dashboard/admin/cursos/page.tsx:76-78 | The decimal text of a whole number reads back as that number. |
| AdminCursos.ToNumberSigned | frontend/src/app/dashboard/admin/cursos/page.tsx:76-78 | A leading `-` negates the value of the unsigned decimal after it, a leading `+` keeps it, and NaN stays NaN. |
| AdminCursos.ToNumberNegative | frontend/src/app/dashboard/admin/cursos/page.tsx:76-78 | The text `-n` reads as the negative number -n. |
| AdminCursos.UnsignedFraction | frontend/src/app/dashboard/admin/cursos/page.tsx:76-78 | Digits, a point and digits read as the whole part plus the fraction divided by ten to the power of its length; either part may be empty, not both. |
| AdminCursos.ToNumberFraction | frontend/src/app/dashboard/admin/cursos/page.tsx:76-78 | The text `w.f` reads as w plus f scaled by its number of digits. |
| AdminCursos.DocentesExactos | frontend/src/app/dashboard/admin/cursos/page.tsx:36-40 | The teachers offered are exactly the users with role `docente` (any case) that are active by `estado` or `is_active`, each as often as listed. |
| AdminCursos.DocentePorDefectoEsDocente | frontend/src/app/dashboard/admin/cursos/page.tsx:63-68 | The teacher picked by default is an active teacher. |
| AdminCursos.ConCampo | frontend/src/app/dashboard/admin/cursos/page.tsx:70-94 | The named field takes the value; `umbral_nota` takes it through `Number`. |
| AdminCursos.CursosPage.constructor | frontend/src/app/dashboard/admin/cursos/page.tsx:20-25 | The form starts empty with threshold 70. |
| AdminCursos.CursosPage.DocentePorDefecto | frontend/src/app/dashboard/admin/cursos/page.tsx:63-68 | When the modal is open, there are teachers and none is chosen, the first teacher's id is chosen. |
| AdminCursos.CursosPage.CambiarCampo | frontend/src/app/dashboard/admin/cursos/page.tsx:70-80 | Typing updates the create form's named field. |
| AdminCursos.CursosPage.CambiarCampoEdicion | frontend/src/app/dashboard/admin/cursos/page.tsx:82-94 | Typing updates the edited course, only while one is being edited. |
| AdminCursos.CursosPage.CrearCurso | frontend/src/app/dashboard/admin/cursos/page.tsx:96-129 | Requires a name and a teacher; without a token it shows "No estás autenticado". On success it appends the course, resets the form to threshold 70 and closes the modal. A failure shows the message. |
| AdminCursos.CursosPage.EliminarCurso | frontend/src/app/dashboard/admin/cursos/page.tsx:131-153 | After confirmation: no token gives the error. On success the courses with the id are filtered out. |
| AdminCursos.CursosPage.EditarCurso | frontend/src/app/dashboard/admin/cursos/page.tsx:155-158 | Opens the edit form on the course. |
| AdminCursos.CursosPage.GuardarEdicionCurso | frontend/src/app/dashboard/admin/cursos/page.tsx:160-194 | Requires an edited course with a name and a teacher, and a token. On success the course with the returned id is replaced and the form is closed. |
| AdminCursos.EliminarCursoConservaLosDemas | frontend/src/app/dashboard/admin/cursos/page.tsx:138 | Deleting keeps every other course as often as listed, and none with that id. |
| AdminInscripciones.EstudiantesExactos | frontend/src/app/dashboard/admin/inscripciones/page.tsx:38-43 | The students offered are exactly the users whose role, lower-cased and trimmed, is `estudiante`. A user without a role is never offered. |
| AdminInscripciones.Authorization | frontend/src/app/dashboard/admin/inscripciones/page.tsx:94-96 | The header is `Bearer ` followed by the token, or by `null` when there is none. |
| AdminInscripciones.InscripcionesPage.constructor | frontend/src/app/dashboard/admin/inscripciones/page.tsx:14-23 | Everything starts empty. |
| AdminInscripciones.InscripcionesPage.CargarUsuarios | frontend/src/app/dashboard/admin/inscripciones/page.tsx:35-45 | The listed users are kept, and the students among them are offered. |
| AdminInscripciones.InscripcionesPage.Inscribir | frontend/src/app/dashboard/admin/inscripciones/page.tsx:55-78 | Without both selections it shows "Por favor selecciona estudiante y curso". On success both selections are cleared. A failure shows the message or the default. |
| AdminInscripciones.InscripcionesPage.CsvUpload | frontend/src/app/dashboard/admin/inscripciones/page.tsx:80-104 | No file means no request. Otherwise the rows returned are shown, or the single error row. |
| DocenteCursos.Alternar | frontend/src/app/dashboard/docente/page.tsx:52 | The toggle always changes the order. |
| DocenteCursos.AlternarDosVeces | frontend/src/app/dashboard/docente/page.tsx:52 | Toggling twice restores the order. |
| DocenteCursos.InsertarOrdenado | frontend/src/app/dashboard/docente/page.tsx:25-29 | Inserting into a sorted list keeps it sorted and adds exactly that course. |
| DocenteCursos.OrdenarCorrecto | frontend/src/app/dashboard/docente/page.tsx:25-29 | The sort orders by name in the chosen direction and is a permutation. |
| DocenteCursos.CursosFiltradosCorrecto | frontend/src/app/dashboard/docente/page.tsx:21-29 | The list shows exactly the courses whose lower-cased name contains the lower-cased search, each as often as listed, sorted in the chosen direction. |
| DocenteCursos.BusquedaVaciaMuestraTodo | frontend/src/app/dashboard/docente/page.tsx:21-24 | An empty search shows every course. |
| Labels.NombreUsuario | frontend/src/services/labels.ts:14-15 | The name is the trimmed "first last" when not blank, else the username, else the email, else the id. A null body gives the id, and a non-empty id never gives an empty name. |
| Labels.NombreSinEspaciosExternos | frontend/src/services/labels.ts:15 | A name built from first and last names has no surrounding whitespace. |
| Labels.NombreLeccion | frontend/src/services/labels.ts:26 | The lesson's `nombre`, else the id; never empty for a non-empty id. |
| Labels.LabelCaches.constructor | frontend/src/services/labels.ts:5-6 | Both caches start empty. |
| Labels.LabelCaches.GetUsuarioNombre | frontend/src/services/labels.ts:8-18 | An empty id returns "" with no request. A cached id returns the cached name with no request. A miss requests and caches exactly that id's name. A rejected request changes nothing. Cached keys and names stay non-empty. |
| Labels.LabelCaches.GetLeccionNombre | frontend/src/services/labels.ts:20-29 | The same for lesson names. |
| Labels.UsuarioDosVeces | frontend/src/services/labels.ts:10 | After a successful first call, a second call for the same id answers from the cache, with no second request. |
| ProtectedRoute.RolMinusculas | frontend/src/components/ProtectedRoute.tsx:17 | The lowered role exists exactly when the role does. |
| ProtectedRoute.Redireccion | frontend/src/components/ProtectedRoute.tsx:14-22 | No user goes to "/". There is no redirect exactly when the lowered role is admitted. Otherwise the user goes to `/dashboard/<lowered role>`. |
| ProtectedRoute.RedireccionEstable | frontend/src/components/ProtectedRoute.tsx:17-20 | A redirected user lands on their own role's dashboard, and a guard there that admits that role lets them stay. |
| ProtectedRoute.RedireccionIgnoraMayusculas | frontend/src/components/ProtectedRoute.tsx:17 | Roles that differ only in case are treated alike. |
| LoginPage.RutaPara | frontend/src/app/page.tsx:24-30 | The route is one of the four dashboards. A role dashboard is always the user's own lowered role, and the plain `/dashboard` is chosen only for a user without a role that has a panel. |
| LoginPage.LoginForm.constructor | frontend/src/app/page.tsx:12 | The error starts empty and no route is chosen. |
| LoginPage.LoginForm.HandleSubmit | frontend/src/app/page.tsx:15-34 | The error is cleared first. A failed login shows "Usuario o contraseña incorrectos." and stores nothing. Otherwise the token is stored before the lookup. A failed lookup shows the same error. A successful lookup routes by role. |
| LoginPage.LoginYGuardaConcuerdan | frontend/src/app/page.tsx:24-30 | A user routed to a role dashboard at login is admitted by a guard that admits that role. `/dashboard` is chosen exactly for other roles. |
| Text.Strip | frontend/src/services/labels.ts:15 | Stripping removes only whitespace on both ends and leaves no whitespace at either end. |
| Text.DecimalRoundTrip | sistema_educativo/usuarios/serializers.py:43 | The decimal text of a number reads back as that number. |
| FrontCommon.FilterCounts | frontend/src/app/dashboard/admin/usuarios/page.tsx:139 | A filter keeps each passing entry as often as it occurs and drops the others. |
| FrontCommon.IndexWhere | frontend/src/app/dashboard/estudiante/cursoId/page.tsx:106-111 | `findIndex` gives the first matching position, or -1 exactly when none matches. |

## Left out

- **HTTP and the ORM.** HTTP transport, authentication middleware, serializers' field validation and the ORM's SQL are left out. The API's answers are parameters, and the tables are sequences.
- **Identifiers.** New sessions get the next natural number where the database draws a UUID.
- AtencionViews.LookupRecurso: a resource id counts only when it is a string equal to a stored key, and anything else answers 404. The source looks the id up as a UUID primary key and catches only `DoesNotExist`. So an upper-case, dash-less or braced spelling of a stored UUID, or an integer (`UUID(int=n)`), would resolve there. A malformed string, a float or a dict would raise `ValidationError` or `TypeError` and answer 500. The same holds for `CrearMultiples`, `CrearSesionParaMi` and `ObtenerNotaCombinada`.
- **Frame processing.** Frame decoding, MediaPipe processing and the attention model are left out. Their outcome for one frame (no face, or an attention level) is a parameter.
- **Stored samples.** A stored sample keeps its session, student, resource, phase, attention level and time. The raw metrics (ear, mar, yaw, pitch, roll) and the model's score are not modelled.
- **The code as shipped does not run.** sistema_educativo/atencion/views.py:9-14 imports `NotaAcademica` and `NotaAcademicaSerializer`, which the `atencion` models and serializers do not define. The URL configuration imports these views, so the API cannot start. `ObtenerNotaCombinada` takes the grades table as given.
- AtencionViews.SessionRegistry.MonitoreoAtencion: the 200 frame path models the evident intent, not the code as written. The frame branch's `AtencionVisual.objects.create` (sistema_educativo/atencion/views.py:182-195) passes `ear`, `mar`, `yaw`, `pitch`, `roll`, `nivel_atencion` and `timestamp`, which are not model fields. It leaves out the required `patrones`, and it can write `score=None` into a non-null column. All of these fail at run time.
- AtencionViews.SessionRegistry.MonitoreoAtencion: `timezone.now() + timedelta(seconds=int(duracion))` overflows for a very large `|duracion|`, and the source then answers 500. The model's unbounded time arithmetic answers 200.
- AtencionViews.SessionRegistry.Valid: it requires the (student, resource, phase) keys to be unique. The table has no such constraint (sistema_educativo/atencion/models.py:6-15). The CRUD `create` of the registered viewset, or two concurrent `get_or_create` calls, could insert a duplicate. After that, `get_or_create` raises `MultipleObjectsReturned` and answers 500. The model has no other writer, so `GetOrCreateAll` and `CrearMultiplesTwice` hold only under this invariant.
- **The clock.** `timezone.now()` is one parameter `now` per request. The two calls in `monitoreo_atencion` are taken to read the same instant.
- **`int(duracion)`.** This covers integers, booleans, reals and digit-only strings. Signs, surrounding spaces and underscores in strings are not modelled; they make the model answer 500 where Python may accept.
- **Integer width, `Avg` and blending.** They use exact arithmetic (unbounded integers, exact reals), not 64-bit floats.
- **The prompt.** The call to the AI service, building the prompt and `json.loads` are left out. Their outcomes are the parameters of `GenerarSugerencia`.
- **`float(x or d)`.** It raises on a non-numeric context entry. The model takes context entries as absent or numeric.
- **Case and whitespace.** `lower()` and `toLowerCase()` are modelled on ASCII letters only. `strip()` and `trim()` are modelled as removing the whitespace both of them remove: space, tab, line feed, vertical tab, form feed and carriage return. Python's `strip()` also removes the separators `\x1c`-`\x1f` and non-ASCII spaces, and JavaScript's `trim()` removes non-ASCII spaces; neither is modelled.
- **`localeCompare`.** It is modelled as lexicographic order on character codes, which is a concrete total order. Locale collation rules are not modelled.
- **AdminCursos.ToNumber.** It covers blank text, an optional sign and decimal digits with an optional fraction. Exponents, hexadecimal, `Infinity` and non-ASCII whitespace are not modelled.
- **Unknown input names.** The forms' `[e.target.name]: value` with a name that is not a form field would add a new key. The model leaves the form unchanged instead, because the pages' inputs all carry field names.
- **Overlapping requests.** Each page handler is modelled as one atomic step. In the source, a handler computes the new list after an `await` from the list it saw at render time. This happens in frontend/src/app/dashboard/admin/usuarios/page.tsx:139 and in frontend/src/app/dashboard/admin/cursos/page.tsx:111, 141 and 179-181. So two overlapping deletes can bring back the row the first one removed. Likewise, two concurrent misses in frontend/src/services/labels.ts:8-17 both fetch, so `Labels.UsuarioDosVeces` holds only for calls made one after the other.
- UsuariosSerializers.UsuarioTable.Create: the serializer takes every model field from the request (`fields = '__all__'`, then `Usuario(**validated_data)`). So `is_staff`, `is_superuser` and the other `AbstractUser` fields a caller sends are stored, and an authenticated caller can create a superuser. The model keeps only `is_active` of these.
- **Timers and loading.** The message-clearing timers are modelled only on the users page (`LimpiarMensaje`). The same one-line callbacks on the other pages are not repeated. Loading flags, modal visibility toggles done by buttons, and the initial data-loading effects are not modelled. The exception is the enrolment page's student filter (`CargarUsuarios`).
- **ProtectedRoute rendering.** The guard returns its children whatever it decides. Rendering is not modelled; only the redirect decision is.
- **Untyped values.** JavaScript's `any` rows are typed datatypes whose absent fields are `None`. A `null` `estado` on a listed user is treated like an absent one.
- **Other source files.** The resource viewer, the sidebars, the teacher's course-tree editors and the remaining pages are not part of this model.
