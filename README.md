# CherryCore core, modelled in Dafny

CherryCore is a small PHP MVC framework. This project models the parts of it
that make decisions:

- **BakeORM.**
  - The `QueryBuilder` turns an argument bag into INSERT, SELECT, UPDATE and DELETE text.
  - The `DataMapper` prepares one statement and binds field values to named placeholders, with a PDO parameter type.
  - `DataMapperEnvConfig` looks up database credentials by driver.
  - `Crud` drives the builder and the mapper and turns row counts into answers.
  - `DataRepository` offers finders over a `Crud`.
- **Routing.**
  - The `Router` keeps a table from URL patterns to parameter arrays. It matches a URL against the table in order and turns route parameters into class and method names.
  - `RouterManager` builds that table from the parsed route list and dispatches one URL.
- **Sessions.**
  - `NativeSessionStorage` keeps the session variables.
  - `Session` checks every key against its key pattern before touching storage.
  - `Flash` keeps one-shot messages in the session.
  - `GlobalManager` keeps named process-wide values.

PHP arrays are ordered maps in the model (`OrderedMap`): overwriting a key keeps
its position. Integer keys are their canonical decimal strings. `$a[] = v` uses
the next free integer key (`PhpValues.Append`). The application installs an
error handler that turns every warning and deprecation into an exception, so
the model treats each PHP warning as an error outcome (`Outcomes.ErrorKind`). An
undefined key is one such warning; an array converted to a string is another.
`Router.php`, `RouterManager.php` and `Session.php` declare strict types, so an
argument of the wrong type (an integer route key, a non-string controller) is a
`TypeError`.

Modules follow the source files:

- `outcomes`, `ordered_map`, `php_strings` and `php_values` give the PHP semantics the others share.
- one module per core class, with the class's state as the fields of a Dafny `class`.

Where the code and its documentation disagree, the model follows the code:

- An empty `conditions` array adds no WHERE clause. Only absent, null, false or `''` conditions reach ` WHERE 1`, and that replaces the statement built so far.
- `bind` never chooses `PDO::PARAM_NULL`.
- The coded no-statement fallbacks of `DataMapper` (`false`, `0`, an empty object, `[]`) cannot be reached. `$stmt` is a typed property with no default, so reading it before `prepare` is an error.
- `getDBCredentials` with a driver missing from the credentials raises the undefined-key warning, not the unsupported-driver exception. Once the check passes, the scan's starting `[]` is never what it returns: the value comes from an entry at or after the driver's own. That entry's value can itself be `[]`.
- `Crud::read` always fails. The template's `order_by` is `[]`, which passes `!= ''` and is then interpolated into the statement text.
- `findByIdAndUpdate` with a numeric key column gets that column renumbered to key `0` by `array_merge`.
- The data mapper factory passes `[]` as the credentials, so its lookup always fails.
- `getNamespace` ignores its argument. The class name `dispatch` looks up is therefore `App\Controllers\` plus the route's namespace, never the controller.
- `SessionManager::init` names its session `''`, which the key pattern rejects, so it never obtains a session.
- `Flash::get` always throws (see "## Findings").

## Model

| member | source | states |
|---|---|---|
| QueryBuilder.QueryBuilder.constructor | src/Cherry/BakeORM/QueryBuilder/QueryBuilder.php:29-36 | no argument bag yet; the stored statement is `''` |
| QueryBuilder.QueryBuilder.BuildQuery | src/Cherry/BakeORM/QueryBuilder/QueryBuilder.php:73-82 | never fails; stores `array_merge(SQL_DEFAULT, $args)` and returns the same builder |
| QueryBuilder.MergedIsArrayMerge | src/Cherry/BakeORM/QueryBuilder/QueryBuilder.php:79-80 | the stored bag is PHP's `array_merge` of the template and the arguments |
| QueryBuilder.TemplateDistinct | src/Cherry/BakeORM/QueryBuilder/QueryBuilder.php:43-58 | the template names each key once and has no integer key |
| QueryBuilder.TemplateReads | src/Cherry/BakeORM/QueryBuilder/QueryBuilder.php:43-58 | what the generators read from the bare template: empty arrays for conditions, selectors, order_by and fields, `''` for table and key, no limit or offset |
| QueryBuilder.MergedLookup | src/Cherry/BakeORM/QueryBuilder/QueryBuilder.php:79-80 | a string-keyed entry of the merged bag is the caller's when given, else the template's |
| QueryBuilder.MergedReads | src/Cherry/BakeORM/QueryBuilder/QueryBuilder.php:79-80 | every argument a generator reads is the caller's value when supplied, otherwise the template default |
| QueryBuilder.IsQueryTypeValid | src/Cherry/BakeORM/QueryBuilder/QueryBuilder.php:90-95 | true exactly for the five query type names `insert`, `select`, `update`, `delete` and `raw` |
| QueryBuilder.TypeNeverRead | src/Cherry/BakeORM/QueryBuilder/QueryBuilder.php:90-95 | the `type` argument changes nothing any generator reads, so `insertQuery` emits INSERT even after type `select` |
| QueryBuilder.ImplodeValues | src/Cherry/BakeORM/QueryBuilder/QueryBuilder.php:113-114 | `implode` fails exactly when some element is an array, with the array-to-string warning |
| QueryBuilder.QueryBuilder.InsertQuery | src/Cherry/BakeORM/QueryBuilder/QueryBuilder.php:102-121 | the INSERT text of the bag; the stored statement changes only when that text is non-empty; before `buildQuery` it fails on the uninitialised bag |
| QueryBuilder.InsertStatement | src/Cherry/BakeORM/QueryBuilder/QueryBuilder.php:107-117 | non-empty fields give `INSERT INTO t (k1, ..., kn) VALUES (:k1, ..., :kn)`: one column and one placeholder per field key, in order |
| QueryBuilder.InsertNeedsFields | src/Cherry/BakeORM/QueryBuilder/QueryBuilder.php:107-120 | fields that are not a non-empty array give `''` |
| QueryBuilder.QueryBuilder.SelectQuery | src/Cherry/BakeORM/QueryBuilder/QueryBuilder.php:128-138 | the SELECT head followed by the condition suffix, which is also what is stored; on failure the stored statement is unchanged when the head fails, and otherwise it is the head after the WHERE step, plus `ORDER BY` unless that step is what failed |
| QueryBuilder.SelectArrayOrderByFails | src/Cherry/BakeORM/QueryBuilder/QueryBuilder.php:229-234 | an array `order_by` always makes SELECT fail |
| QueryBuilder.SelectWithDefaultOrderByFails | src/Cherry/BakeORM/QueryBuilder/QueryBuilder.php:52 | a caller that gives no `order_by`, or an array one, never gets a SELECT statement |
| QueryBuilder.QueryBuilder.HasConditions | src/Cherry/BakeORM/QueryBuilder/QueryBuilder.php:205-243 | the WHERE step, then `ORDER BY`, then `LIMIT :limit OFFSET :offset` when a limit is set and the offset is not -1; the result is stored; on failure the steps already applied stay stored |
| QueryBuilder.ArrayOrderByLeavesWhere | src/Cherry/BakeORM/QueryBuilder/QueryBuilder.php:128-134 | with an array `order_by` and a valid head, SELECT fails with the array-to-string warning and leaves the head plus the WHERE step stored |
| QueryBuilder.QueryBuilder.ApplyWhere | src/Cherry/BakeORM/QueryBuilder/QueryBuilder.php:207-227 | the stored statement after the WHERE step |
| QueryBuilder.ConditionClauses | src/Cherry/BakeORM/QueryBuilder/QueryBuilder.php:212-220 | the loop collects one `k = :k` term per condition key other than `''`, in key order |
| QueryBuilder.ConditionTermsOnePerKey | src/Cherry/BakeORM/QueryBuilder/QueryBuilder.php:213-219 | with no empty key there is exactly one term per key, the i-th being `k_i = :k_i` |
| QueryBuilder.WhereStep | src/Cherry/BakeORM/QueryBuilder/QueryBuilder.php:207-227 | absent, null, false or `''` conditions replace the statement by ` WHERE 1`; any other value keeps the statement as a prefix; an empty array adds nothing |
| QueryBuilder.QueryBuilder.UpdateQuery | src/Cherry/BakeORM/QueryBuilder/QueryBuilder.php:145-172 | the UPDATE text; the key column is unset from the bag exactly on the `'0'` branch; the statement is stored when non-empty |
| QueryBuilder.CollectAssignments | src/Cherry/BakeORM/QueryBuilder/QueryBuilder.php:152-156 | the value loop keeps the assignment of the last value not identical to the key, or none |
| QueryBuilder.UpdateValuesErrorSticks | src/Cherry/BakeORM/QueryBuilder/QueryBuilder.php:152-156 | once a value cannot be interpolated, the loop's outcome is that failure |
| QueryBuilder.LastNonKey | src/Cherry/BakeORM/QueryBuilder/QueryBuilder.php:153 | the index of the last value not identical to the key: every later value is the key |
| QueryBuilder.UpdateValuesKeepsLast | src/Cherry/BakeORM/QueryBuilder/QueryBuilder.php:152-156 | a successful loop holds exactly `v = :v, ` for that last value |
| QueryBuilder.UpdateSetsLastValueOnly | src/Cherry/BakeORM/QueryBuilder/QueryBuilder.php:157-166 | a successful UPDATE sets one column, the last value not identical to the key; it ends `WHERE pk = :pk LIMIT 1` unless the key is `'0'` |
| QueryBuilder.UpdateOnlyKeyValuesFails | src/Cherry/BakeORM/QueryBuilder/QueryBuilder.php:153-157 | when every value is the key itself, `$values` is undefined and UPDATE fails |
| QueryBuilder.NoneDifferFromKey | src/Cherry/BakeORM/QueryBuilder/QueryBuilder.php:152-156 | with every value identical to the key the loop assigns nothing |
| QueryBuilder.QueryBuilder.DeleteQuery | src/Cherry/BakeORM/QueryBuilder/QueryBuilder.php:181-198 | the DELETE text and the stored statement; empty conditions make `$index[0]` undefined |
| QueryBuilder.DeleteIgnoresLaterConditions | src/Cherry/BakeORM/QueryBuilder/QueryBuilder.php:184-185 | two bags with the same first condition key give the same DELETE |
| QueryBuilder.DeleteLimit | src/Cherry/BakeORM/QueryBuilder/QueryBuilder.php:185-194 | DELETE keeps `LIMIT 1` exactly when `fields` has at most one value |
| DataMapper.BindType | src/Cherry/BakeORM/DataMapper/DataMapper.php:89-110 | never PARAM_NULL; PARAM_INT exactly for falsy values, booleans and integers; PARAM_STR exactly for truthy strings and arrays |
| DataMapper.Bound | src/Cherry/BakeORM/DataMapper/DataMapper.php:130-157 | binding keeps the statement's SQL text |
| DataMapper.FreshStatementBinding | src/Cherry/BakeORM/DataMapper/DataMapper.php:130-139 | on a new statement, one binding per field in order, named `:key`, with the bound value and `bind`'s type of the field value |
| DataMapper.BoundAppends | src/Cherry/BakeORM/DataMapper/DataMapper.php:133-137 | with new placeholder names and no faults, binding appends exactly the expected bindings |
| DataMapper.SearchStopsAtArray | src/Cherry/BakeORM/DataMapper/DataMapper.php:151-155 | a search binding of an array value stops with the array-to-string warning |
| DataMapper.SearchTypesByRawValue | src/Cherry/BakeORM/DataMapper/DataMapper.php:151-155 | a search binds `%0%` for `'0'` but types it PARAM_INT from the unwrapped value |
| DataMapper.DataMapper.constructor | src/Cherry/BakeORM/DataMapper/DataMapper.php:45-48 | the connection is kept; there is no statement yet |
| DataMapper.DataMapper.Prepare | src/Cherry/BakeORM/DataMapper/DataMapper.php:82-86 | the new statement replaces the current one and the mapper is returned; a connect or prepare fault leaves the statement as it was |
| DataMapper.DataMapper.BindFields | src/Cherry/BakeORM/DataMapper/DataMapper.php:130-157 | the loop leaves the statement `Bound` describes and returns it, or the error that stopped it |
| DataMapper.DataMapper.BindValues | src/Cherry/BakeORM/DataMapper/DataMapper.php:130-139 | the plain binding of the fields |
| DataMapper.DataMapper.BindSearchValues | src/Cherry/BakeORM/DataMapper/DataMapper.php:148-157 | the wildcard binding of the fields |
| DataMapper.DataMapper.BindParams | src/Cherry/BakeORM/DataMapper/DataMapper.php:113-122 | chooses the binding by `isSearch` and returns the mapper whenever binding succeeded, also for `[]` |
| DataMapper.DataMapper.Execute | src/Cherry/BakeORM/DataMapper/DataMapper.php:160-165 | the statement's own answer; before `prepare` an error, never `false` |
| DataMapper.DataMapper.NumRows | src/Cherry/BakeORM/DataMapper/DataMapper.php:168-173 | the statement's row count; before `prepare` an error |
| DataMapper.DataMapper.Result | src/Cherry/BakeORM/DataMapper/DataMapper.php:176-181 | the fetched row; a failed fetch violates the `object` return type |
| DataMapper.DataMapper.Results | src/Cherry/BakeORM/DataMapper/DataMapper.php:184-189 | all fetched rows; before `prepare` an error |
| DataMapper.DataMapper.GetLastID | src/Cherry/BakeORM/DataMapper/DataMapper.php:192-208 | a connect error, else the last insert id cast to int, 0 for `''`, `'0'` or false; a decimal id is returned as the number it denotes |
| DataMapper.LastIdRoundTrip | src/Cherry/BakeORM/DataMapper/DataMapper.php:197-199 | the id reported as decimal text is the id returned |
| DataMapperEnvConfig.CredentialsCheck | src/Cherry/BakeORM/DataMapper/DataMapperEnvConfig.php:68-79 | passes exactly when the driver's entry exists, is an array and has the driver as a key; a missing entry is the undefined-key warning; the checks at lines 70 and 73 never fire |
| DataMapperEnvConfig.LastHolder | src/Cherry/BakeORM/DataMapper/DataMapperEnvConfig.php:50-54 | the last entry that has the driver as a key: no later entry has it |
| DataMapperEnvConfig.ScanLastWins | src/Cherry/BakeORM/DataMapper/DataMapperEnvConfig.php:50-54 | the loop's result is the driver's value in the last entry that has it, and the start value if none does |
| DataMapperEnvConfig.CheckedDriverIsFound | src/Cherry/BakeORM/DataMapper/DataMapperEnvConfig.php:45-57 | once the check passes, the loop finds a holder at or after the driver's own entry |
| DataMapperEnvConfig.EmptyCredentialsFail | src/Cherry/BakeORM/DataMapper/DataMapperFactory.php:37 | empty credentials always fail with the undefined-key warning |
| DataMapperEnvConfig.DataMapperEnvConfig.constructor | src/Cherry/BakeORM/DataMapper/DataMapperEnvConfig.php:34-37 | the credentials are kept; nothing writes them again |
| DataMapperEnvConfig.DataMapperEnvConfig.AreCredentialsValid | src/Cherry/BakeORM/DataMapper/DataMapperEnvConfig.php:68-79 | the loop-free check, as `CredentialsCheck` states it |
| DataMapperEnvConfig.DataMapperEnvConfig.GetDBCredentials | src/Cherry/BakeORM/DataMapper/DataMapperEnvConfig.php:45-57 | the check, then the scan; a non-array result violates the `array` return type |
| Crud.Persisted | src/Cherry/BakeORM/EntityManager/Crud.php:124-125 | the parameters are built, then persisted, then counted; a query that failed reaches the mapper not at all; the log only grows |
| Crud.OneRow | src/Cherry/BakeORM/EntityManager/Crud.php:125 | true exactly when one row was affected; errors pass through |
| Crud.Crud.constructor | src/Cherry/BakeORM/EntityManager/Crud.php:65-75 | the collaborators, the table name and the key column are kept |
| Crud.Crud.GetSchema | src/Cherry/BakeORM/EntityManager/Crud.php:82-85 | the constructor's table name |
| Crud.Crud.GetSchemaID | src/Cherry/BakeORM/EntityManager/Crud.php:92-95 | the constructor's key column |
| Crud.Crud.LastID | src/Cherry/BakeORM/EntityManager/Crud.php:103-106 | the mapper's last id, with one call logged |
| Crud.Crud.PersistAndCount | src/Cherry/BakeORM/EntityManager/Crud.php:124-125 | the mapper calls and the count as `Persisted` states |
| Crud.Crud.Create | src/Cherry/BakeORM/EntityManager/Crud.php:115-130 | builds `{table, type insert, fields}`, persists its INSERT and answers true exactly when one row was affected |
| Crud.CreateReads | src/Cherry/BakeORM/EntityManager/Crud.php:118-123 | the builder reads the caller's fields and the table, and template defaults for the rest |
| Crud.CreateStatement | src/Cherry/BakeORM/EntityManager/Crud.php:118-124 | create's statement is the INSERT over the field keys, or `''` without fields |
| Crud.Crud.Read | src/Cherry/BakeORM/EntityManager/Crud.php:142-164 | the rows when the count is positive, else `[]`; a failing SELECT comes first, which `ReadThrowsBeforeMapper` shows is always the case |
| Crud.ReadReads | src/Cherry/BakeORM/EntityManager/Crud.php:150-157 | the builder reads the selectors, conditions and table, and the template `order_by` |
| Crud.ReadIgnoresParameters | src/Cherry/BakeORM/EntityManager/Crud.php:150-157 | `params` and `extras` never change what the builder reads |
| Crud.ReadNeverReachesMapper | src/Cherry/BakeORM/EntityManager/Crud.php:150-158 | read's SELECT always fails on the template `order_by` |
| Crud.ReadThrowsBeforeMapper | src/Cherry/BakeORM/EntityManager/Crud.php:150-158 | so read makes no mapper call and fails with the array-to-string warning |
| Crud.SelectOfArrayOrderBy | src/Cherry/BakeORM/QueryBuilder/QueryBuilder.php:229-234 | with a string table and array selectors, an array `order_by` fails with the array-to-string warning |
| Crud.Crud.Update | src/Cherry/BakeORM/EntityManager/Crud.php:174-190 | builds `{table, type update, fields, primary_key}`, persists its UPDATE and answers true exactly when one row was affected |
| Crud.UpdateReads | src/Cherry/BakeORM/EntityManager/Crud.php:177-183 | the builder reads the fields, the table and the key column |
| Crud.UpdateStatement | src/Cherry/BakeORM/EntityManager/Crud.php:177-184 | update's statement sets the last field value that is not the key column's name |
| Crud.Crud.Delete | src/Cherry/BakeORM/EntityManager/Crud.php:199-214 | builds `{table, type delete, conditions}`, persists its DELETE and answers true exactly when one row was affected |
| Crud.DeleteReads | src/Cherry/BakeORM/EntityManager/Crud.php:202-207 | the builder reads the conditions, the table and the template's empty fields |
| Crud.DeleteStatement | src/Cherry/BakeORM/EntityManager/Crud.php:202-208 | delete passes no fields, so its statement always keeps `LIMIT 1` |
| Crud.Crud.Search | src/Cherry/BakeORM/EntityManager/Crud.php:216-232 | the rows when the count is positive, else `[]`, over the builder's search query |
| Crud.Crud.RawQuery | src/Cherry/BakeORM/EntityManager/Crud.php:234-240 | ignores its arguments and returns `[]` |
| DataRepository.UpdatePayloadKey | src/Cherry/BakeORM/DataRepository/DataRepository.php:214 | for a non-numeric key column the payload starts with it and holds the caller's value for it when given, else the id |
| DataRepository.UpdatePayloadOthers | src/Cherry/BakeORM/DataRepository/DataRepository.php:214 | every other string key of the payload is the caller's |
| DataRepository.UpdatePayloadNumericKey | src/Cherry/BakeORM/DataRepository/DataRepository.php:214 | a numeric key column is renumbered to key `0` |
| DataRepository.DataRepository.constructor | src/Cherry/BakeORM/DataRepository/DataRepository.php:33-36 | the Crud is kept |
| DataRepository.DataRepository.Find | src/Cherry/BakeORM/DataRepository/DataRepository.php:73-82 | id 0 fails before any Crud call; otherwise one read on the literal column `id` |
| DataRepository.DataRepository.FindAll | src/Cherry/BakeORM/DataRepository/DataRepository.php:90-97 | one read with every default |
| DataRepository.DataRepository.FindBy | src/Cherry/BakeORM/DataRepository/DataRepository.php:109-120 | one read with the four arguments unchanged |
| DataRepository.DataRepository.FindOneBy | src/Cherry/BakeORM/DataRepository/DataRepository.php:129-138 | one read on the conditions; its rows as they are, not cut to one |
| DataRepository.DataRepository.FindBySearch | src/Cherry/BakeORM/DataRepository/DataRepository.php:154-167 | one search with the selectors and conditions only |
| DataRepository.DataRepository.FindByIdAndDelete | src/Cherry/BakeORM/DataRepository/DataRepository.php:177-194 | deletes only after a read that found rows, answering the delete's result; `$id` is unused; non-array conditions are a type error |
| DataRepository.DataRepository.FindByIdAndUpdate | src/Cherry/BakeORM/DataRepository/DataRepository.php:204-222 | reads `[key column => id]`; false without an update when nothing is found; otherwise updates with the merged payload and answers its result |
| Router.UcWords | src/Cherry/Router/Router.php:88 | `ucwords` keeps the length |
| Router.LcFirst | src/Cherry/Router/Router.php:106 | the first character lowered, the rest unchanged |
| Router.UpperCamel | src/Cherry/Router/Router.php:83-96 | the `str_replace`/`ucwords`/`str_replace` composition equals an independent left-to-right scan: `-` and space are dropped and start a word, which begins in upper case; the result has no `-` and no space |
| Router.RemoveCharRemoves | src/Cherry/Router/Router.php:85-87 | removing a character leaves none of it |
| Router.HyphenatedPair | src/Cherry/Router/Router.php:83-96 | two plain words joined by `-` become one name with both first letters raised |
| Router.PostIndexExample | src/Cherry/Router/Router.php:83-107 | `post-index` becomes `PostIndex` and `postIndex` |
| Router.LowerCamel | src/Cherry/Router/Router.php:104-107 | the same left-to-right scan with its first character lowered; the result has no `-` and no space |
| Router.FirstMatch | src/Cherry/Router/Router.php:119-121 | the first route in table order whose pattern matches or errs: every earlier route answers no match; a pattern stored under an integer key is a TypeError under strict types, whatever the matcher would say |
| Router.OverlayLookup | src/Cherry/Router/Router.php:123-128 | after the overlay a string-keyed capture holds its text and every other key keeps the route's value |
| Router.OverlayCaptures | src/Cherry/Router/Router.php:123-128 | the capture loop computes that overlay |
| Router.Router.constructor | src/Cherry/Router/Router.php:28-33 | empty table and parameters |
| Router.Router.Add | src/Cherry/Router/Router.php:44-47 | the pattern maps to the parameters; other patterns are unchanged; a new pattern goes last and a re-added one keeps its place |
| Router.Router.Match | src/Cherry/Router/Router.php:116-134 | no match: false and the parameters as they were; the first match: true and its parameters overlaid by the named captures; a matcher error, or the TypeError of an integer-keyed pattern, passes through with the parameters unchanged |
| Router.Router.GetNamespace | src/Cherry/Router/Router.php:142-149 | `App\Controllers\` plus the `namespace` parameter when present; the argument is ignored |
| Router.Router.Dispatch | src/Cherry/Router/Router.php:52-75 | no match: the 404 error; a match without a controller: the undefined-key warning; otherwise the namespace class name |
| RouterManager.RouteTableKeys | src/Cherry/Router/RouterManager.php:37-56 | one route per entry, in iteration order, keyed by the entry's key |
| RouterManager.RouteTableEntry | src/Cherry/Router/RouterManager.php:37-56 | each entry's route holds the `$args` as they stood right after that entry |
| RouterManager.BuiltPrefix | src/Cherry/Router/RouterManager.php:37-57 | a successful build went through every prefix |
| RouterManager.BuiltStops | src/Cherry/Router/RouterManager.php:37-57 | a failing entry fails the whole build |
| RouterManager.NamespaceOnly | src/Cherry/Router/RouterManager.php:38-44 | a namespace entry gives `$args` holding the namespace alone |
| RouterManager.ControllerAndAction | src/Cherry/Router/RouterManager.php:45-52 | otherwise a controller entry gives controller and action; a missing action is the undefined-key warning |
| RouterManager.CarryOver | src/Cherry/Router/RouterManager.php:36-53 | an entry with neither keeps the previous `$args`, `[]` for the first |
| RouterManager.DispatchRoute | src/Cherry/Router/RouterManager.php:28-60 | nothing is dispatched unless the routes are a non-empty array; otherwise the table is the one `Built` describes and an unmatched URL is the 404 error; a matched URL gives the matcher's error, the undefined `controller` warning, the TypeError of a non-string controller, or the namespace class name, with the parameters overlaid by the captures |
| NativeSessionStorage.AppendedAtList | src/Cherry/Session/Storage/NativeSessionStorage.php:55-58 | appending fails exactly on a non-null scalar entry; otherwise the list grows by the value at its end and no other key changes |
| NativeSessionStorage.FlushTwice | src/Cherry/Session/Storage/NativeSessionStorage.php:126-134 | a second flush of the same key returns its default and changes nothing |
| NativeSessionStorage.NativeSessionStorage.constructor | src/Cherry/Session/Storage/NativeSessionStorage.php:43-46 | the session variables are given |
| NativeSessionStorage.NativeSessionStorage.SetSession | src/Cherry/Session/Storage/NativeSessionStorage.php:43-46 | the key holds the value; every other key is unchanged |
| NativeSessionStorage.NativeSessionStorage.SetSessionArray | src/Cherry/Session/Storage/NativeSessionStorage.php:55-58 | the append `AppendedAt` describes, or the engine's error with nothing changed |
| NativeSessionStorage.NativeSessionStorage.GetSession | src/Cherry/Session/Storage/NativeSessionStorage.php:67-73 | the stored value when set and not null, else the default |
| NativeSessionStorage.NativeSessionStorage.SessionHas | src/Cherry/Session/Storage/NativeSessionStorage.php:142-145 | true exactly when the key is present and its value is not null (`isset`) |
| NativeSessionStorage.NativeSessionStorage.DeleteSession | src/Cherry/Session/Storage/NativeSessionStorage.php:81-88 | true and the key removed exactly when it was set; otherwise false and nothing changed |
| NativeSessionStorage.NativeSessionStorage.Invalidate | src/Cherry/Session/Storage/NativeSessionStorage.php:98 | the variables are empty |
| NativeSessionStorage.NativeSessionStorage.Flush | src/Cherry/Session/Storage/NativeSessionStorage.php:126-134 | the stored value, removed, when set; otherwise the default and nothing changed |
| Session.IsSessionKeyValid | src/Cherry/Session/Session.php:159-162 | valid exactly for 1 to 64 characters of `[a-zA-Z0-9_.]`, optionally followed by one newline |
| Session.OneTrailingNewlineOnly | src/Cherry/Session/Session.php:30 | one trailing newline is accepted, two are not |
| Session.EmptyNameInvalid | src/Cherry/Session/SessionManager.php:31 | the name `''` is rejected |
| Session.Open | src/Cherry/Session/Session.php:32-40 | the constructor fails exactly on an invalid name, and otherwise keeps the name and storage |
| Session.Session.constructor | src/Cherry/Session/Session.php:32-40 | a valid name and the storage are kept |
| Session.Session.EnsureSessionKeyIsValid | src/Cherry/Session/Session.php:171-176 | passes exactly on a valid key, and otherwise fails with the session's invalid-argument error |
| Session.Session.Set | src/Cherry/Session/Session.php:50-58 | an invalid key fails before storage; otherwise the storage holds the value |
| Session.Session.SetArray | src/Cherry/Session/Session.php:68-76 | an invalid key fails before storage; a storage failure is rethrown as the session failure |
| Session.Session.Get | src/Cherry/Session/Session.php:86-94 | an invalid key fails; otherwise the storage's answer unchanged |
| Session.Session.Delete | src/Cherry/Session/Session.php:103-112 | an invalid key fails; otherwise true, whether or not the key was stored |
| Session.Session.Flush | src/Cherry/Session/Session.php:131-139 | an invalid key fails; otherwise the storage's flush with the value as default |
| Session.Session.Has | src/Cherry/Session/Session.php:147-151 | an invalid key fails; otherwise whether the storage has the key |
| Flash.FlashKeyIsValid | src/Cherry/Flash/Flash.php:30 | `flash_message` passes the session key check |
| Flash.AddAppendsOne | src/Cherry/Flash/Flash.php:39-51 | one add puts exactly one `{message, type}` record after the existing ones and touches no other variable; it fails exactly when the entry holds a scalar |
| Flash.AddsInCallOrder | src/Cherry/Flash/Flash.php:47-50 | n adds give n more records, in call order |
| Flash.Add | src/Cherry/Flash/Flash.php:39-51 | sets the flash key to `[]` only when unset, then appends the record; the type defaults to `success` |
| Flash.Get | src/Cherry/Flash/Flash.php:53-57 | as written: always the argument-count error |
| Flash.GetFlushing | src/Cherry/Session/Storage/NativeSessionStorage.php:126-134 | the intended `get`: the flash records are removed and returned, null when there are none |
| Flash.AddedThenFlushed | src/Cherry/Flash/Flash.php:39-57 | records added come back once, in call order, and the next `get` finds nothing |
| GlobalManager.GlobalCheck | src/Cherry/GlobalManager/GlobalManager.php:63-71 | passes exactly on a set, truthy value; absent or null is the "not valid" rejection, another empty value the "empty" one |
| GlobalManager.GlobalGet | src/Cherry/GlobalManager/GlobalManager.php:46-55 | the stored value exactly when the check passes, else the check's rejection |
| GlobalManager.SetThenGet | src/Cherry/GlobalManager/GlobalManager.php:34-55 | a truthy value set is read back; a null one counts as unset and another empty one as empty |
| GlobalManager.SetOtherKey | src/Cherry/GlobalManager/GlobalManager.php:34-37 | setting one key does not change what `get` gives for another |
| GlobalManager.GlobalManager.constructor | src/Cherry/GlobalManager/GlobalManager.php:34-37 | the globals are given |
| GlobalManager.GlobalManager.Set | src/Cherry/GlobalManager/GlobalManager.php:34-37 | overwrites unconditionally; other keys are unchanged |
| GlobalManager.GlobalManager.IsGlobalValid | src/Cherry/GlobalManager/GlobalManager.php:63-71 | the check as `GlobalCheck` states it |
| GlobalManager.GlobalManager.Get | src/Cherry/GlobalManager/GlobalManager.php:46-55 | changes nothing; answers as `GlobalGet` states it |

## Left out

- Database connections and PDO are not modelled. The connection's and statements' answers are inputs (`DataMapper.Engine`, `Crud.MapperAnswers`).
- `persist`, `buildQueryParams` and `searchQuery` are called by `Crud` but defined nowhere in the framework. They are left abstract: their answers are inputs, and the calls made are logged.
- `Router::dispatch` is modelled up to the controller class name. `class_exists`, the controller's construction, the action's name and the method call are not modelled.
- `preg_match` is not modelled. The matcher is a parameter that gives, per pattern and URL, the captures, no match, or the error of a malformed pattern.
- YAML loading in `RouterManager::dispatchRoute` is not modelled. The parsed route list is a parameter.
- `Session::invalidate` is not modelled: it calls `invalidateSession`, which is defined nowhere.
- Only the clearing line of `NativeSessionStorage::invalidate` is modelled. The cookie reset and `session_destroy` are native session I/O.
- `AbstractSessionStorage` is not modelled: it is native session start-up (`ini_set`, `session_start`).
- `Flash` obtains its session from `GlobalManager::get('global_session')`. Here the session is a parameter.
- `Session`'s constructor has a null default for its storage, but the storage property is not nullable, so a null storage makes the constructor fail with a TypeError. The model leaves this failure out and always gives storage.
- Floats are not in the value domain.
- Loose comparison is modelled only against `''`, booleans and integers. A string equals an integer only when it is that integer's canonical decimal text. PHP 8 compares every numeric string numerically.
- QueryBuilder.QueryBuilder.HasConditions: does not follow PHP 8 for a non-canonical numeric offset string such as `"-01"`, `" -1"` or `"-1.0"`. PHP omits the LIMIT clause for these, since each equals -1; the model appends it. The reason is that numeric-string parsing, including floats, is not modelled.
- DataMapperEnvConfig.CredentialsCheck: reduces the loose `in_array` over the entry's keys to equality of key texts. PHP answers differently for numeric strings, such as driver `"1.0"` against key `1`, or `"1e1"` against key `"10"`. For the only caller's driver, `'mysql'`, the two agree. The reason is the same: numeric strings are not parsed.
- `(int)` casts read leading decimal digits only. Exponents and integer overflow are not modelled.
- PDO's handling of array values in `bindValue` is not modelled: the binding is recorded as given.
- An append to an array whose only integer keys are negative follows PHP before 8.3. The history of unset keys is not tracked.
- The factories, `EntityManager`, `BakeManager`, `SessionManager` and `BaseModel` are not modelled: they choose classes by name at run time. `DataRepository` holds its `Crud` directly.
- `DataRepository::isArray` and `isEmpty` are not separate members. Their effect is inside `Find` (id 0) and `FindByIdAndDelete` (the type check).
- `findObjectBy`, `findBySearchAndPaging` and `findAndReturn` are not modelled: they are empty stubs.
- Interface mismatches are not modelled: `rawQuery` is declared in the builder interface, and `findWithSearchAndPaging` in the repository interface.
- The exception classes are not modelled as classes. They become the error kinds of `Outcomes.ErrorKind`, without messages.
- Router.Router.Dispatch: does not state the "controller class not found" exception for a class name that does not exist, because class lookup is outside the model.

## Findings

| source | as written | input that shows it | evidently intended | confidence | as-written member | corrected member |
|---|---|---|---|---|---|---|
| src/Cherry/Flash/Flash.php:53-57 | `get()` calls `$session->flush(self::FLASH_key)` with one argument, but `Session::flush` requires two; it also has no return statement for its `mixed` return type | any call of `Flash::get()`, e.g. after `Flash::add('saved')` | remove the flash records from the session and return them (null when there are none) | not executed | Flash.Get | Flash.GetFlushing |
