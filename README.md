# pgtools: a verified model of the PostgreSQL helper module

`src/pgtools.es6.js` sits between application code and the `pg-db` client. It
does four things:

- It formats field names into query fragments: `fields`, `namedParams`,
  `functionParams`, `updateParams` and `makeSelection`.
- It classifies a raw driver error with `wrapError`. The result is either a
  client validation error (status 422, reason taken after the first `$`) or a
  `DBError` (code or -1, message, query tag, serialised data).
- It wraps every client call in a completion handler. The handler logs one
  metric and then calls the caller's callback. The sensitive variant never logs
  or reports the parameters.
- It forwards `query`, `queryOne`, `update`, `upsert` and their sensitive
  counterparts to the client.

The model is written in Dafny, one module per component:

- `text.dfy` (`Text`): JavaScript's `indexOf` for one character and
  `Array.prototype.join`. It also defines `split`, the partner that undoes a
  join.
- `json.dfy` (`Json`): the values that `JSON.stringify` receives, and the
  redaction marker `{"sensitive_data_removed": null}`.
- `formatters.dfy` (`Formatters`): the formatters. lodash's `_.keys` and
  `_.intersection` are modelled exactly. `makeSelection` is a method whose loop
  pushes one item per entry, as the source's `_.forEach` does.
- `errors.dfy` (`Errors`): the raw error, the `DBError` constructor and its
  `toString`, and `wrapError`.
- `handlers.dfy` (`Handlers`): the two callback factories. The closure they
  return is the value `Handler`. Invoking it is the function `Complete`, which
  returns the effects in order: a `LogMetric` event, then a `Callback` event.
- `dispatch.dfy` (`Dispatch`): each dispatcher returns the `Request` that the
  client would receive. The request holds the operation, the statement text,
  the parameters and the completion handler.

Conventions of the model:

- A JavaScript object is its list of `(key, value)` entries in enumeration
  order.
- A raw error's `code` or `constraint` that is absent and one that is `""` are
  both falsy, so both are written `""`. The `message` is always a string (see
  "## Left out").
- The clock readings `Date.now()` at handler creation (`start`) and at
  invocation (`now`) are inputs.
- `JSON.stringify` is the function parameter `stringify`. Nothing is assumed
  about it. That is why the sensitive-path property is stated as independence
  from the parameters.
- `updateParams` lists the allowed keys in the order of the data object's keys,
  because `_.keys(data)` is the first argument of `_.intersection`. It does not
  use the order of the allowed-field list.
- `fields` returns every field unchanged. Its doc comment speaks of quoting,
  but `'' + field + ''` adds no quotes.

## Model

| member | source | states |
|---|---|---|
| `Text.IndexOf` | src/pgtools.es6.js:77 | `indexOf('$')` gives -1 exactly when there is no `$`; otherwise it gives the position of the first `$` |
| `Text.SplitJoin` | src/pgtools.es6.js:46 | a `join(',')` of parts that hold no comma splits back into exactly those parts |
| `Text.Join` | src/pgtools.es6.js:46 | `join(',')` starts with the first part followed by the separator when there are two parts or more, is at least as long as the first part plus one separator per further part, and is `""` for no parts |
| `Text.JoinEmpty` | src/pgtools.es6.js:70 | a join of non-empty parts is `""` exactly when there are no parts |
| `Formatters.Fields` | src/pgtools.es6.js:16-18 | `fields(arr)` returns `arr` itself: same length, same strings, same order, no quoting |
| `Formatters.NamedParams` | src/pgtools.es6.js:25-27 | `namedParams` keeps the length, and its i-th element is `":" + arr[i]` |
| `Formatters.FunctionParams` | src/pgtools.es6.js:34-36 | `functionParams` keeps the length, and its i-th element is `"_" + arr[i] + " := :" + arr[i]` |
| `Formatters.NamedParamsInjective` | src/pgtools.es6.js:25-27 | different field lists never give the same placeholder list |
| `Formatters.FunctionParamInjective` | src/pgtools.es6.js:35 | one function argument `_f := :f` determines its field `f` |
| `Formatters.FunctionParamsInjective` | src/pgtools.es6.js:34-36 | different field lists never give the same argument list |
| `Formatters.Keys` | src/pgtools.es6.js:45 | `_.keys(data)` lists the object's keys, one per entry, in enumeration order |
| `Formatters.IntersectionFrom` | src/pgtools.es6.js:45 | lodash's intersection pass returns what it has already collected plus exactly the values of the first list that occur in the second; without duplicates if the collected values had none |
| `Formatters.Intersection` | src/pgtools.es6.js:45 | `_.intersection(a, b)` holds exactly the values found in both lists, each once |
| `Formatters.IntersectionFollowsFirst` | src/pgtools.es6.js:45 | when `a` has no duplicates (an object's keys), `_.intersection(a, b)` is `a` filtered by membership in `b`, in `a`'s order |
| `Formatters.Assignment` | src/pgtools.es6.js:46 | the template `${field} = :${field}` is the field, ` = :`, the field again, and holds a comma only where the field does |
| `Formatters.UpdateParams` | src/pgtools.es6.js:44-47 | `updateParams(data, fields)` returns `""` if and only if no key of `data` is an allowed field |
| `Formatters.UpdateParamsOrder` | src/pgtools.es6.js:44-47 | for an object (distinct keys, any characters), `updateParams` is the `k = :k` assignments of the allowed keys, in `data`'s key order, joined by `,` |
| `Formatters.UpdateParamsSplit` | src/pgtools.es6.js:44-47 | when at least one key is allowed and no allowed key holds a comma (dropped keys may hold anything), splitting `updateParams` at the commas gives exactly the assignments of the allowed keys, each once, so there is no empty piece and no trailing comma; with no allowed key the result is `""` (`Formatters.UpdateParams`) |
| `Formatters.UpdateParamsExample` | src/pgtools.es6.js:44-47 | `updateParams({a:1,b:2,c:3}, ["a","c"])` is `"a = :a,c = :c"` |
| `Formatters.SelectionItem` | src/pgtools.es6.js:68 | the item `val + ' AS "' + key + '"'` is the expression, ` AS "`, the key and a closing `"`, and holds a comma only where the key or the expression does |
| `Formatters.MakeSelection` | src/pgtools.es6.js:65-71 | the loop builds one `val AS "key"` item per entry, in order; the result is those items joined by `,`, and it is `""` exactly for an empty selection |
| `Formatters.SelectionSplit` | src/pgtools.es6.js:65-71 | when keys and expressions hold no comma, the selection splits back into exactly one item per entry, in order |
| `Errors.NewDBError` | src/pgtools.es6.js:49-56 | the `DBError` constructor: the code is -1 exactly when the given code is falsy, otherwise the given code; message and query are kept; data is the serialised parameters |
| `Errors.CodeText` | src/pgtools.es6.js:59 | `${this.code}` prints the driver's code as it is, and the number -1 as `-1` |
| `Errors.DBErrorCodeText` | src/pgtools.es6.js:52 | the code a `DBError` prints is never empty, and is `-1` exactly when the code it was built from was falsy or was the string `-1` |
| `Errors.WrappedError.ToString` | src/pgtools.es6.js:58-60 | `toString` is, position by position, `code=`, the printed code, ` message=`, the message, ` query=`, the query, ` data=` and the serialised data, with nothing else (27 constant characters) |
| `Errors.WrapError` | src/pgtools.es6.js:73-95 | the result is a client error exactly when the code is truthy and either the constraint holds a `$` or the code is `TOTEM` and the message holds one; a client error has status 422; every other result is the `DBError` built from the raw code, the message, the tag and the data |
| `Errors.ConstraintReason` | src/pgtools.es6.js:75-82 | with a truthy code, the constraint `name$REASON` (no `$` in `name`) gives `ClientError(422, REASON)`, whatever the code and the message say; this branch takes precedence over the TOTEM branch |
| `Errors.TotemReason` | src/pgtools.es6.js:84-90 | code `TOTEM`, no `$` in the constraint and the message `text$REASON` (no `$` in `text`) give `ClientError(422, REASON)` |
| `Errors.FalsyCodeIsGeneric` | src/pgtools.es6.js:91-94 | a falsy code always gives `DBError(-1, message, tag, data)`, even when the constraint or message holds `$`; the "No value found for parameter: " branch gives the same result as the fall-through |
| `Errors.UnclassifiedCodeIsGeneric` | src/pgtools.es6.js:75-94 | a truthy code other than `TOTEM`, with no `$` in the constraint, gives a `DBError` that keeps that code |
| `Errors.ConstraintExample` | src/pgtools.es6.js:75-82 | the constraint `uniq_email$EMAIL_TAKEN` gives `ClientError(422, "EMAIL_TAKEN")` |
| `Errors.TotemExample` | src/pgtools.es6.js:84-90 | code `TOTEM` with message `failed$BAD_INPUT` gives `ClientError(422, "BAD_INPUT")` |
| `Handlers.ClassifierData` | src/pgtools.es6.js:102-113 | `wrapError` receives the captured parameters from a plain handler and the redaction marker from a sensitive one |
| `Handlers.Complete` | src/pgtools.es6.js:97-117 | one invocation emits exactly one metric, tagged with the query tag and carrying `now - start`, and then exactly one callback with `results` unchanged; the error is wrapped exactly when one is present; only the plain handler's metric carries the serialised data |
| `Handlers.SensitiveHidesData` | src/pgtools.es6.js:108-117 | a sensitive handler's effects are the same whatever parameters it captured |
| `Handlers.GenericErrorData` | src/pgtools.es6.js:101-114 | a `DBError` handed to the callback names the query tag, keeps the message, and carries the serialised redaction marker on the sensitive path and the serialised parameters otherwise |
| `Dispatch.Query` | src/pgtools.es6.js:119-121 | `query` sends `query[1]` to `pg.query` with a plain handler tagged `query[0]` |
| `Dispatch.QueryOne` | src/pgtools.es6.js:125-127 | `queryOne` sends `query[1]` to `pg.queryOne` with a plain handler tagged `query[0]` |
| `Dispatch.Update` | src/pgtools.es6.js:129-131 | `update` sends `query[1]` to `pg.update` with a plain handler tagged `query[0]` |
| `Dispatch.SensitiveQuery` | src/pgtools.es6.js:134-136 | `sensitiveQuery` sends `query[1]` to `pg.query` with a sensitive handler tagged `query[0]` |
| `Dispatch.SensitiveQueryOne` | src/pgtools.es6.js:138-140 | `sensitiveQueryOne` sends `query[1]` to `pg.queryOne` with a sensitive handler tagged `query[0]` |
| `Dispatch.SensitiveUpdate` | src/pgtools.es6.js:142-144 | `sensitiveUpdate` sends `query[1]` to `pg.update` with a sensitive handler tagged `query[0]` |
| `Dispatch.UpsertStatement` | src/pgtools.es6.js:147 | the upsert statement is `WITH upsert AS (`, the update text, ` RETURNING *) `, the insert text, then ` WHERE NOT EXISTS (SELECT * FROM upsert);`, and nothing else |
| `Dispatch.UpsertStatementInjective` | src/pgtools.es6.js:147 | with update texts of equal length, equal statements come only from equal update and insert texts |
| `Dispatch.Upsert` | src/pgtools.es6.js:146-149 | `upsert` sends exactly the upsert statement to `pg.update`, with a plain handler tagged with the update query's tag |
| `Dispatch.SensitiveUpsert` | src/pgtools.es6.js:151-154 | as written, `sensitiveUpsert` sends the one-character text `"I"` to `pg.update`, with a sensitive handler tagged with the update query's tag |
| `Dispatch.SensitiveUpsertDropsStatement` | src/pgtools.es6.js:151-154 | the text `sensitiveUpsert` sends is never the statement it built, nor the text `upsert` sends |
| `Dispatch.SensitiveUpsertIntended` | src/pgtools.es6.js:151-154 | the corrected `sensitiveUpsert` sends the whole upsert statement, with a sensitive handler |
| `Dispatch.SensitiveDispatchHidesData` | src/pgtools.es6.js:133-154 | completing the request of any sensitive dispatcher has the same effects whatever the parameters |
| `Dispatch.PlainDispatchLogsData` | src/pgtools.es6.js:119-131 | completing a plain dispatcher's request logs the serialised parameters under the descriptor's tag; a `DBError` it reports names that tag and carries those parameters |

## Findings

| source | as written | input that shows it | evidently intended | confidence | as-written member | corrected member |
|---|---|---|---|---|---|---|
| src/pgtools.es6.js:153 | `pg.update(query[1], …)` sends the second character of the built statement | any two descriptors, e.g. `["u", "UPDATE t SET a = :a"]` and `["i", "INSERT INTO t (a) VALUES (:a)"]`: the client receives `"I"` | `pg.update(query, …)`, the whole statement, as `upsert` does at line 148 | high (not executed) | `Dispatch.SensitiveUpsert`, `Dispatch.SensitiveUpsertDropsStatement` | `Dispatch.SensitiveUpsertIntended` |

## Left out

- `tx` (src/pgtools.es6.js:123) is a direct reference to the client's transaction entry point. Nothing wraps it, so nothing is modelled.
- The `pg-db` calls themselves are network I/O. The model stops at the `Request` a dispatcher would make.
- `log.metric` is a side effect. It is returned as the `LogMetric` event instead.
- `Date.now()` is an input: `start` for the factory and `now` for the invocation.
- Callbacks are delivered asynchronously. A handler's single invocation is modelled as one call of `Complete`.
- `JSON.stringify` is a foreign serialiser and is taken as the parameter `stringify`. So is its `undefined` result for an `undefined` parameter set. Only the identity of what is serialised is modelled.
- `tools.ClientError` is modelled as the datatype variant `ClientError(status, reason)`. Its internals are not modelled.
- `DBError` extends `Error`, and its inherited members (stack, name) are not modelled.
- Only string values are modelled for fields, selection values and raw error fields. A number or an object would be coerced by `+` or template strings; those coercions are not modelled. An absent or non-string `message` is not modelled either; the source would throw on it in the TOTEM branch.
- JavaScript lists integer-like object keys first, in ascending order. The model takes an object's entries in the order they are given.
- JSON numbers are integers only.
- Aliasing of the parameter set (`Handlers.Handler`, `Handlers.Complete`): the model captures the parameter set as a value when the handler is made. The source keeps a reference to the caller's object and serialises it only when the callback runs (src/pgtools.es6.js:100, and line 102 into line 55). If the caller or the client mutates that object in between, the source logs and reports the new contents; the model does not capture this aliasing.
- src/pgtools.js is an older revision that cannot load (an unbalanced parenthesis at line 79, an undefined `DEBError` at line 47), so it is not part of this model.
