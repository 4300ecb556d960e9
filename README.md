# XQuery executor model

A Dafny model of `XQueryExecutor`, the adapter that lets a Spring Integration
router or transformer run an XQuery against the XML payload of a message. The
model covers the executor's own logic; the XQuery engine and the payload
converter stay abstract.

- **Configuration** (`Executor.XQueryExecutor`): a class with the executor's
  fields. These are the query text or the query file (mutually exclusive), the
  data source, the payload converter, the parameter map keyed by parameter name,
  the result mapper table keyed by Java class, the format flag, and the
  external-variable names recorded at initialisation. Java's null is `None`.
  Each setter is a method that states the whole new state, including the
  `IllegalArgument` failures of Spring's `Assert` with their exact messages.
- **Initialisation** (`AfterPropertiesSet`): it adds the default mappers only
  where a key is absent. It falls back to the Saxon data source. It loads the
  query from the file when no text was set. It records the declared external
  variables; a failure to close the expression or the connection after that is
  the wrapped connection error. Then it checks the names against the parameter
  map. The check
  (`ParameterCheck`) fails with "Expecting n parameters ..." when the map is
  null. It fails with "Missing parameter(s) [$a, $b]" when names are missing.
  The model proves that message round-trips back to the missing names.
- **Execution** (`Execute`, `ExecuteWith`): `execute(message, returnType)`
  refuses a null message or type and needs a key registered for the type (its
  mapper may be null); `execute(message, mapper)` dereferences a null message. A payload
  without a node gives null. Otherwise it prepares the query, binds the context
  node, looks up and binds each declared parameter in turn, runs the query and
  hands the result sequence to the mapper. `executeForString`, `executeForBoolean`,
  `executeForNumber` and `executeForNode` are `Execute` with `StringClass`,
  `BooleanClass`, `NumberClass` and `NodeClass`.
- **Result mappers** (`ResultMappers`): the four `mapResults` loops, each proved
  against a specification function. Strings, booleans and numbers get one entry
  per item, in order, through a fixed cascade. Nodes keep the subsequence of
  node-typed items. Every mapping failure is one `Messaging` error with the
  source's message.

The foreign calls are function-typed fields of a `Collaborators` value passed in
as a parameter. They cover the engine's prepare, close, bind and execute calls, the
converter, parameter evaluation, query-file reading, user-supplied mappers and
the helpers of the abstract mapper superclass (`convertToString`,
`convertToNumber`, `convertToBoolean`, `isNodeType`, `transformNodeToString`).
A thrown exception is a `Failure`/`Fail` value with one of three errors:
`IllegalArgument` (Spring `Assert`), `Messaging` (wrapped engine or mapping
failure) or `NullPointer` (a method called on null: a field that is still null,
the null a map lookup gave for an absent key, or a null mapper).

One edge case the model makes explicit: the number mapper parses a node text as
a double only when `indexOf(".") > 0`. So a text that starts with a dot, such as
`.5`, goes to `Long.valueOf` (`ResultMappers.NumberEntryParseBranch`).

## Model

| member | source | states |
|---|---|---|
| `Executor.XQueryExecutor.constructor` | src/main/java/org/springframework/integration/xquery/XQueryExecutor.java:61-86 | a new executor has the default converter, no format flag and every other field null |
| `Executor.XQueryExecutor.SetXQuery` | src/main/java/org/springframework/integration/xquery/XQueryExecutor.java:327-331 | fails (only one source) when a query file is set; fails on null text; otherwise stores the text; success leaves the two sources exclusive |
| `Executor.XQueryExecutor.SetXQueryFileResource` | src/main/java/org/springframework/integration/xquery/XQueryExecutor.java:338-341 | fails when query text is set, otherwise stores the (possibly null) resource; success leaves the sources exclusive |
| `Executor.XQueryExecutor.SetXQDataSource` | src/main/java/org/springframework/integration/xquery/XQueryExecutor.java:347-350 | a null data source is refused with its message and changes nothing; otherwise it is stored |
| `Executor.XQueryExecutor.SetConverter` | src/main/java/org/springframework/integration/xquery/XQueryExecutor.java:318-321 | a null converter is refused with its message; otherwise it is stored |
| `Executor.XQueryExecutor.SetFormatOutput` | src/main/java/org/springframework/integration/xquery/XQueryExecutor.java:397-399 | the flag is stored and nothing else changes |
| `Executor.XQueryExecutor.SetResultMappers` | src/main/java/org/springframework/integration/xquery/XQueryExecutor.java:301-310 | a null table is refused; otherwise the table becomes a copy, null entries included, with the current format flag applied to every mapper that honours it |
| `Executor.WithFormatKeepsMappers` | src/main/java/org/springframework/integration/xquery/XQueryExecutor.java:301-310 | the copied table has the same keys, the same null entries and the same mapper kinds; abstract-mapper subclasses take the flag, other user mappers are unchanged |
| `Executor.XQueryExecutor.SetXQueryParameterMap` | src/main/java/org/springframework/integration/xquery/XQueryExecutor.java:359-362 | the map (null included) is stored as given |
| `Executor.XQueryExecutor.AddXQueryParameter` | src/main/java/org/springframework/integration/xquery/XQueryExecutor.java:368-373 | the map, created if null, gets the parameter under its own name |
| `Executor.XQueryExecutor.SetXQueryParameters` | src/main/java/org/springframework/integration/xquery/XQueryExecutor.java:380-388 | a non-empty list puts each parameter under its name in list order (map created if null); a null or empty list leaves the map, even a null one, unchanged |
| `Executor.PutAllKeepsOthers` | src/main/java/org/springframework/integration/xquery/XQueryExecutor.java:380-388 | entries under names no listed parameter has are kept, and no such key appears |
| `Executor.PutAllLastWins` | src/main/java/org/springframework/integration/xquery/XQueryExecutor.java:380-388 | the entry under a listed name is the last parameter in the list with that name |
| `Executor.XQueryExecutor.AddDefaultMappers` | src/main/java/org/springframework/integration/xquery/XQueryExecutor.java:159-183 | the table becomes the table with default mappers added for absent standard keys, each with the executor's format flag |
| `Executor.DefaultMappersKeepExisting` | src/main/java/org/springframework/integration/xquery/XQueryExecutor.java:159-183 | afterwards the keys are the old keys plus the four standard types; existing entries, null ones included, are unchanged; an absent standard key gets its built-in mapper; adding defaults again changes nothing |
| `Executor.DefaultMappersCover` | src/main/java/org/springframework/integration/xquery/XQueryExecutor.java:159-183 | all four standard types are keys afterwards |
| `Executor.XQueryExecutor.AfterPropertiesSet` | src/main/java/org/springframework/integration/xquery/XQueryExecutor.java:93-152 | creates the table if null and adds defaults, falls back to Saxon, then query, recorded names and outcome are those of the initialisation function (a failed close coming after the names are recorded); on success a query is set, all standard types have mappers and the parameter check passes |
| `Executor.XQueryExecutor.InitialiseQuery` | src/main/java/org/springframework/integration/xquery/XQueryExecutor.java:102-149 | loading the query, preparing it, recording its external variables, closing and checking leave the query, the recorded names and the outcome of the initialisation function; success means a query is set and the parameter check passes |
| `Executor.InitialiseFailsIff` | src/main/java/org/springframework/integration/xquery/XQueryExecutor.java:108-149 | with a prepared query, first initialisation fails exactly when closing fails, or external variables are declared and the map is null or lacks one of them; a failed close is the wrapped connection error and still records the names; with none declared and a clean close it passes |
| `Executor.InitialiseNeedsSource` | src/main/java/org/springframework/integration/xquery/XQueryExecutor.java:102-105 | with neither query text nor file, initialisation fails with "One of XQuery or the XQuery resource is mandatory" and changes no query field |
| `ParameterCheck.CheckDeclaredParameters` | src/main/java/org/springframework/integration/xquery/XQueryExecutor.java:124-149 | the check performed by the loops equals the specification of the parameter check |
| `ParameterCheck.CheckParametersFailsIff` | src/main/java/org/springframework/integration/xquery/XQueryExecutor.java:112-149 | the recorded-names check fails exactly when names were declared and the map is null or lacks one of them |
| `ParameterCheck.CheckParametersReportsMissing` | src/main/java/org/springframework/integration/xquery/XQueryExecutor.java:131-147 | a failure on a non-null map is a Messaging error whose text decodes to exactly the missing names, a name being missing iff declared and not a key |
| `ParameterCheck.CollectMissingParameters` | src/main/java/org/springframework/integration/xquery/XQueryExecutor.java:131-136 | the loop computes the declared names absent from the map, in declaration order |
| `ParameterCheck.MissingParametersMembership` | src/main/java/org/springframework/integration/xquery/XQueryExecutor.java:131-136 | a name is reported iff it is declared and not provided |
| `ParameterCheck.MissingParametersConcat` | src/main/java/org/springframework/integration/xquery/XQueryExecutor.java:131-136 | declaration order is kept: the missing names of a concatenation are the concatenation of the missing names |
| `ParameterCheck.MissingParametersSingle` | src/main/java/org/springframework/integration/xquery/XQueryExecutor.java:132-135 | a single declared name is reported iff it is not provided |
| `ParameterCheck.NoneMissingIff` | src/main/java/org/springframework/integration/xquery/XQueryExecutor.java:131-138 | nothing is missing iff every declared name is a key |
| `ParameterCheck.BuildMissingList` | src/main/java/org/springframework/integration/xquery/XQueryExecutor.java:139-146 | the builder loop yields `[`, the names each prefixed by `$` and separated by `, `, then `]` |
| `ParameterCheck.DollarListRoundTrip` | src/main/java/org/springframework/integration/xquery/XQueryExecutor.java:139-146 | names without commas are recovered from their `$`-list |
| `ParameterCheck.MissingParametersMessageRoundTrip` | src/main/java/org/springframework/integration/xquery/XQueryExecutor.java:138-147 | the whole "Missing parameter(s) [...]" text decodes back to the missing names |
| `ParameterCheck.NatToStringRoundTrip` | src/main/java/org/springframework/integration/xquery/XQueryExecutor.java:126-127 | the count in "Expecting n parameters" reads back as n and has no leading zero |
| `Executor.BindParameters` | src/main/java/org/springframework/integration/xquery/XQueryExecutor.java:264-274 | the binding loop equals the bindings specification: each declared name in order is looked up (a null map or absent entry failing with a null dereference) and then bound (a refused bind failing with the wrapped connection error) |
| `Executor.BindingsAfterCheck` | src/main/java/org/springframework/integration/xquery/XQueryExecutor.java:264-274 | after a passed parameter check no lookup fails: binding succeeds iff the engine accepts every bind, and then binds each declared name, in order, to its parameter's name and evaluated value |
| `Executor.BindingsStopAtFirstFailure` | src/main/java/org/springframework/integration/xquery/XQueryExecutor.java:264-274 | binding reports the error of the first declared name whose lookup or bind fails, whatever later names would do |
| `Executor.XQueryExecutor.Execute` | src/main/java/org/springframework/integration/xquery/XQueryExecutor.java:235-240 | the method returns what the execution specification gives: null-message and null-type refusals, a mapper lookup, then execution with that mapper |
| `Executor.XQueryExecutor.ExecuteWith` | src/main/java/org/springframework/integration/xquery/XQueryExecutor.java:250-293 | the method returns what the specification of execution with a given message and mapper, either possibly null, gives: a null message is a null dereference at the payload; then prepare, context-node bind, parameter binds and query run in source order, then the mapper |
| `Executor.MapResults` | src/main/java/org/springframework/integration/xquery/XQueryExecutor.java:276-277 | the dispatch on the mapper's kind yields the built-in mapper's specified result, or the user mapper's |
| `Executor.ExecuteNeedsMapper` | src/main/java/org/springframework/integration/xquery/XQueryExecutor.java:235-240 | a type without a registered mapper is refused with "No Result mapper found for the type " and the class name |
| `Executor.ExecuteWithoutNode` | src/main/java/org/springframework/integration/xquery/XQueryExecutor.java:250-255 | with a registered mapper, a payload without a node yields null |
| `Executor.ExecuteStandardType` | src/main/java/org/springframework/integration/xquery/XQueryExecutor.java:235-240 | after defaults are added, a standard type dispatches to the entry the user set, null included, else to its built-in mapper |
| `Executor.ExecuteForStrings` | src/main/java/org/springframework/integration/xquery/XQueryExecutor.java:250-277 | with the built-in string mapper, execution succeeds iff every item's cascade does, and yields one entry per result item, in order |
| `Executor.ExecuteNullMapper` | src/main/java/org/springframework/integration/xquery/XQueryExecutor.java:235-277 | a null mapper registered for the type is only dereferenced after the query has run, and then fails with a null dereference |
| `Executor.ExecuteContextBindFirst` | src/main/java/org/springframework/integration/xquery/XQueryExecutor.java:258-262 | a refused context-node bind fails execution with the wrapped connection error before any parameter is looked up |
| `ResultMappers.MapStringResults` | src/main/java/org/springframework/integration/xquery/XQueryExecutor.java:410-441 | the loop equals mapping each item through the string cascade, stopping at the first failure |
| `ResultMappers.MapBooleanResults` | src/main/java/org/springframework/integration/xquery/XQueryExecutor.java:447-467 | the loop equals mapping each item through the boolean cascade |
| `ResultMappers.MapNumberResults` | src/main/java/org/springframework/integration/xquery/XQueryExecutor.java:474-501 | the loop equals mapping each item through the number cascade |
| `ResultMappers.MapNodeResults` | src/main/java/org/springframework/integration/xquery/XQueryExecutor.java:507-521 | the loop equals the node-filter specification |
| `Wrappers.MapEachShape` | src/main/java/org/springframework/integration/xquery/XQueryExecutor.java:411-436 | a mapping succeeds iff every item's entry does, and then has one entry per item, the k-th being the k-th item's |
| `Wrappers.MapEachFirstFailure` | src/main/java/org/springframework/integration/xquery/XQueryExecutor.java:437-439 | a failed mapping carries the error of the first failing item, all earlier items having succeeded |
| `Wrappers.MapEachPrefixFailure` | src/main/java/org/springframework/integration/xquery/XQueryExecutor.java:437-439 | once an item fails, later items do not change the outcome |
| `ResultMappers.MapNodesPrefixFailure` | src/main/java/org/springframework/integration/xquery/XQueryExecutor.java:517-519 | once an item fails the node mapping, later items do not change the outcome |
| `ResultMappers.MapNodesSubsequence` | src/main/java/org/springframework/integration/xquery/XQueryExecutor.java:507-521 | the node mapping succeeds iff every node-typed item is a node; its output is the nodes of exactly the node-typed items at strictly increasing positions, never longer than the input |
| `ResultMappers.StringEntryNullIff` | src/main/java/org/springframework/integration/xquery/XQueryExecutor.java:414-434 | a string entry is null iff every step of the cascade gives null; it fails iff only the node step is left and the item is node-typed without being a node |
| `ResultMappers.BooleanEntryNullIff` | src/main/java/org/springframework/integration/xquery/XQueryExecutor.java:453-461 | a boolean entry is null iff there is no boolean conversion and the item is not node-typed; a node item always gives `Boolean.valueOf` of its text |
| `ResultMappers.NumberEntryParseBranch` | src/main/java/org/springframework/integration/xquery/XQueryExecutor.java:480-492 | a number parsed from node text is a double iff the text has a dot and does not start with one, otherwise a long |
| `ResultMappers.NumberEntryNull` | src/main/java/org/springframework/integration/xquery/XQueryExecutor.java:480-495 | blank or null node text, or an item neither number nor node, gives a null entry |
| `ResultMappers.NumberEntryFailsIff` | src/main/java/org/springframework/integration/xquery/XQueryExecutor.java:480-498 | without a number conversion, an entry fails exactly when the item is node-typed but not a node, or its node text is not blank and the parser chosen by the dot test rejects it; every failure is the wrapped mapping error |
| `ResultMappers.DoubleBranchIff` | src/main/java/org/springframework/integration/xquery/XQueryExecutor.java:486 | `indexOf(".") > 0` holds iff a dot occurs and the text does not start with one |
| `ResultMappers.IndexOf` | src/main/java/org/springframework/integration/xquery/XQueryExecutor.java:486 | the result is -1 iff the character is absent, otherwise its first position |

## Left out

- The XQuery engine (connection, `prepareExpression`, `getAllExternalVariables`, `close`, `bindNode`, `bindObject`, `executeQuery`): it is a foreign library. It is the `prepare`, `closePrepared`, `bindContextItem`, `bindObject` and `executeQuery` collaborators; each failure is read as the wrapped "Caught Exception while opening a connection to the datasource" error. In `execute`, `prepare` stands for connecting and preparing, and only whether it succeeds is used.
- Closing the expression and the connection in the `finally` block of `execute` (lines 281-291): errors there are only logged, so they have no effect on the result. The close in `afterPropertiesSet` is modelled.
- `XQueryUtils.readXQueryFromResource`: file I/O; it is the `readXQueryFromResource` collaborator, which may fail.
- `XmlPayloadConverter.convertToNode` and `XQueryParameter.evaluate`: foreign calls; opaque collaborators, the converter able to return null.
- `convertToString`, `convertToNumber`, `convertToBoolean`, `isNodeType`, `transformNodeToString`, `Number.toString`: their class is not part of this model, so they are uninterpreted helpers. Exceptions they might throw are not modelled.
- `Double.valueOf` and `Long.valueOf`: only which parser is called, and whether it accepts the text, are modelled; the numeric value is not.
- `XQueryRouterParser`: it only wires bean definitions.
- Logging, `volatile` visibility, and the exception cause chain: each failure is one error value.
- Mapper objects: they are values, so a user mapper shared with other code does not see `setFormatOutput` through aliasing. The loop over the table's values in `setResultMappers` is a map comprehension, because map order has no effect.
- A null element inside a parameter list, or a null parameter passed to `addXQueryParameter`: both would throw a NullPointerException, and the model has no such input.
- Executor.XQueryExecutor.SetXQueryParameterMap: the parameter map is a value, so the sharing of the caller's map is not captured. `setXQueryParameterMap` stores the caller's map itself, and `addXQueryParameter` and `setXQueryParameters` then write into it; an edit the caller makes after initialisation reaches the binding loop. A null value stored under a key in a caller's map (a key present, so the check passes, and a NullPointerException at binding) is not modelled either: the map's values are parameters, never null.
- XQJ's `getNode` is not part of this model: it is assumed to throw on an item that is not a node, and `ResultMappers.GetNode` encodes that assumption by returning None, so a node-typed item without a node fails the mapping.
- External-variable names: only their local parts matter, so the engine returns them directly as strings.
- A null query at execution time: XQJ rejects a null expression with an XQException, so it is read as the wrapped connection failure.
- Java strings are UTF-16; `hasText` and `indexOf` are modelled on Unicode code points. `hasText` uses the whitespace set of Java 6 to 8, which counts U+180E as whitespace; later Java versions do not.
