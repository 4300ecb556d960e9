/** The executor: its configuration (query text or query file, parameter map,
    result mapper table), the initialisation check, and the dispatch of a query
    execution to the mapper registered for the requested type. */
module Executor {
  import opened Wrappers
  import opened XQueryTypes
  import opened ParameterCheck
  import opened ResultMappers

  const NoQuerySourceMessage: string := "One of XQuery or the XQuery resource is mandatory"
  const ConnectionFailureMessage: string := "Caught Exception while opening a connection to the datasource"
  const OnlyOneSourceMessage: string := "Only one of XQuery resource file or XQuery may be specified"
  const NullQueryMessage: string := "Provide a non null XQuery"
  const NullDataSourceMessage: string := "Provide a non null instance of the XQDatasource"
  const NullConverterMessage: string := "Provide a non null instance of XmlPayloadConverter"
  const NullArgumentMessage: string := "[Assertion failed] - this argument is required; it must not be null"
  const NullMessageMessage: string := "Non null message expected"
  const NullTypeMessage: string := "Non null type expected"
  const NoMapperMessage: string := "No Result mapper found for the type "

  // ---------------------------------------------------------------------------
  // The result mapper table
  // ---------------------------------------------------------------------------

  /** The built-in mapper kind of each standard type. */
  function DefaultKind(t: TargetType): MapperKind
    requires t in StandardTypes
  {
    if t == StringClass then StringResultMapper
    else if t == BooleanClass then BooleanResultMapper
    else if t == NumberClass then NumberResultMapper
    else NodeResultMapper
  }

  /** The mapper table: a Java map may hold null under a key, so an entry is an
      optional mapper. */
  type MapperTable = map<TargetType, Option<Mapper>>

  function PutIfAbsent(m: MapperTable, t: TargetType, mapper: Mapper): MapperTable {
    if t in m then m else m[t := Some(mapper)]
  }

  /** The table after the default mappers are added, each carrying the given
      format flag. */
  function WithDefaultMappers(m: MapperTable, formatOutput: bool): MapperTable {
    var m1 := PutIfAbsent(m, StringClass, Mapper(StringResultMapper, formatOutput));
    var m2 := PutIfAbsent(m1, BooleanClass, Mapper(BooleanResultMapper, formatOutput));
    var m3 := PutIfAbsent(m2, NumberClass, Mapper(NumberResultMapper, formatOutput));
    PutIfAbsent(m3, NodeClass, Mapper(NodeResultMapper, formatOutput))
  }

  /** Adding the defaults keeps every entry already in the table, a null one
      included, adds exactly the standard types that were absent, each with its
      built-in mapper, and adding them a second time changes nothing. */
  lemma DefaultMappersKeepExisting(m: MapperTable, formatOutput: bool, formatOutput': bool)
    ensures WithDefaultMappers(m, formatOutput).Keys == m.Keys + StandardTypes
    ensures forall t :: t in m ==> WithDefaultMappers(m, formatOutput)[t] == m[t]
    ensures forall t :: t in StandardTypes && t !in m ==>
              WithDefaultMappers(m, formatOutput)[t] == Some(Mapper(DefaultKind(t), formatOutput))
    ensures WithDefaultMappers(WithDefaultMappers(m, formatOutput), formatOutput') == WithDefaultMappers(m, formatOutput)
  {
  }

  lemma DefaultMappersCover(m: MapperTable, formatOutput: bool)
    ensures StandardTypes <= WithDefaultMappers(m, formatOutput).Keys
  {
  }

  /** A mapper after `setFormatOutput`: only mappers extending the abstract
      mapper class take the flag. */
  function SetFormat(mapper: Mapper, formatOutput: bool): Mapper {
    if mapper.kind.UserMapper? && !mapper.kind.extendsAbstractMapper then mapper
    else Mapper(mapper.kind, formatOutput)
  }

  /** The copied table: a null entry is no instance of the abstract mapper
      class, so it stays null. */
  function WithFormat(m: MapperTable, formatOutput: bool): MapperTable {
    map t | t in m :: if m[t].None? then None else Some(SetFormat(m[t].value, formatOutput))
  }

  /** Setting a mapper table keeps its keys, its null entries and its mapper
      kinds; each mapper that honours the flag now carries the executor's flag,
      the others are untouched. */
  lemma WithFormatKeepsMappers(m: MapperTable, formatOutput: bool)
    ensures WithFormat(m, formatOutput).Keys == m.Keys
    ensures forall t :: t in m ==> (WithFormat(m, formatOutput)[t].None? <==> m[t].None?)
    ensures forall t :: t in m && m[t].Some? ==> WithFormat(m, formatOutput)[t].value.kind == m[t].value.kind
    ensures forall t :: t in m && m[t].Some? && !(m[t].value.kind.UserMapper? && !m[t].value.kind.extendsAbstractMapper) ==>
              WithFormat(m, formatOutput)[t].value.formatOutput == formatOutput
    ensures forall t :: t in m && m[t].Some? && m[t].value.kind.UserMapper? && !m[t].value.kind.extendsAbstractMapper ==>
              WithFormat(m, formatOutput)[t] == m[t]
  {
  }

  // ---------------------------------------------------------------------------
  // The parameter map
  // ---------------------------------------------------------------------------

  /** The parameter map after putting each parameter under its own name, in
      list order. */
  function PutAll(m: map<string, XQueryParameter>, params: seq<XQueryParameter>): map<string, XQueryParameter>
    decreases |params|
  {
    if |params| == 0 then m
    else
      var last := params[|params| - 1];
      PutAll(m, params[..|params| - 1])[last.parameterName := last]
  }

  /** Entries under a name no listed parameter has are kept, and no entry is
      invented for such a name. */
  lemma {:induction false} PutAllKeepsOthers(m: map<string, XQueryParameter>, params: seq<XQueryParameter>, name: string)
    requires forall i :: 0 <= i < |params| ==> params[i].parameterName != name
    ensures name in PutAll(m, params) <==> name in m
    ensures name in m ==> PutAll(m, params)[name] == m[name]
    decreases |params|
  {
    if |params| > 0 {
      PutAllKeepsOthers(m, params[..|params| - 1], name);
    }
  }

  /** The entry under a listed name is the last parameter in the list with that
      name. */
  lemma {:induction false} PutAllLastWins(m: map<string, XQueryParameter>, params: seq<XQueryParameter>, i: nat)
    requires i < |params|
    requires forall j :: i < j < |params| ==> params[j].parameterName != params[i].parameterName
    ensures params[i].parameterName in PutAll(m, params)
    ensures PutAll(m, params)[params[i].parameterName] == params[i]
    decreases |params|
  {
    if i < |params| - 1 {
      PutAllLastWins(m, params[..|params| - 1], i);
    }
  }

  // ---------------------------------------------------------------------------
  // Initialisation
  // ---------------------------------------------------------------------------

  /** The query text: the one set, else the contents of the query file. */
  function LoadQuery(env: Collaborators, query: Option<string>, resource: Option<Resource>): Result<string, Error> {
    if query.Some? then Success(query.value)
    else if resource.None? then Failure(IllegalArgument(NoQuerySourceMessage))
    else env.readXQueryFromResource(resource.value)
  }

  /** What initialisation leaves in the query and declared-parameter fields, and
      whether it passes. */
  datatype Initialisation = Initialisation(query: Option<string>, parameters: Option<seq<string>>, outcome: Outcome<Error>)

  function Initialise(env: Collaborators, dataSource: DataSource, query: Option<string>, resource: Option<Resource>,
                      parameters: Option<seq<string>>, parameterMap: Option<map<string, XQueryParameter>>): Initialisation
  {
    match LoadQuery(env, query, resource)
    case Failure(e) => Initialisation(query, parameters, Fail(e))
    case Success(q) =>
      match env.prepare(dataSource, q)
      case None => Initialisation(Some(q), parameters, Fail(Messaging(ConnectionFailureMessage)))
      case Some(names) =>
        // the names are recorded before the expression and connection are closed
        var ps := DeclaredParameters(names, parameters);
        if !env.closePrepared(dataSource, q) then Initialisation(Some(q), ps, Fail(Messaging(ConnectionFailureMessage)))
        else Initialisation(Some(q), ps, CheckParameters(ps, parameterMap))
  }

  /** On an executor not yet initialised, with a query the engine prepares,
      initialisation fails exactly when closing the expression or connection
      fails, or the query declares external variables and either no parameter
      map is set or one of the names is not a key of it. A failed close is the
      wrapped connection error, and the declared names are recorded all the
      same. A query without external variables passes once closing succeeds. */
  lemma InitialiseFailsIff(env: Collaborators, dataSource: DataSource, query: Option<string>, resource: Option<Resource>,
                           parameterMap: Option<map<string, XQueryParameter>>, names: seq<string>)
    requires LoadQuery(env, query, resource).Success?
    requires env.prepare(dataSource, LoadQuery(env, query, resource).value) == Some(names)
    ensures Initialise(env, dataSource, query, resource, None, parameterMap).outcome.Fail? <==>
            !env.closePrepared(dataSource, LoadQuery(env, query, resource).value) ||
            (|names| > 0 &&
             (parameterMap.None? || exists i :: 0 <= i < |names| && names[i] !in parameterMap.value))
    ensures !env.closePrepared(dataSource, LoadQuery(env, query, resource).value) ==>
            Initialise(env, dataSource, query, resource, None, parameterMap) ==
            Initialisation(Some(LoadQuery(env, query, resource).value), if |names| > 0 then Some(names) else None,
                           Fail(Messaging(ConnectionFailureMessage)))
    ensures |names| == 0 && env.closePrepared(dataSource, LoadQuery(env, query, resource).value) ==>
            Initialise(env, dataSource, query, resource, None, parameterMap).outcome == Pass
  {
    CheckParametersFailsIff(names, parameterMap);
  }

  /** Without query text, initialisation needs a query file. */
  lemma InitialiseNeedsSource(env: Collaborators, dataSource: DataSource, parameters: Option<seq<string>>,
                              parameterMap: Option<map<string, XQueryParameter>>)
    ensures Initialise(env, dataSource, None, None, parameters, parameterMap) ==
            Initialisation(None, parameters, Fail(IllegalArgument(NoQuerySourceMessage)))
  {
  }

  // ---------------------------------------------------------------------------
  // Execution
  // ---------------------------------------------------------------------------

  /** A parameter's name with its value evaluated against the message. */
  function ParameterBinding(env: Collaborators, p: XQueryParameter, message: Message): Binding {
    Binding(p.parameterName, env.evaluate(p, message))
  }

  /** One step of the binding loop: look the declared name up, then bind the
      parameter stored under it, under the parameter's own name. A null map or
      a missing entry is a null dereference; a bind the engine refuses is the
      wrapped connection error. */
  function BindOne(env: Collaborators, dataSource: DataSource, query: string,
                   parameterMap: Option<map<string, XQueryParameter>>, message: Message,
                   name: string): Result<Binding, Error>
  {
    if parameterMap.None? || name !in parameterMap.value then Failure(NullPointer)
    else
      var b := ParameterBinding(env, parameterMap.value[name], message);
      if env.bindObject(dataSource, query, b) then Success(b) else Failure(Messaging(ConnectionFailureMessage))
  }

  function Binder(env: Collaborators, dataSource: DataSource, query: string,
                  parameterMap: Option<map<string, XQueryParameter>>, message: Message): string -> Result<Binding, Error> {
    name => BindOne(env, dataSource, query, parameterMap, message, name)
  }

  /** The bindings of all declared names, in declaration order; the first step
      that fails ends the loop. */
  function Bindings(env: Collaborators, dataSource: DataSource, query: string, parameters: Option<seq<string>>,
                    parameterMap: Option<map<string, XQueryParameter>>, message: Message): Result<seq<Binding>, Error>
  {
    match parameters
    case None => Success([])
    case Some(ps) => MapEach(ps, Binder(env, dataSource, query, parameterMap, message))
  }

  /** The loop that binds the declared parameters. */
  method BindParameters(env: Collaborators, dataSource: DataSource, query: string, parameters: Option<seq<string>>,
                        parameterMap: Option<map<string, XQueryParameter>>, message: Message)
    returns (r: Result<seq<Binding>, Error>)
    ensures r == Bindings(env, dataSource, query, parameters, parameterMap, message)
  {
    var bindings: seq<Binding> := [];
    if parameters.Some? && |parameters.value| > 0 {
      var ps := parameters.value;
      var i := 0;
      while i < |ps|
        invariant 0 <= i <= |ps|
        invariant MapEach(ps[..i], Binder(env, dataSource, query, parameterMap, message)) == Success(bindings)
      {
        assert ps[..i + 1][..i] == ps[..i];
        if parameterMap.None? || ps[i] !in parameterMap.value {
          MapEachPrefixFailure(ps, i + 1, Binder(env, dataSource, query, parameterMap, message));
          return Failure(NullPointer);
        }
        var p := parameterMap.value[ps[i]];
        var b := Binding(p.parameterName, env.evaluate(p, message));
        if !env.bindObject(dataSource, query, b) {
          MapEachPrefixFailure(ps, i + 1, Binder(env, dataSource, query, parameterMap, message));
          return Failure(Messaging(ConnectionFailureMessage));
        }
        bindings := bindings + [b];
        i := i + 1;
      }
      assert ps[..i] == ps;
    }
    r := Success(bindings);
  }

  /** Binding stops at the first declared name whose step fails and reports
      that step's error: a refused bind before a missing entry is the wrapped
      connection error, a missing entry before a refused bind a null
      dereference. */
  lemma BindingsStopAtFirstFailure(env: Collaborators, dataSource: DataSource, query: string, ps: seq<string>,
                                   parameterMap: Option<map<string, XQueryParameter>>, message: Message, i: nat)
    requires i < |ps|
    requires forall j :: 0 <= j < i ==> BindOne(env, dataSource, query, parameterMap, message, ps[j]).Success?
    requires BindOne(env, dataSource, query, parameterMap, message, ps[i]).Failure?
    ensures Bindings(env, dataSource, query, Some(ps), parameterMap, message) ==
            Failure(BindOne(env, dataSource, query, parameterMap, message, ps[i]).error)
  {
    var binder := Binder(env, dataSource, query, parameterMap, message);
    var prefix := ps[..i + 1];
    assert prefix[..i] == ps[..i];
    MapEachShape(ps[..i], binder);
    MapEachPrefixFailure(ps, i + 1, binder);
  }

  /** Once the parameter check passed, no lookup fails: binding succeeds
      exactly when the engine accepts every bind, and then binds each declared
      name, in order, to the parameter stored under it. */
  lemma BindingsAfterCheck(env: Collaborators, dataSource: DataSource, query: string, ps: seq<string>,
                           parameterMap: Option<map<string, XQueryParameter>>, message: Message)
    requires CheckParameters(Some(ps), parameterMap) == Pass
    ensures parameterMap.Some? && forall k :: 0 <= k < |ps| ==> ps[k] in parameterMap.value
    ensures Bindings(env, dataSource, query, Some(ps), parameterMap, message).Success? <==>
            forall k :: 0 <= k < |ps| ==>
              env.bindObject(dataSource, query, ParameterBinding(env, parameterMap.value[ps[k]], message))
    ensures Bindings(env, dataSource, query, Some(ps), parameterMap, message).Success? ==>
            |Bindings(env, dataSource, query, Some(ps), parameterMap, message).value| == |ps| &&
            forall k :: 0 <= k < |ps| ==>
              Bindings(env, dataSource, query, Some(ps), parameterMap, message).value[k] ==
              ParameterBinding(env, parameterMap.value[ps[k]], message)
  {
    NoneMissingIff(ps, parameterMap.value.Keys);
    MapEachShape(ps, Binder(env, dataSource, query, parameterMap, message));
  }

  /** The result of running a mapper over the result sequence: the
      specification that `MapResults` is proved to compute. */
  function MapWith(env: Collaborators, mapper: Mapper, items: seq<Item>): Result<MappedResults, Error> {
    var h := env.helpers;
    match mapper.kind
    case StringResultMapper =>
      (match MapEach(items, StringEntries(h, mapper.formatOutput))
       case Failure(e) => Failure(e)
       case Success(v) => Success(Strings(v)))
    case BooleanResultMapper =>
      (match MapEach(items, BooleanEntries(h, mapper.formatOutput))
       case Failure(e) => Failure(e)
       case Success(v) => Success(Booleans(v)))
    case NumberResultMapper =>
      (match MapEach(items, NumberEntries(h, mapper.formatOutput))
       case Failure(e) => Failure(e)
       case Success(v) => Success(Numbers(v)))
    case NodeResultMapper =>
      (match MapNodes(h, items)
       case Failure(e) => Failure(e)
       case Success(v) => Success(Nodes(v)))
    case UserMapper(_, _) => env.userMapResults(mapper, items)
  }

  /** `mapper.mapResults(result)`: the dispatch, calling the loop method of the
      built-in mapper. */
  method MapResults(env: Collaborators, mapper: Mapper, items: seq<Item>) returns (r: Result<MappedResults, Error>)
    ensures r == MapWith(env, mapper, items)
  {
    match mapper.kind {
      case StringResultMapper =>
        var v := MapStringResults(env.helpers, mapper.formatOutput, items);
        r := if v.Failure? then Failure(v.error) else Success(Strings(v.value));
      case BooleanResultMapper =>
        var v := MapBooleanResults(env.helpers, mapper.formatOutput, items);
        r := if v.Failure? then Failure(v.error) else Success(Booleans(v.value));
      case NumberResultMapper =>
        var v := MapNumberResults(env.helpers, mapper.formatOutput, items);
        r := if v.Failure? then Failure(v.error) else Success(Numbers(v.value));
      case NodeResultMapper =>
        var v := MapNodeResults(env.helpers, items);
        r := if v.Failure? then Failure(v.error) else Success(Nodes(v.value));
      case UserMapper(_, _) =>
        r := env.userMapResults(mapper, items);
    }
  }

  // ---------------------------------------------------------------------------
  // The executor object
  // ---------------------------------------------------------------------------

  class XQueryExecutor {
    var converter: Converter
    var resultMappers: Option<MapperTable>
    var formatOutput: bool
    var xQuery: Option<string>
    var xqDataSource: Option<DataSource>
    var xQueryParameterMap: Option<map<string, XQueryParameter>>
    // the declared external-variable names, recorded by initialisation
    var xQueryParameters: Option<seq<string>>
    var xQueryFileResource: Option<Resource>

    /** At most one of query text and query file is set. */
    predicate SourcesExclusive()
      reads this
    {
      xQuery.None? || xQueryFileResource.None?
    }

    constructor ()
      ensures converter == DefaultXmlPayloadConverter && resultMappers == None && !formatOutput
      ensures xQuery == None && xqDataSource == None && xQueryParameterMap == None
      ensures xQueryParameters == None && xQueryFileResource == None
    {
      converter := DefaultXmlPayloadConverter;
      resultMappers := None;
      formatOutput := false;
      xQuery := None;
      xqDataSource := None;
      xQueryParameterMap := None;
      xQueryParameters := None;
      xQueryFileResource := None;
    }

    method SetXQuery(query: Option<string>) returns (r: Outcome<Error>)
      modifies this`xQuery
      ensures xQueryFileResource.Some? ==> r == Fail(IllegalArgument(OnlyOneSourceMessage)) && xQuery == old(xQuery)
      ensures xQueryFileResource.None? && query.None? ==> r == Fail(IllegalArgument(NullQueryMessage)) && xQuery == old(xQuery)
      ensures xQueryFileResource.None? && query.Some? ==> r == Pass && xQuery == query
      ensures r.Pass? ==> SourcesExclusive()
    {
      if xQueryFileResource.Some? {
        return Fail(IllegalArgument(OnlyOneSourceMessage));
      }
      if query.None? {
        return Fail(IllegalArgument(NullQueryMessage));
      }
      xQuery := query;
      r := Pass;
    }

    method SetXQueryFileResource(resource: Option<Resource>) returns (r: Outcome<Error>)
      modifies this`xQueryFileResource
      ensures xQuery.Some? ==> r == Fail(IllegalArgument(OnlyOneSourceMessage)) && xQueryFileResource == old(xQueryFileResource)
      ensures xQuery.None? ==> r == Pass && xQueryFileResource == resource
      ensures r.Pass? ==> SourcesExclusive()
    {
      if xQuery.Some? {
        return Fail(IllegalArgument(OnlyOneSourceMessage));
      }
      xQueryFileResource := resource;
      r := Pass;
    }

    method SetXQDataSource(dataSource: Option<DataSource>) returns (r: Outcome<Error>)
      modifies this`xqDataSource
      ensures dataSource.None? ==> r == Fail(IllegalArgument(NullDataSourceMessage)) && xqDataSource == old(xqDataSource)
      ensures dataSource.Some? ==> r == Pass && xqDataSource == dataSource
    {
      if dataSource.None? {
        return Fail(IllegalArgument(NullDataSourceMessage));
      }
      xqDataSource := dataSource;
      r := Pass;
    }

    method SetConverter(c: Option<Converter>) returns (r: Outcome<Error>)
      modifies this`converter
      ensures c.None? ==> r == Fail(IllegalArgument(NullConverterMessage)) && converter == old(converter)
      ensures c.Some? ==> r == Pass && converter == c.value
    {
      if c.None? {
        return Fail(IllegalArgument(NullConverterMessage));
      }
      converter := c.value;
      r := Pass;
    }

    method SetFormatOutput(f: bool)
      modifies this`formatOutput
      ensures formatOutput == f
    {
      formatOutput := f;
    }

    /** Replaces the table by a copy of `mappers`, each mapper that honours the
        flag taking the executor's current format setting. */
    method SetResultMappers(mappers: Option<MapperTable>) returns (r: Outcome<Error>)
      modifies this`resultMappers
      ensures mappers.None? ==> r == Fail(IllegalArgument(NullArgumentMessage)) && resultMappers == old(resultMappers)
      ensures mappers.Some? ==> r == Pass && resultMappers == Some(WithFormat(mappers.value, formatOutput))
    {
      if mappers.None? {
        return Fail(IllegalArgument(NullArgumentMessage));
      }
      resultMappers := Some(WithFormat(mappers.value, formatOutput));
      r := Pass;
    }

    method SetXQueryParameterMap(parameterMap: Option<map<string, XQueryParameter>>)
      modifies this`xQueryParameterMap
      ensures xQueryParameterMap == parameterMap
    {
      xQueryParameterMap := parameterMap;
    }

    /** Puts one parameter under its name, creating the map when it is null. */
    method AddXQueryParameter(param: XQueryParameter)
      modifies this`xQueryParameterMap
      ensures xQueryParameterMap == Some(PutAll(old(xQueryParameterMap).GetOr(map[]), [param]))
    {
      var m := if xQueryParameterMap.None? then map[] else xQueryParameterMap.value;
      xQueryParameterMap := Some(m[param.parameterName := param]);
    }

    /** Puts each listed parameter under its name; a null or empty list leaves
        the map as it is, a null map included. */
    method SetXQueryParameters(params: Option<seq<XQueryParameter>>)
      modifies this`xQueryParameterMap
      ensures params.Some? && |params.value| > 0 ==>
                xQueryParameterMap == Some(PutAll(old(xQueryParameterMap).GetOr(map[]), params.value))
      ensures params.None? || |params.value| == 0 ==> xQueryParameterMap == old(xQueryParameterMap)
    {
      if params.Some? && |params.value| > 0 {
        var ps := params.value;
        if xQueryParameterMap.None? {
          xQueryParameterMap := Some(map[]);
        }
        ghost var base := xQueryParameterMap.value;
        var i := 0;
        while i < |ps|
          invariant 0 <= i <= |ps|
          invariant xQueryParameterMap == Some(PutAll(base, ps[..i]))
        {
          assert ps[..i + 1][..i] == ps[..i];
          xQueryParameterMap := Some(xQueryParameterMap.value[ps[i].parameterName := ps[i]]);
          i := i + 1;
        }
        assert ps[..i] == ps;
      }
    }

    /** Adds a default mapper for each standard type the table lacks. */
    method AddDefaultMappers()
      requires resultMappers.Some?
      modifies this`resultMappers
      ensures resultMappers == Some(WithDefaultMappers(old(resultMappers).value, formatOutput))
    {
      var m := resultMappers.value;
      if StringClass !in m {
        m := m[StringClass := Some(Mapper(StringResultMapper, formatOutput))];
      }
      if BooleanClass !in m {
        m := m[BooleanClass := Some(Mapper(BooleanResultMapper, formatOutput))];
      }
      if NumberClass !in m {
        m := m[NumberClass := Some(Mapper(NumberResultMapper, formatOutput))];
      }
      if NodeClass !in m {
        m := m[NodeClass := Some(Mapper(NodeResultMapper, formatOutput))];
      }
      resultMappers := Some(m);
    }

    /** Completes the configuration and checks that every external variable of
        the query has a parameter. */
    method AfterPropertiesSet(env: Collaborators) returns (r: Outcome<Error>)
      modifies this`resultMappers, this`xqDataSource, this`xQuery, this`xQueryParameters
      ensures resultMappers == Some(WithDefaultMappers(old(resultMappers).GetOr(map[]), formatOutput))
      ensures xqDataSource == Some(old(xqDataSource).GetOr(SaxonXQDataSource))
      ensures var init := Initialise(env, xqDataSource.value, old(xQuery), xQueryFileResource,
                                     old(xQueryParameters), xQueryParameterMap);
              xQuery == init.query && xQueryParameters == init.parameters && r == init.outcome
      ensures r.Pass? ==> xQuery.Some? && StandardTypes <= resultMappers.value.Keys &&
                          CheckParameters(xQueryParameters, xQueryParameterMap) == Pass
    {
      if resultMappers.None? {
        resultMappers := Some(map[]);
      }
      AddDefaultMappers();
      DefaultMappersCover(old(resultMappers).GetOr(map[]), formatOutput);
      if xqDataSource.None? {
        xqDataSource := Some(SaxonXQDataSource);
      }
      r := InitialiseQuery(env);
    }

    /** The part of `afterPropertiesSet` after the data source is settled: load
        the query, prepare it, record its external variables, close, and check
        the names against the parameter map. */
    method InitialiseQuery(env: Collaborators) returns (r: Outcome<Error>)
      requires xqDataSource.Some?
      modifies this`xQuery, this`xQueryParameters
      ensures var init := Initialise(env, xqDataSource.value, old(xQuery), xQueryFileResource,
                                     old(xQueryParameters), xQueryParameterMap);
              xQuery == init.query && xQueryParameters == init.parameters && r == init.outcome
      ensures r.Pass? ==> xQuery.Some? && CheckParameters(xQueryParameters, xQueryParameterMap) == Pass
    {
      if xQuery.None? {
        if xQueryFileResource.None? {
          return Fail(IllegalArgument(NoQuerySourceMessage));
        }
        var read := env.readXQueryFromResource(xQueryFileResource.value);
        if read.Failure? {
          return Fail(read.error);
        }
        xQuery := Some(read.value);
      }
      var extParameters := env.prepare(xqDataSource.value, xQuery.value);
      if extParameters.None? {
        return Fail(Messaging(ConnectionFailureMessage));
      }
      if |extParameters.value| > 0 {
        xQueryParameters := Some(extParameters.value);
      }
      if !env.closePrepared(xqDataSource.value, xQuery.value) {
        return Fail(Messaging(ConnectionFailureMessage));
      }
      r := CheckDeclaredParameters(xQueryParameters, xQueryParameterMap);
    }

    /** What `execute(message, mapper)` returns, the specification that
        `ExecuteWith` is proved to compute: null when the payload has no node;
        otherwise the steps in source order (connect and prepare, bind the
        context node, bind each parameter, run the query), each engine failure
        being the wrapped connection error, and last the mapper, which a null
        mapper fails with a null dereference. */
    function ExecutionWith(env: Collaborators, message: Option<Message>, mapper: Option<Mapper>): Result<Option<MappedResults>, Error>
      reads this
    {
      // this overload reads the payload without a null check
      if message.None? then Failure(NullPointer)
      else
      match env.convertToNode(converter, message.value.payload)
      case None => Success(None)
      case Some(node) =>
        if xqDataSource.None? then Failure(NullPointer)
        // XQJ refuses a null expression with an XQException
        else if xQuery.None? || env.prepare(xqDataSource.value, xQuery.value).None? then
          Failure(Messaging(ConnectionFailureMessage))
        else if !env.bindContextItem(xqDataSource.value, xQuery.value, node) then
          Failure(Messaging(ConnectionFailureMessage))
        else
          match Bindings(env, xqDataSource.value, xQuery.value, xQueryParameters, xQueryParameterMap, message.value)
          case Failure(e) => Failure(e)
          case Success(bindings) =>
            match env.executeQuery(xqDataSource.value, xQuery.value, node, bindings)
            case None => Failure(Messaging(ConnectionFailureMessage))
            case Some(items) =>
              if mapper.None? then Failure(NullPointer)
              else
                match MapWith(env, mapper.value, items)
                case Failure(e) => Failure(e)
                case Success(results) => Success(Some(results))
    }

    /** What `execute(message, returnType)` returns, the specification that
        `Execute` is proved to compute. */
    function Execution(env: Collaborators, message: Option<Message>, returnType: Option<TargetType>): Result<Option<MappedResults>, Error>
      reads this
    {
      if message.None? then Failure(IllegalArgument(NullMessageMessage))
      else if returnType.None? then Failure(IllegalArgument(NullTypeMessage))
      else if resultMappers.None? then Failure(NullPointer)
      else if returnType.value !in resultMappers.value then
        Failure(IllegalArgument(NoMapperMessage + returnType.value.name))
      else ExecutionWith(env, message, resultMappers.value[returnType.value])
    }

    /** `execute(message, mapper)`. */
    method ExecuteWith(env: Collaborators, message: Option<Message>, mapper: Option<Mapper>)
      returns (r: Result<Option<MappedResults>, Error>)
      ensures r == ExecutionWith(env, message, mapper)
    {
      if message.None? {
        return Failure(NullPointer);
      }
      var node := env.convertToNode(converter, message.value.payload);
      if node.None? {
        return Success(None);
      }
      if xqDataSource.None? {
        return Failure(NullPointer);
      }
      if xQuery.None? {
        return Failure(Messaging(ConnectionFailureMessage));
      }
      var dataSource, query := xqDataSource.value, xQuery.value;
      var prepared := env.prepare(dataSource, query);
      if prepared.None? {
        return Failure(Messaging(ConnectionFailureMessage));
      }
      if !env.bindContextItem(dataSource, query, node.value) {
        return Failure(Messaging(ConnectionFailureMessage));
      }
      var bindings := BindParameters(env, dataSource, query, xQueryParameters, xQueryParameterMap, message.value);
      if bindings.Failure? {
        return Failure(bindings.error);
      }
      var result := env.executeQuery(dataSource, query, node.value, bindings.value);
      if result.None? {
        return Failure(Messaging(ConnectionFailureMessage));
      }
      if mapper.None? {
        return Failure(NullPointer);
      }
      var mapped := MapResults(env, mapper.value, result.value);
      if mapped.Failure? {
        return Failure(mapped.error);
      }
      r := Success(Some(mapped.value));
    }

    /** `execute(message, returnType)`. */
    method Execute(env: Collaborators, message: Option<Message>, returnType: Option<TargetType>)
      returns (r: Result<Option<MappedResults>, Error>)
      ensures r == Execution(env, message, returnType)
    {
      if message.None? {
        return Failure(IllegalArgument(NullMessageMessage));
      }
      if returnType.None? {
        return Failure(IllegalArgument(NullTypeMessage));
      }
      if resultMappers.None? {
        return Failure(NullPointer);
      }
      if returnType.value !in resultMappers.value {
        return Failure(IllegalArgument(NoMapperMessage + returnType.value.name));
      }
      r := ExecuteWith(env, message, resultMappers.value[returnType.value]);
    }
  }

  // ---------------------------------------------------------------------------
  // Properties of execution
  // ---------------------------------------------------------------------------

  /** A type without a registered mapper is refused, naming the type. */
  lemma ExecuteNeedsMapper(e: XQueryExecutor, env: Collaborators, message: Message, t: TargetType)
    requires e.resultMappers.Some? && t !in e.resultMappers.value
    ensures e.Execution(env, Some(message), Some(t)) == Failure(IllegalArgument(NoMapperMessage + t.name))
  {
  }

  /** With a registered mapper, a payload the converter gives no node for yields
      null, before the engine is touched. */
  lemma ExecuteWithoutNode(e: XQueryExecutor, env: Collaborators, message: Message, t: TargetType)
    requires e.resultMappers.Some? && t in e.resultMappers.value
    requires env.convertToNode(e.converter, message.payload).None?
    ensures e.Execution(env, Some(message), Some(t)) == Success(None)
  {
  }

  /** After the defaults are added, each standard type dispatches: to the
      user's mapper if one was set, otherwise to its built-in mapper. */
  lemma ExecuteStandardType(e: XQueryExecutor, env: Collaborators, message: Message, t: TargetType,
                            m: MapperTable, formatOutput: bool)
    requires e.resultMappers == Some(WithDefaultMappers(m, formatOutput)) && t in StandardTypes
    ensures e.Execution(env, Some(message), Some(t)) ==
            e.ExecutionWith(env, Some(message), if t in m then m[t] else Some(Mapper(DefaultKind(t), formatOutput)))
  {
    DefaultMappersKeepExisting(m, formatOutput, formatOutput);
  }

  /** With the built-in string mapper, a query run whose result sequence is
      `items` succeeds exactly when the cascade succeeds on every item, and then
      yields one string entry per item, in order. */
  lemma ExecuteForStrings(e: XQueryExecutor, env: Collaborators, message: Message, node: NodeRef,
                          bindings: seq<Binding>, items: seq<Item>, formatOutput: bool)
    requires e.xqDataSource.Some? && e.xQuery.Some?
    requires env.convertToNode(e.converter, message.payload) == Some(node)
    requires env.prepare(e.xqDataSource.value, e.xQuery.value).Some?
    requires env.bindContextItem(e.xqDataSource.value, e.xQuery.value, node)
    requires Bindings(env, e.xqDataSource.value, e.xQuery.value, e.xQueryParameters, e.xQueryParameterMap, message) ==
             Success(bindings)
    requires env.executeQuery(e.xqDataSource.value, e.xQuery.value, node, bindings) == Some(items)
    ensures e.ExecutionWith(env, Some(message), Some(Mapper(StringResultMapper, formatOutput))).Success? <==>
            forall k :: 0 <= k < |items| ==> StringEntry(env.helpers, formatOutput, items[k]).Success?
    ensures e.ExecutionWith(env, Some(message), Some(Mapper(StringResultMapper, formatOutput))).Success? ==>
            var r := e.ExecutionWith(env, Some(message), Some(Mapper(StringResultMapper, formatOutput))).value;
            r.Some? && r.value.Strings? && |r.value.strings| == |items| &&
            forall k :: 0 <= k < |items| ==> r.value.strings[k] == StringEntry(env.helpers, formatOutput, items[k]).value
  {
    MapEachShape(items, StringEntries(env.helpers, formatOutput));
  }

  /** A null entry in the table is looked up like any mapper: the query runs,
      and the null mapper then fails with a null dereference. */
  lemma ExecuteNullMapper(e: XQueryExecutor, env: Collaborators, message: Message, t: TargetType,
                          node: NodeRef, bindings: seq<Binding>, items: seq<Item>)
    requires e.resultMappers.Some? && t in e.resultMappers.value && e.resultMappers.value[t].None?
    requires e.xqDataSource.Some? && e.xQuery.Some?
    requires env.convertToNode(e.converter, message.payload) == Some(node)
    requires env.prepare(e.xqDataSource.value, e.xQuery.value).Some?
    requires env.bindContextItem(e.xqDataSource.value, e.xQuery.value, node)
    requires Bindings(env, e.xqDataSource.value, e.xQuery.value, e.xQueryParameters, e.xQueryParameterMap, message) ==
             Success(bindings)
    requires env.executeQuery(e.xqDataSource.value, e.xQuery.value, node, bindings) == Some(items)
    ensures e.Execution(env, Some(message), Some(t)) == Failure(NullPointer)
  {
  }

  /** A context-node bind the engine refuses fails the run with the wrapped
      connection error before any parameter is looked up, so even a null
      parameter map is not dereferenced. */
  lemma ExecuteContextBindFirst(e: XQueryExecutor, env: Collaborators, message: Message, mapper: Option<Mapper>,
                                node: NodeRef)
    requires e.xqDataSource.Some? && e.xQuery.Some?
    requires env.convertToNode(e.converter, message.payload) == Some(node)
    requires env.prepare(e.xqDataSource.value, e.xQuery.value).Some?
    requires !env.bindContextItem(e.xqDataSource.value, e.xQuery.value, node)
    ensures e.ExecutionWith(env, Some(message), mapper) == Failure(Messaging(ConnectionFailureMessage))
  {
  }
}
