/** The values the executor works with, and the collaborators it calls into but
    does not implement (the XQuery engine, the payload converter, the helpers of
    the mapper superclass). */
module XQueryTypes {
  import opened Wrappers

  /** The exceptions that leave the executor. Spring's `Assert` throws
      IllegalArgument; every wrapped engine or mapping failure is a Messaging
      exception. NullPointer is a method called on null: a field that is still
      null, the null a map lookup gave for an absent key, or a null mapper. */
  datatype Error =
    | IllegalArgument(message: string)
    | Messaging(message: string)
    | NullPointer

  /** A Java class, identified by its fully qualified name. The result mapper
      table is keyed by it. */
  datatype TargetType = JavaClass(name: string)

  const StringClass: TargetType := JavaClass("java.lang.String")
  const BooleanClass: TargetType := JavaClass("java.lang.Boolean")
  const NumberClass: TargetType := JavaClass("java.lang.Number")
  const NodeClass: TargetType := JavaClass("org.w3c.dom.Node")

  /** The four types that have a built-in mapper. */
  const StandardTypes: set<TargetType> := {StringClass, BooleanClass, NumberClass, NodeClass}

  /** A DOM node, by identity. */
  datatype NodeRef = NodeRef(id: nat)

  /** A `java.lang.Number`: one handed out by the engine's own conversion, or one
      produced by `Double.valueOf` / `Long.valueOf` on a node's text. */
  datatype Number =
    | EngineNumber(id: nat)
    | DoubleOf(text: string)
    | LongOf(text: string)

  /** One item of a query result sequence, tagged by its kind. */
  datatype Item =
    | StringItem(s: string)
    | NumberItem(n: Number)
    | BooleanItem(b: bool)
    | NodeItem(node: NodeRef)
    | OtherItem(typeName: string)

  /** Which result list a mapper produces. The four built-in mappers all extend
      the abstract mapper class and so honour the format flag; a user mapper may
      or may not extend it. */
  datatype MapperKind =
    | StringResultMapper
    | BooleanResultMapper
    | NumberResultMapper
    | NodeResultMapper
    | UserMapper(id: nat, extendsAbstractMapper: bool)

  /** A result mapper together with its `formatOutput` setting. */
  datatype Mapper = Mapper(kind: MapperKind, formatOutput: bool)

  /** What a mapper returns; a null entry of the Java list is None. */
  datatype MappedResults =
    | Strings(strings: seq<Option<string>>)
    | Booleans(booleans: seq<Option<bool>>)
    | Numbers(numbers: seq<Option<Number>>)
    | Nodes(nodes: seq<NodeRef>)
    | UserValues(values: seq<nat>)

  /** A configured query parameter: the name of the external variable it binds
      and the expression it evaluates against the inbound message. */
  datatype XQueryParameter = XQueryParameter(parameterName: string, expression: string)

  /** The value a parameter evaluated to, as the engine receives it. */
  datatype ParameterValue = ParameterValue(id: nat)

  /** One `bindObject` call: an external variable name and its value. */
  datatype Binding = Binding(name: string, value: ParameterValue)

  /** An inbound message. Its payload is converted to the context node; the
      whole message, headers included, is handed to parameter evaluation. */
  datatype Message = Message(payload: string, headers: map<string, string>)

  /** The location of a `.xq` file. */
  datatype Resource = Resource(location: string)

  /** The XQuery data source: the Saxon default or one the user set. */
  datatype DataSource = SaxonXQDataSource | UserDataSource(id: nat)

  /** The payload converter: the default one or one the user set. */
  datatype Converter = DefaultXmlPayloadConverter | UserConverter(id: nat)

  /** The helpers of the abstract result mapper, and the JDK parsing the number
      mapper relies on. None is Java's null. */
  datatype ResultHelpers = ResultHelpers(
    convertToString: Item -> Option<string>,
    convertToNumber: Item -> Option<Number>,
    convertToBoolean: Item -> Option<bool>,
    isNodeType: Item -> bool,
    // the node's serialised text, indented when the flag (formatOutput) is set
    transformNodeToString: (NodeRef, bool) -> Option<string>,
    numberToString: Number -> string,
    // whether Double.valueOf / Long.valueOf accept the text
    parsesAsDouble: string -> bool,
    parsesAsLong: string -> bool)

  /** Everything outside the executor that it calls. */
  datatype Collaborators = Collaborators(
    // reading a query file; it fails when the file is missing, unreadable or on I/O error
    readXQueryFromResource: Resource -> Result<string, Error>,
    // open a connection and prepare the query: the local names of its external
    // variables, or None when the engine throws
    prepare: (DataSource, string) -> Option<seq<string>>,
    // whether closing the expression and the connection after reading the
    // external variables succeeds (false: close threw)
    closePrepared: (DataSource, string) -> bool,
    // whether binding the context node to the prepared query succeeds
    bindContextItem: (DataSource, string, NodeRef) -> bool,
    // whether binding one parameter value to the prepared query succeeds
    bindObject: (DataSource, string, Binding) -> bool,
    // run the prepared query on a context node with the bound parameters:
    // the result sequence, or None when the engine throws
    executeQuery: (DataSource, string, NodeRef, seq<Binding>) -> Option<seq<Item>>,
    convertToNode: (Converter, string) -> Option<NodeRef>,
    evaluate: (XQueryParameter, Message) -> ParameterValue,
    // the mapResults of a mapper the user supplied
    userMapResults: (Mapper, seq<Item>) -> Result<MappedResults, Error>,
    helpers: ResultHelpers)
}
