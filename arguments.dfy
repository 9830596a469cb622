/**
 * The arguments generator of `ariadne_codegen/generators/arguments.py`: it
 * turns the variable definitions of one GraphQL operation into the parameter
 * list of the generated client method and the `variables` payload, and
 * records which input types and custom scalars those variables used.
 */
module Arguments {
  import opened Wrappers
  import opened Codegen
  import opened Constants
  import opened Scalars
  import opened GraphQL

  /** The `ParsingError` of `exceptions.py`; the generator raises it with a single message. */
  datatype ParsingError = InvalidArgumentType {
    function Message(): string {
      "Invalid argument type."
    }
  }

  /**
   * What resolving one type reference yields: the annotation, the custom
   * scalar it used (if any), and the names the resolution appends to the
   * generator's used-types list.
   */
  datatype Parsed = Parsed(annotation: Annotation, usedScalar: Option<string>, usedTypes: seq<string>)

  /** The parameters and the payload returned by `generate`. */
  datatype Payload = Payload(keys: seq<string>, values: seq<Expr>)
  datatype Generated = Generated(args: seq<Arg>, payload: Payload)

  // The three kinds of named type. Built-in scalars are tested first, so a
  // custom scalar configured under a built-in name is never reached.

  predicate IsBuiltIn(builtIns: map<string, string>, name: string) {
    name in builtIns
  }

  predicate IsCustomScalar(builtIns: map<string, string>, scalars: map<string, ScalarData>, name: string) {
    !IsBuiltIn(builtIns, name) && name in scalars
  }

  predicate IsUserType(builtIns: map<string, string>, scalars: map<string, ScalarData>, name: string) {
    !IsBuiltIn(builtIns, name) && name !in scalars
  }

  /** The Python type name a named GraphQL type becomes. */
  function TargetName(builtIns: map<string, string>, scalars: map<string, ScalarData>, name: string): string {
    if IsBuiltIn(builtIns, name) then builtIns[name]
    else if name in scalars then scalars[name].targetType
    else name
  }

  /** The custom scalar a reference uses: its base name, when that is a custom scalar. */
  function UsedScalarOf(builtIns: map<string, string>, scalars: map<string, ScalarData>, t: TypeRef): Option<string> {
    if t.IsValid() && IsCustomScalar(builtIns, scalars, t.BaseName()) then Some(t.BaseName()) else None
  }

  /** The used types a reference contributes: its base name, when that is neither kind of scalar. */
  function UsedTypesOf(builtIns: map<string, string>, scalars: map<string, ScalarData>, t: TypeRef): seq<string> {
    if t.IsValid() && IsUserType(builtIns, scalars, t.BaseName()) then [t.BaseName()] else []
  }

  /** `_parse_named_type_node`. */
  function ParseNamedTypeNode(builtIns: map<string, string>, scalars: map<string, ScalarData>, name: string, nullable: bool): (r: Parsed)
    ensures r.usedScalar == UsedScalarOf(builtIns, scalars, Named(name))
    ensures r.usedTypes == UsedTypesOf(builtIns, scalars, Named(name))
  {
    if name in builtIns then
      Parsed(AnnotationName(builtIns[name], nullable), None, [])
    else if name in scalars then
      Parsed(AnnotationName(scalars[name].targetType, nullable), Some(name), [])
    else
      Parsed(AnnotationName(name, nullable), None, [name])
  }

  /**
   * `_parse_type_node`. A list's element is resolved with the list's own
   * `nullable` flag, so below a `NonNull` no `Optional` appears at all.
   */
  function ParseTypeNode(builtIns: map<string, string>, scalars: map<string, ScalarData>, node: TypeRef, nullable: bool): (r: Result<Parsed, ParsingError>)
    ensures r.Success? <==> node.IsValid()
    ensures r.Success? ==> r.value.usedScalar == UsedScalarOf(builtIns, scalars, node)
    ensures r.Success? ==> r.value.usedTypes == UsedTypesOf(builtIns, scalars, node)
  {
    match node
    case Named(name) =>
      Success(ParseNamedTypeNode(builtIns, scalars, name, nullable))
    case ListT(of) =>
      var sub :- ParseTypeNode(builtIns, scalars, of, nullable);
      Success(Parsed(ListAnnotation(sub.annotation, nullable), sub.usedScalar, sub.usedTypes))
    case NonNull(of) =>
      ParseTypeNode(builtIns, scalars, of, false)
    case Other =>
      Failure(InvalidArgumentType)
  }

  /** `_process_name`: the parameter name for a variable. */
  function ProcessName(convertToSnakeCase: bool, strToSnakeCase: string -> string, name: string): (r: string)
    ensures convertToSnakeCase ==> r == strToSnakeCase(name)
    ensures !convertToSnakeCase ==> r == name
  {
    if convertToSnakeCase then strToSnakeCase(name) else name
  }

  /**
   * The payload value for a parameter: `serialize(param)` when the variable
   * used a custom scalar that has a serializer, the parameter itself otherwise.
   * Both tests are Python truth tests, so an empty name counts as absent.
   */
  function PayloadValue(scalars: map<string, ScalarData>, param: string, usedScalar: Option<string>): (r: Expr)
    requires usedScalar.Some? ==> usedScalar.value in scalars
    ensures r.ECall? <==> HasSerializer(scalars, usedScalar)
    ensures HasSerializer(scalars, usedScalar) ==> r == ECall(scalars[usedScalar.value].serialize.value, [EName(param)])
    ensures !HasSerializer(scalars, usedScalar) ==> r == EName(param)
  {
    if usedScalar.Some? && usedScalar.value != "" then
      var serialize := scalars[usedScalar.value].serialize;
      if serialize.Some? && serialize.value != "" then ECall(serialize.value, [EName(param)])
      else EName(param)
    else
      EName(param)
  }

  /** The variable used a non-empty custom scalar whose serializer is set and non-empty. */
  predicate HasSerializer(scalars: map<string, ScalarData>, usedScalar: Option<string>)
    requires usedScalar.Some? ==> usedScalar.value in scalars
  {
    && usedScalar.Some? && usedScalar.value != ""
    && scalars[usedScalar.value].serialize.Some? && scalars[usedScalar.value].serialize.value != ""
  }

  /** The custom scalar names `generate` appends for one variable. */
  function RecordedScalars(usedScalar: Option<string>): seq<string> {
    if usedScalar.Some? && usedScalar.value != "" then [usedScalar.value] else []
  }

  /**
   * The observable state of a run of `generate`: the result so far, and the
   * two accumulators of the generator.
   */
  datatype Progress = Progress(out: Result<Generated, ParsingError>, types: seq<string>, customs: seq<string>)

  /** The state before the first variable, given the accumulators' prior contents. */
  function Start(types: seq<string>, customs: seq<string>): Progress {
    Progress(Success(Generated([SelfArg()], Payload([], []))), types, customs)
  }

  /** The generator's configuration, as `generate` reads it. */
  datatype Config = Config(convertToSnakeCase: bool, strToSnakeCase: string -> string,
                           builtIns: map<string, string>, customScalars: map<string, ScalarData>)

  /** One iteration of `generate`'s loop; after a `ParsingError` nothing more happens. */
  function Step(c: Config, p: Progress, v: VariableDefinition): Progress {
    if p.out.Failure? then p
    else match ParseTypeNode(c.builtIns, c.customScalars, v.typ, true)
      case Failure(e) => Progress(Failure(e), p.types, p.customs)
      case Success(parsed) =>
        var name := ProcessName(c.convertToSnakeCase, c.strToSnakeCase, v.name);
        var g := p.out.value;
        Progress(Success(Generated(g.args + [Arg(name, Some(parsed.annotation))],
                                   Payload(g.payload.keys + [v.name],
                                           g.payload.values + [PayloadValue(c.customScalars, name, parsed.usedScalar)]))),
                 p.types + parsed.usedTypes,
                 p.customs + RecordedScalars(parsed.usedScalar))
  }

  /** The state after the first `n` variables, from `start`. */
  function Run(c: Config, start: Progress, vars: seq<VariableDefinition>, n: nat): Progress
    requires n <= |vars|
  {
    if n == 0 then start else Step(c, Run(c, start, vars, n - 1), vars[n - 1])
  }

  /** `ArgumentsGenerator`: configuration plus two append-only accumulators. */
  class ArgumentsGenerator {
    const convertToSnakeCase: bool
    const customScalars: map<string, ScalarData>
    /** `SIMPLE_TYPE_MAP`, the built-in scalars' Python types. */
    const simpleTypeMap: map<string, string>
    /** `str_to_snake_case` from `utils.py`, supplied by the caller. */
    const strToSnakeCase: string -> string
    var usedTypes: seq<string>
    var usedCustomScalars: seq<string>

    /** The configuration `generate` runs with. */
    function Settings(): Config {
      Config(convertToSnakeCase, strToSnakeCase, simpleTypeMap, customScalars)
    }

    constructor (convertToSnakeCase: bool, customScalars: Option<map<string, ScalarData>>,
                 strToSnakeCase: string -> string)
      ensures this.convertToSnakeCase == convertToSnakeCase
      ensures this.customScalars == if customScalars.Some? then customScalars.value else map[]
      ensures this.strToSnakeCase == strToSnakeCase
      ensures simpleTypeMap == SimpleTypeMap
      ensures usedTypes == [] && usedCustomScalars == []
    {
      this.convertToSnakeCase := convertToSnakeCase;
      this.customScalars := if customScalars.Some? && customScalars.value != map[] then customScalars.value else map[];
      this.strToSnakeCase := strToSnakeCase;
      simpleTypeMap := SimpleTypeMap;
      usedTypes := [];
      usedCustomScalars := [];
    }

    /**
     * `generate`. The result and the accumulators' new contents are those of
     * `Run` over all the variables, from the accumulators' old contents.
     */
    method Generate(variableDefinitions: seq<VariableDefinition>) returns (r: Result<Generated, ParsingError>)
      modifies this
      ensures Run(Settings(), Start(old(usedTypes), old(usedCustomScalars)),
                  variableDefinitions, |variableDefinitions|)
              == Progress(r, usedTypes, usedCustomScalars)
    {
      ghost var start := Start(usedTypes, usedCustomScalars);
      var vars := variableDefinitions;
      var args := [SelfArg()];
      var keys: seq<string> := [];
      var values: seq<Expr> := [];
      var i := 0;
      while i < |vars|
        invariant 0 <= i <= |vars|
        invariant Run(Settings(), start, vars, i)
                  == Progress(Success(Generated(args, Payload(keys, values))), usedTypes, usedCustomScalars)
      {
        var next := GenerateVariable(vars[i], args, keys, values);
        if next.Failure? {
          RunStaysFailed(Settings(), start, vars, i + 1, |vars|);
          return next;
        }
        args, keys, values := next.value.args, next.value.payload.keys, next.value.payload.values;
        i := i + 1;
      }
      r := Success(Generated(args, Payload(keys, values)));
    }

    /** The body of `generate`'s loop for one variable, given the parameters and payload so far. */
    method GenerateVariable(variable: VariableDefinition, args: seq<Arg>, keys: seq<string>, values: seq<Expr>)
      returns (r: Result<Generated, ParsingError>)
      modifies this
      ensures Step(Settings(), Progress(Success(Generated(args, Payload(keys, values))), old(usedTypes), old(usedCustomScalars)), variable)
              == Progress(r, usedTypes, usedCustomScalars)
    {
      var orgName := variable.name;
      var name := ProcessName(convertToSnakeCase, strToSnakeCase, orgName);
      var parsed := ParseTypeNode(simpleTypeMap, customScalars, variable.typ, true);
      if parsed.Failure? {
        return Failure(parsed.error);
      }
      var annotation, usedCustomScalar := parsed.value.annotation, parsed.value.usedScalar;
      usedTypes := usedTypes + parsed.value.usedTypes;
      var value := EName(name);
      if usedCustomScalar.Some? && usedCustomScalar.value != "" {
        usedCustomScalars := usedCustomScalars + [usedCustomScalar.value];
        var scalarData := customScalars[usedCustomScalar.value];
        if scalarData.serialize.Some? && scalarData.serialize.value != "" {
          value := ECall(scalarData.serialize.value, [EName(name)]);
        }
      }
      r := Success(Generated(args + [Arg(name, Some(annotation))], Payload(keys + [orgName], values + [value])));
    }

    /** `get_used_types`. */
    method GetUsedTypes() returns (r: seq<string>)
      ensures r == usedTypes
    {
      r := usedTypes;
    }

    /** `get_used_custom_scalars`. */
    method GetUsedCustomScalars() returns (r: seq<string>)
      ensures r == usedCustomScalars
    {
      r := usedCustomScalars;
    }
  }

  /** A run that has failed stays failed, with the same state. */
  lemma {:induction false} RunStaysFailed(c: Config, start: Progress, vars: seq<VariableDefinition>, i: nat, n: nat)
    requires i <= n <= |vars|
    requires Run(c, start, vars, i).out.Failure?
    ensures Run(c, start, vars, n) == Run(c, start, vars, i)
  {
    if i < n {
      RunStaysFailed(c, start, vars, i, n - 1);
    }
  }
}
