/**
 * The scenarios of `tests/generators/test_arguments_generator.py`, restated
 * as verified methods over the model's generator. `str_to_snake_case` is a parameter here;
 * each scenario states what it needs of it on its variable names.
 */
module ArgumentsExamples {
  import opened Wrappers
  import opened Codegen
  import opened Constants
  import opened GraphQL
  import opened Arguments
  import opened ArgumentsProperties

  function Var(name: string, typ: TypeRef): VariableDefinition {
    VariableDefinition(name, typ)
  }

  /**
   * What the scenarios need of a configuration: conversion on, no custom
   * scalars, and the built-in table's entries for the names they use.
   */
  predicate DefaultConfig(c: Config) {
    && c.convertToSnakeCase && c.customScalars == map[]
    && "ID" in c.builtIns && c.builtIns["ID"] == "str"
    && "String" in c.builtIns && c.builtIns["String"] == "str"
    && "Int" in c.builtIns && c.builtIns["Int"] == "int"
    && "Float" in c.builtIns && c.builtIns["Float"] == "float"
    && "Boolean" in c.builtIns && c.builtIns["Boolean"] == "bool"
    && "CustomInputType" !in c.builtIns && "Type1" !in c.builtIns && "Type2" !in c.builtIns
  }

  /** `ArgumentsGenerator(True)` with no custom scalars has such a configuration. */
  lemma DefaultGeneratorConfig(strToSnakeCase: string -> string)
    ensures DefaultConfig(Config(true, strToSnakeCase, SimpleTypeMap, map[]))
  {
  }

  /**
   * One step over a variable of type `X` or `X!` without custom scalars: the
   * parameter is annotated `Optional[X']` or `X'`, the payload value is the
   * parameter itself, and `X` is recorded exactly when it is not built in.
   */
  lemma NamedStep(c: Config, p: Progress, v: VariableDefinition)
    requires c.customScalars == map[] && p.out.Success?
    requires v.typ.Named? || (v.typ.NonNull? && v.typ.of.Named?)
    ensures var param := ProcessName(c.convertToSnakeCase, c.strToSnakeCase, v.name);
            var name := v.typ.BaseName();
            var target := AName(TargetName(c.builtIns, c.customScalars, name));
            var g := p.out.value;
            Step(c, p, v)
            == Progress(Success(Generated(g.args + [Arg(param, Some(if v.typ.Named? then AOptional(target) else target))],
                                          Payload(g.payload.keys + [v.name], g.payload.values + [EName(param)]))),
                        p.types + (if name in c.builtIns then [] else [name]),
                        p.customs)
  {
    NamedNullability(c.builtIns, c.customScalars, v.typ.BaseName(), true);
  }

  /** `($id: ID!, $name: String!, $amount: Int!, $val: Float!, $flag: Boolean!, $custom_input: CustomInputType!)` */
  function RequiredVariables(): seq<VariableDefinition> {
    [Var("id", NonNull(Named("ID"))), Var("name", NonNull(Named("String"))),
     Var("amount", NonNull(Named("Int"))), Var("val", NonNull(Named("Float"))),
     Var("flag", NonNull(Named("Boolean"))), Var("custom_input", NonNull(Named("CustomInputType")))]
  }

  /** The first three variables: `ID!`, `String!` and `Int!` map to bare `str`, `str` and `int`. */
  lemma {:induction false} RequiredVariablesPrefix(c: Config, types: seq<string>, customs: seq<string>)
    requires DefaultConfig(c)
    requires c.strToSnakeCase("id") == "id" && c.strToSnakeCase("name") == "name" && c.strToSnakeCase("amount") == "amount"
    ensures var r := Run(c, Start(types, customs), RequiredVariables(), 3).out;
            && r.Success?
            && r.value.args
               == [Arg("self", None), Arg("id", Some(AName("str"))), Arg("name", Some(AName("str"))),
                   Arg("amount", Some(AName("int")))]
  {
    var vars := RequiredVariables();
    var p0 := Start(types, customs);
    assert Run(c, p0, vars, 0) == p0;
    NamedStep(c, p0, vars[0]);
    NamedStep(c, Run(c, p0, vars, 1), vars[1]);
    NamedStep(c, Run(c, p0, vars, 2), vars[2]);
  }

  /** Non-null built-ins map through the scalar table without `Optional`; an input type keeps its name. */
  lemma {:induction false} RequiredVariablesParameters(c: Config, types: seq<string>, customs: seq<string>)
    requires DefaultConfig(c)
    requires c.strToSnakeCase("id") == "id" && c.strToSnakeCase("name") == "name"
    requires c.strToSnakeCase("amount") == "amount" && c.strToSnakeCase("val") == "val"
    requires c.strToSnakeCase("flag") == "flag" && c.strToSnakeCase("custom_input") == "custom_input"
    ensures var r := Run(c, Start(types, customs), RequiredVariables(), 6).out;
            && r.Success?
            && r.value.args
               == [Arg("self", None), Arg("id", Some(AName("str"))), Arg("name", Some(AName("str"))),
                   Arg("amount", Some(AName("int"))), Arg("val", Some(AName("float"))),
                   Arg("flag", Some(AName("bool"))), Arg("custom_input", Some(AName("CustomInputType")))]
  {
    var vars := RequiredVariables();
    var p0 := Start(types, customs);
    RequiredVariablesPrefix(c, types, customs);
    NamedStep(c, Run(c, p0, vars, 3), vars[3]);
    NamedStep(c, Run(c, p0, vars, 4), vars[4]);
    NamedStep(c, Run(c, p0, vars, 5), vars[5]);
  }

  /** `generate` on a fresh default generator, over `RequiredVariables`. */
  method RequiredVariablesScenario(strToSnakeCase: string -> string) returns (r: Result<Generated, ParsingError>)
    requires strToSnakeCase("id") == "id" && strToSnakeCase("name") == "name"
    requires strToSnakeCase("amount") == "amount" && strToSnakeCase("val") == "val"
    requires strToSnakeCase("flag") == "flag" && strToSnakeCase("custom_input") == "custom_input"
    ensures r.Success?
    ensures r.value.args
            == [Arg("self", None), Arg("id", Some(AName("str"))), Arg("name", Some(AName("str"))),
                Arg("amount", Some(AName("int"))), Arg("val", Some(AName("float"))),
                Arg("flag", Some(AName("bool"))), Arg("custom_input", Some(AName("CustomInputType")))]
  {
    var generator := new ArgumentsGenerator(true, None, strToSnakeCase);
    r := generator.Generate(RequiredVariables());
    DefaultGeneratorConfig(strToSnakeCase);
    RequiredVariablesParameters(generator.Settings(), [], []);
  }

  /** `($id: ID)`: a nullable built-in becomes `Optional[str]`. */
  method NullableIdScenario(strToSnakeCase: string -> string) returns (r: Result<Generated, ParsingError>)
    requires strToSnakeCase("id") == "id"
    ensures r.Success?
    ensures r.value.args == [Arg("self", None), Arg("id", Some(AOptional(AName("str"))))]
  {
    var generator := new ArgumentsGenerator(true, None, strToSnakeCase);
    var vars := [Var("id", Named("ID"))];
    r := generator.Generate(vars);
    var c := generator.Settings();
    RunSucceedsIff(c, Start([], []), vars, 1);
    RunParameters(c, [], [], vars, 1);
  }

  /** No variables: the parameter list is `self` alone, without annotation, and the payload is empty. */
  method NoVariablesScenario(strToSnakeCase: string -> string) returns (r: Result<Generated, ParsingError>)
    ensures r == Success(Generated([Arg("self", None)], Payload([], [])))
  {
    var generator := new ArgumentsGenerator(true, None, strToSnakeCase);
    r := generator.Generate([]);
  }

  /** `($a1: String!, $a2: String, $a3: Type1!, $a4: Type2)` */
  function MixedVariables(): seq<VariableDefinition> {
    [Var("a1", NonNull(Named("String"))), Var("a2", Named("String")),
     Var("a3", NonNull(Named("Type1"))), Var("a4", Named("Type2"))]
  }

  /** Only the input types are recorded, in order, whatever their nullability. */
  lemma {:induction false} MixedVariablesUsedTypes(c: Config, types: seq<string>, customs: seq<string>)
    requires DefaultConfig(c)
    ensures Run(c, Start(types, customs), MixedVariables(), 4).types == types + ["Type1", "Type2"]
  {
    var vars := MixedVariables();
    var p0 := Start(types, customs);
    assert Run(c, p0, vars, 0) == p0;
    NamedStep(c, p0, vars[0]);
    NamedStep(c, Run(c, p0, vars, 1), vars[1]);
    NamedStep(c, Run(c, p0, vars, 2), vars[2]);
    NamedStep(c, Run(c, p0, vars, 3), vars[3]);
  }

  /** `generate` over `MixedVariables`, then `get_used_types`. */
  method UsedTypesScenario(strToSnakeCase: string -> string) returns (used: seq<string>)
    ensures used == ["Type1", "Type2"]
  {
    var generator := new ArgumentsGenerator(true, None, strToSnakeCase);
    var _ := generator.Generate(MixedVariables());
    DefaultGeneratorConfig(strToSnakeCase);
    MixedVariablesUsedTypes(generator.Settings(), [], []);
    used := generator.GetUsedTypes();
  }

  /** `($camelCase: String!, $snake_case: String!)` with conversion on: parameters are converted, keys are not. */
  lemma {:induction false} SnakeCaseParameters(c: Config)
    requires DefaultConfig(c)
    requires c.strToSnakeCase("camelCase") == "camel_case" && c.strToSnakeCase("snake_case") == "snake_case"
    ensures var r := Run(c, Start([], []), [Var("camelCase", NonNull(Named("String"))), Var("snake_case", NonNull(Named("String")))], 2).out;
            && r.Success?
            && r.value.args == [Arg("self", None), Arg("camel_case", Some(AName("str"))), Arg("snake_case", Some(AName("str")))]
            && r.value.payload == Payload(["camelCase", "snake_case"], [EName("camel_case"), EName("snake_case")])
  {
    var vars := [Var("camelCase", NonNull(Named("String"))), Var("snake_case", NonNull(Named("String")))];
    var p0 := Start([], []);
    assert Run(c, p0, vars, 0) == p0;
    NamedStep(c, p0, vars[0]);
    NamedStep(c, Run(c, p0, vars, 1), vars[1]);
  }

  /** `generate` on a fresh default generator over `($camelCase: String!, $snake_case: String!)`. */
  method SnakeCaseScenario(strToSnakeCase: string -> string) returns (r: Result<Generated, ParsingError>)
    requires strToSnakeCase("camelCase") == "camel_case" && strToSnakeCase("snake_case") == "snake_case"
    ensures r.Success?
    ensures r.value.args == [Arg("self", None), Arg("camel_case", Some(AName("str"))), Arg("snake_case", Some(AName("str")))]
    ensures r.value.payload == Payload(["camelCase", "snake_case"], [EName("camel_case"), EName("snake_case")])
  {
    var generator := new ArgumentsGenerator(true, None, strToSnakeCase);
    r := generator.Generate([Var("camelCase", NonNull(Named("String"))), Var("snake_case", NonNull(Named("String")))]);
    DefaultGeneratorConfig(strToSnakeCase);
    SnakeCaseParameters(generator.Settings());
  }

  /** `[String]!` resolves to `List[str]`: the element takes the list's non-null flag, not its own. */
  lemma NonNullListOfNullableString()
    ensures ParseTypeNode(SimpleTypeMap, map[], NonNull(ListT(Named("String"))), true).value.annotation
            == AList(AName("str"))
    ensures ParseTypeNode(SimpleTypeMap, map[], ListT(Named("String")), true).value.annotation
            == AOptional(AList(AOptional(AName("str"))))
  {
  }

  /**
   * Two runs on one generator extend its accumulators: the second run's
   * contributions follow the first's.
   */
  method GenerateTwice(generator: ArgumentsGenerator, a: seq<VariableDefinition>, b: seq<VariableDefinition>)
    modifies generator
    ensures var c := generator.Settings();
            && generator.usedTypes
               == old(generator.usedTypes)
                  + TypesUsedBy(c.builtIns, c.customScalars, a, FirstInvalid(a, |a|))
                  + TypesUsedBy(c.builtIns, c.customScalars, b, FirstInvalid(b, |b|))
            && generator.usedCustomScalars
               == old(generator.usedCustomScalars)
                  + ScalarsUsedBy(c.builtIns, c.customScalars, a, FirstInvalid(a, |a|))
                  + ScalarsUsedBy(c.builtIns, c.customScalars, b, FirstInvalid(b, |b|))
  {
    var c := generator.Settings();
    ghost var types0, customs0 := generator.usedTypes, generator.usedCustomScalars;
    var _ := generator.Generate(a);
    RunUsedTypes(c, Start(types0, customs0), a, |a|);
    RunUsedCustomScalars(c, Start(types0, customs0), a, |a|);
    ghost var types1, customs1 := generator.usedTypes, generator.usedCustomScalars;
    var _ := generator.Generate(b);
    RunUsedTypes(c, Start(types1, customs1), b, |b|);
    RunUsedCustomScalars(c, Start(types1, customs1), b, |b|);
  }

  /** `($a: Type1, $b: <invalid>, $c: Type2)` */
  function InvalidVariables(): seq<VariableDefinition> {
    [Var("a", Named("Type1")), Var("b", Other), Var("c", Named("Type2"))]
  }

  /**
   * The invalid type of `$b` fails the run, and the used types keep what
   * `$a` recorded before it.
   */
  lemma {:induction false} InvalidVariablesRun(c: Config)
    requires DefaultConfig(c)
    ensures var p := Run(c, Start([], []), InvalidVariables(), 3);
            && p.out == Failure(InvalidArgumentType)
            && p.types == ["Type1"]
  {
    var vars := InvalidVariables();
    var p0 := Start([], []);
    assert Run(c, p0, vars, 0) == p0;
    NamedStep(c, p0, vars[0]);
    assert Run(c, p0, vars, 2).out.Failure?;
    RunStaysFailed(c, p0, vars, 2, 3);
  }

  /** `generate` over `InvalidVariables` raises `ParsingError`; `get_used_types` then holds `Type1`. */
  method InvalidTypeScenario(strToSnakeCase: string -> string) returns (r: Result<Generated, ParsingError>, used: seq<string>)
    ensures r == Failure(InvalidArgumentType)
    ensures used == ["Type1"]
  {
    var generator := new ArgumentsGenerator(true, None, strToSnakeCase);
    r := generator.Generate(InvalidVariables());
    DefaultGeneratorConfig(strToSnakeCase);
    InvalidVariablesRun(generator.Settings());
    used := generator.GetUsedTypes();
  }
}
