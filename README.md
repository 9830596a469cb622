# ArgumentsGenerator of ariadne-codegen, in Dafny

`ArgumentsGenerator` (`ariadne_codegen/generators/arguments.py`) is the part of
ariadne-codegen that turns the variable definitions of one GraphQL operation into
two things:

- the parameter list of the generated client method: `self`, then one typed
  parameter per variable;
- the `variables` payload: a dictionary from each original variable name to an
  expression.

It resolves each variable's type reference (`Named | List | NonNull`, section
2.11 "Type References" of the GraphQL specification, October 2021) into a Python
annotation: a name, `Optional[...]` or `List[...]`. Along the way it appends
user-defined input types to `_used_types` and custom scalars to
`_used_custom_scalars`.

Files:

- `wrappers.dfy`: `Option` and `Result`.
- `graphql.dfy`: type references and variable definitions. `Other` stands for a
  node class outside the grammar.
- `codegen.dfy`: the annotation, expression and parameter shapes built by the
  `codegen` helpers, and `Erase`/`Nest`/`NoOptional` for stating shapes.
- `constants.dfy`: `SIMPLE_TYPE_MAP`.
- `scalars.dfy`: `ScalarData`.
- `arguments.dfy`: the resolver and the generator class.
  - The pure resolver methods are the functions `ParseNamedTypeNode`,
    `ParseTypeNode` and `ProcessName`.
  - One iteration of `generate`'s loop is the function `Step`; `Run` folds it
    over the first `n` variables.
  - `class ArgumentsGenerator` holds the configuration as constants and the two
    accumulators as `seq<string>` fields.
  - Its `Generate` method runs the loop in place and is proved to end in the
    state `Run` describes. `GenerateVariable` is the loop body.
- `arguments_properties.dfy`: what a resolution and a run produce.
- `arguments_examples.dfy`: the scenarios of
  `tests/generators/test_arguments_generator.py`, restated as verified methods
  over the model's generator.

A `ParsingError` is modelled as a `Failure` result, and it ends the loop at the
failing variable. The accumulators keep what the earlier variables appended,
as they do in Python.

Python truth tests are kept as written:

- `if used_custom_scalar:` treats an empty scalar name as absent;
- `if scalar_data.serialize:` treats both `None` and `""` as "no serializer".

A list's element is resolved with the list's own `nullable` flag
(`arguments.py:48-50`). So `[String]!` becomes `List[str]` and `[String]` becomes
`Optional[List[Optional[str]]]`. Hence a bare `T` is `Optional` of `T!`'s
annotation only when `T` is a named type. `NonNullListOfNullableString` shows both
annotations, and `OptionalExactlyAboveFirstNonNull` states the general rule.

## Model

| member | source | states |
|---|---|---|
| Arguments.ParseNamedTypeNode | ariadne_codegen/generators/arguments.py:61-76 | The used custom scalar is the name exactly when it is configured and not shadowed by a built-in. The name is recorded as a used type exactly when it is neither kind of scalar. |
| Arguments.ParseTypeNode | ariadne_codegen/generators/arguments.py:39-59 | Resolution succeeds exactly when every node of the reference is `Named`, `List` or `NonNull`, and fails with `ParsingError` otherwise. On success, the used scalar and used types are those of the reference's base name. |
| Arguments.ArgumentsGenerator.constructor | ariadne_codegen/generators/arguments.py:29-37 | Stores the conversion flag. Stores the custom scalars, or `{}` when none are given. Uses `SIMPLE_TYPE_MAP` as the built-in table. Both accumulators start empty. |
| Arguments.ArgumentsGenerator.Generate | ariadne_codegen/generators/arguments.py:83-113 | The result and both accumulators' new contents are those of `Run` over all variables, starting from the accumulators' old contents. This covers the `ParsingError` case. |
| Arguments.ArgumentsGenerator.GenerateVariable | ariadne_codegen/generators/arguments.py:89-112 | One loop iteration changes the parameters, payload and accumulators exactly as `Step` does. |
| Arguments.ArgumentsGenerator.GetUsedTypes | ariadne_codegen/generators/arguments.py:115-116 | Returns the current `_used_types`. |
| Arguments.ArgumentsGenerator.GetUsedCustomScalars | ariadne_codegen/generators/arguments.py:118-119 | Returns the current `_used_custom_scalars`. |
| Arguments.ProcessName | ariadne_codegen/generators/arguments.py:78-81 | The parameter name is `str_to_snake_case(name)` when conversion is on and the original name unchanged when it is off. |
| Arguments.PayloadValue | ariadne_codegen/generators/arguments.py:99-112 | The payload value is a call of the serializer on the parameter exactly when the variable used a non-empty custom scalar whose serializer is set and non-empty; otherwise it is the parameter name itself. |
| Arguments.RunStaysFailed | ariadne_codegen/generators/arguments.py:59 | Once a variable has raised `ParsingError`, later variables change nothing: the rest of the loop is not executed. |
| ArgumentsProperties.NonNullResolvesAsNonNullable | ariadne_codegen/generators/arguments.py:56-57 | Resolving `NonNull(T)` under any flag equals resolving `T` with `nullable = false`. |
| ArgumentsProperties.NamedNullability | ariadne_codegen/generators/arguments.py:56-76 | A bare named type in a nullable position is `Optional[X']`. Under `NonNull` it is the bare `X'`, where `X'` is the mapped Python name. |
| ArgumentsProperties.ListResolution | ariadne_codegen/generators/arguments.py:47-54 | `[T]` under flag `n` is `List` of `T` resolved under the same `n`, and `Optional` iff `n`. The element's used scalar and used types pass through unchanged. |
| ArgumentsProperties.ResolvedShape | ariadne_codegen/generators/arguments.py:39-59 | Without its `Optional` wrappers, an annotation is as many `List` levels as the reference has, around the base type's Python name. It is `Optional` on the outside iff the position is nullable and the reference is not `NonNull`. It has no `Optional` at all in a non-nullable position. |
| ArgumentsProperties.OptionalExactlyAboveFirstNonNull | ariadne_codegen/generators/arguments.py:44-57 | In a nullable position, exactly the levels above the reference's first `NonNull` are `Optional`, and no level below it. |
| ArgumentsProperties.NullableVersusNonNull | ariadne_codegen/generators/arguments.py:44-57 | `T` and `T!` have the same list structure and leaf name. `T` is `Optional` at the top, and `T!` has no `Optional` anywhere. |
| ArgumentsProperties.NamedTypeClassification | ariadne_codegen/generators/arguments.py:67-76 | Built-in scalars map through the table and record nothing. Configured custom scalars take their target type and are reported as used. Any other name is kept and recorded once as a used type. Built-ins shadow custom scalars. |
| ArgumentsProperties.RunSucceedsIff | ariadne_codegen/generators/arguments.py:89-94 | A run succeeds exactly when every variable's type reference is valid. |
| ArgumentsProperties.RunParameters | ariadne_codegen/generators/arguments.py:87-96 | On success there are `n + 1` parameters: `self` without annotation, then variable `i` as parameter `i + 1`. Its name is snake-cased iff conversion is on, and its annotation is its type resolved in a nullable position. |
| ArgumentsProperties.RunPayload | ariadne_codegen/generators/arguments.py:98-112 | On success there are `n` keys and `n` values. Key `i` is variable `i`'s original name. Value `i` is `serialize(param)` when the base type is a configured custom scalar with a serializer, and the parameter name otherwise. |
| ArgumentsProperties.RunNoVariables | ariadne_codegen/generators/arguments.py:87-88 | With no variables the result is `[self]` and an empty payload, and the accumulators are unchanged. |
| ArgumentsProperties.StepAccumulators | ariadne_codegen/generators/arguments.py:92-100 | One iteration appends the variable's used types and recorded scalar to the accumulators and keeps their prior contents. It appends nothing after a failure. |
| ArgumentsProperties.RunUsedTypes | ariadne_codegen/generators/arguments.py:74 | A run appends to `_used_types`, in order, the user-defined base types of the variables before the first invalid one. Prior contents are kept. |
| ArgumentsProperties.RunUsedCustomScalars | ariadne_codegen/generators/arguments.py:99-100 | A run appends to `_used_custom_scalars`, in order, one entry per variable of a custom scalar type, taken from the variables before the first invalid one. Prior contents are kept. |
| ArgumentsProperties.TypesUsedByMembers | ariadne_codegen/generators/arguments.py:67-74 | A name is in the used types exactly when some variable's base type has that name and is neither a built-in nor a custom scalar. There is at most one entry per variable. |
| ArgumentsProperties.ScalarsUsedByAreConfigured | ariadne_codegen/generators/arguments.py:99-101 | Every recorded custom scalar is non-empty, configured and not shadowed by a built-in. There is at most one entry per variable. |
| ArgumentsExamples.NamedStep | ariadne_codegen/generators/arguments.py:89-112 | One iteration over `X` or `X!` with no custom scalars appends `Optional[X']` or `X'` with the processed name. The payload value is the parameter name, and `X` is recorded iff it is not built in. |
| ArgumentsExamples.RequiredVariablesParameters | tests/generators/test_arguments_generator.py:18-42 | Non-null `ID`, `String`, `Int`, `Float`, `Boolean` and an input type give parameters `self, id: str, name: str, amount: int, val: float, flag: bool, custom_input: CustomInputType`. |
| ArgumentsExamples.RequiredVariablesScenario | tests/generators/test_arguments_generator.py:18-42 | The same, through a fresh generator's `Generate`. |
| ArgumentsExamples.NullableIdScenario | tests/generators/test_arguments_generator.py:45-61 | `$id: ID` gives the parameter `id: Optional[str]`. |
| ArgumentsExamples.NoVariablesScenario | tests/generators/test_arguments_generator.py:64-75 | With no variables the parameters are `self` alone, without annotation. |
| ArgumentsExamples.MixedVariablesUsedTypes | tests/generators/test_arguments_generator.py:78-86 | `String!, String, Type1!, Type2` appends exactly `Type1, Type2` to the used types. |
| ArgumentsExamples.UsedTypesScenario | tests/generators/test_arguments_generator.py:78-86 | `get_used_types` after that run on a fresh generator is `["Type1", "Type2"]`. |
| ArgumentsExamples.SnakeCaseParameters | tests/generators/test_arguments_generator.py:89-113 | With conversion on, `$camelCase` and `$snake_case` give parameters `camel_case` and `snake_case`. The payload keys keep the original names, and the values name the parameters. |
| ArgumentsExamples.SnakeCaseScenario | tests/generators/test_arguments_generator.py:89-113 | The same, through a fresh generator's `Generate`. |
| ArgumentsExamples.NonNullListOfNullableString | ariadne_codegen/generators/arguments.py:47-57 | `[String]!` resolves to `List[str]`, and `[String]` to `Optional[List[Optional[str]]]`. |
| ArgumentsExamples.GenerateTwice | ariadne_codegen/generators/arguments.py:83-113 | Two `generate` calls on one generator extend each accumulator by the first call's contributions, then the second's. |
| ArgumentsExamples.InvalidVariablesRun | ariadne_codegen/generators/arguments.py:59-74 | For `$a: Type1, $b: <invalid>, $c: Type2`, the run raises `ParsingError`. The used types hold `Type1` from `$a` and nothing from `$c`. |
| ArgumentsExamples.InvalidTypeScenario | ariadne_codegen/generators/arguments.py:59-74 | The same, through a fresh generator's `Generate` and `get_used_types`. |

## Left out

- `str_to_snake_case` (`utils.py`) is not part of this model. The generator receives it as a `string -> string` constant, and each scenario states the few values it needs.
- The `codegen` helpers are not modelled as Python `ast` objects. `generate_annotation_name`, `generate_list_annotation`, `generate_arg`, `generate_call` and `generate_dict` become datatype constructors. `generate_arguments` becomes the parameter sequence.
- Python's default arguments (`convert_to_snake_case=True`, `custom_scalars=None`) have no Dafny counterpart. The constructor takes all parameters, and the scenarios pass `true` and `None` for `ArgumentsGenerator()`.
- `SIMPLE_TYPE_MAP` is a module constant in the source. Here the constructor stores it in a class constant, and the resolver takes the built-in table as a parameter, which is what the class constant holds.
- `_parse_named_type_node` appends to `self._used_types` directly. Here the resolver returns the names to append, and `generate` appends them. The order and contents are the same.
- `get_used_types` and `get_used_custom_scalars` return the live lists in Python, so a caller could mutate the generator's state through them. Here they return the current value, and that aliasing is not modelled.
- `ArgumentsGenerator` keeps the caller's `custom_scalars` dict by reference, and `convert_to_snake_case` and `custom_scalars` are public attributes a caller may reassign. Here both are `const` values copied at construction, so a later change by the caller to the dict or the attributes is not modelled.
- `ParsingError("Invalid argument type.")` is the single value `InvalidArgumentType`. Its message is available as `Message()`.
- When two variable names collide after snake-case conversion, the source appends both parameters. The model does the same and proves nothing about collisions.
- The result-types generator (`get_operation_as_str`) and the async HTTP base client are outside this model. They are not part of the arguments generator.
