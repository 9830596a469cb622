/**
 * Properties of the arguments generator: how nullability and lists shape an
 * annotation, and what the parameter list, the payload and the two
 * accumulators hold after a run over an operation's variables.
 */
module ArgumentsProperties {
  import opened Wrappers
  import opened Codegen
  import opened Scalars
  import opened GraphQL
  import opened Arguments

  // ---------------------------------------------------------------------------
  // Type resolution
  // ---------------------------------------------------------------------------

  /** `T!` resolves exactly as `T` in a non-nullable position, whatever the enclosing flag. */
  lemma NonNullResolvesAsNonNullable(builtIns: map<string, string>, scalars: map<string, ScalarData>,
                                     t: TypeRef, nullable: bool)
    ensures ParseTypeNode(builtIns, scalars, NonNull(t), nullable) == ParseTypeNode(builtIns, scalars, t, false)
  {
  }

  /** A bare named type is `Optional[X]`; the same name under `NonNull` is the bare `X`. */
  lemma NamedNullability(builtIns: map<string, string>, scalars: map<string, ScalarData>, name: string, nullable: bool)
    ensures ParseTypeNode(builtIns, scalars, Named(name), true).value.annotation
            == AOptional(AName(TargetName(builtIns, scalars, name)))
    ensures ParseTypeNode(builtIns, scalars, NonNull(Named(name)), nullable).value.annotation
            == AName(TargetName(builtIns, scalars, name))
  {
  }

  /**
   * `[T]` under flag `n` is the list annotation of `T` resolved under the same
   * flag, `Optional` iff `n`; the element's used custom scalar passes through.
   */
  lemma ListResolution(builtIns: map<string, string>, scalars: map<string, ScalarData>, t: TypeRef, nullable: bool)
    requires t.IsValid()
    ensures var elem := ParseTypeNode(builtIns, scalars, t, nullable).value;
            var r := ParseTypeNode(builtIns, scalars, ListT(t), nullable).value;
            && r.annotation == (if nullable then AOptional(AList(elem.annotation)) else AList(elem.annotation))
            && r.usedScalar == elem.usedScalar
            && r.usedTypes == elem.usedTypes
  {
  }

  /**
   * The shape of a resolved reference: as many `List` levels as the reference
   * has, around its base type's Python name; `Optional` on the outside exactly
   * when the position is nullable and the reference is not `NonNull`; and no
   * `Optional` anywhere when the position is not nullable.
   */
  lemma {:induction false} ResolvedShape(builtIns: map<string, string>, scalars: map<string, ScalarData>,
                                         t: TypeRef, nullable: bool)
    requires t.IsValid()
    ensures var a := ParseTypeNode(builtIns, scalars, t, nullable).value.annotation;
            && Erase(a) == Nest(t.ListDepth(), AName(TargetName(builtIns, scalars, t.BaseName())))
            && IsOptional(a) == (nullable && !t.NonNull?)
            && (!nullable ==> NoOptional(a))
  {
    match t
    case Named(_) =>
    case NonNull(s) =>
      ResolvedShape(builtIns, scalars, s, false);
    case ListT(s) =>
      ResolvedShape(builtIns, scalars, s, nullable);
  }

  /**
   * Whether each level of an annotation is `Optional`: the outermost level
   * first, then one entry per nested list element, the leaf name last.
   */
  function OptionalLevels(a: Annotation): (r: seq<bool>)
    ensures |r| >= 1
  {
    match a
    case AName(_) => [false]
    case AList(e) => [false] + OptionalLevels(e)
    case AOptional(i) =>
      match i
      case AList(e) => [true] + OptionalLevels(e)
      case _ => [true]
  }

  /** The number of levels of a reference, counted from the outside, that lie above its first `NonNull`. */
  function LevelsAboveNonNull(t: TypeRef): nat {
    match t
    case Named(_) => 1
    case ListT(s) => 1 + LevelsAboveNonNull(s)
    case NonNull(_) => 0
    case Other => 0
  }

  /**
   * In a nullable position the annotation is `Optional` exactly on the levels
   * above the reference's first `NonNull`, and on no level below it: the
   * element of a list takes the list's nullability, not its own.
   */
  lemma {:induction false} OptionalExactlyAboveFirstNonNull(builtIns: map<string, string>, scalars: map<string, ScalarData>,
                                                            t: TypeRef, nullable: bool)
    requires t.IsValid()
    ensures var levels := OptionalLevels(ParseTypeNode(builtIns, scalars, t, nullable).value.annotation);
            && |levels| == t.ListDepth() + 1
            && forall i :: 0 <= i < |levels| ==> levels[i] == (nullable && i < LevelsAboveNonNull(t))
  {
    match t
    case Named(_) =>
    case NonNull(s) =>
      OptionalExactlyAboveFirstNonNull(builtIns, scalars, s, false);
    case ListT(s) =>
      OptionalExactlyAboveFirstNonNull(builtIns, scalars, s, nullable);
      var sub := ParseTypeNode(builtIns, scalars, s, nullable).value.annotation;
      assert OptionalLevels(ParseTypeNode(builtIns, scalars, t, nullable).value.annotation) == [nullable] + OptionalLevels(sub);
  }

  /**
   * `T` and `T!` resolve to the same list structure and leaf type; the bare
   * `T` is wrapped in `Optional` at the top and `T!` carries no `Optional` at all.
   */
  lemma NullableVersusNonNull(builtIns: map<string, string>, scalars: map<string, ScalarData>, t: TypeRef, nullable: bool)
    requires t.IsValid() && !t.NonNull?
    ensures var bare := ParseTypeNode(builtIns, scalars, t, true).value.annotation;
            var required := ParseTypeNode(builtIns, scalars, NonNull(t), nullable).value.annotation;
            && Erase(bare) == Erase(required)
            && IsOptional(bare) && !IsOptional(required)
            && NoOptional(required)
  {
    ResolvedShape(builtIns, scalars, t, true);
    ResolvedShape(builtIns, scalars, t, false);
  }

  /**
   * The three kinds of named type: a built-in scalar changes no accumulator;
   * a configured custom scalar yields its target type and is reported as used;
   * any other name is recorded once as a used type and kept as written.
   * Built-ins shadow custom scalars.
   */
  lemma NamedTypeClassification(builtIns: map<string, string>, scalars: map<string, ScalarData>, name: string, nullable: bool)
    ensures var p := ParseNamedTypeNode(builtIns, scalars, name, nullable);
            && (name in builtIns ==>
                  p.usedScalar == None && p.usedTypes == [] && Erase(p.annotation) == AName(builtIns[name]))
            && (name !in builtIns && name in scalars ==>
                  p.usedScalar == Some(name) && p.usedTypes == [] && Erase(p.annotation) == AName(scalars[name].targetType))
            && (name !in builtIns && name !in scalars ==>
                  p.usedScalar == None && p.usedTypes == [name] && Erase(p.annotation) == AName(name))
  {
  }

  // ---------------------------------------------------------------------------
  // A run of `generate`
  // ---------------------------------------------------------------------------

  /** A run succeeds exactly when every variable's type is valid; otherwise it raises `ParsingError`. */
  lemma {:induction false} RunSucceedsIff(c: Config, start: Progress, vars: seq<VariableDefinition>, n: nat)
    requires n <= |vars| && start.out.Success?
    ensures Run(c, start, vars, n).out.Success? <==> forall i :: 0 <= i < n ==> vars[i].typ.IsValid()
  {
    if n > 0 {
      RunSucceedsIff(c, start, vars, n - 1);
    }
  }

  /**
   * The parameter list is `self` without annotation followed by one parameter
   * per variable in declaration order: parameter `i + 1` is variable `i`'s name,
   * snake-cased when conversion is on, annotated with its type resolved in a
   * nullable position.
   */
  lemma {:induction false} RunParameters(c: Config, types: seq<string>, customs: seq<string>,
                                         vars: seq<VariableDefinition>, n: nat)
    requires n <= |vars|
    ensures var r := Run(c, Start(types, customs), vars, n).out;
            r.Success? ==>
              && |r.value.args| == n + 1
              && r.value.args[0] == Arg("self", None)
              && forall i :: 0 <= i < n ==>
                   && vars[i].typ.IsValid()
                   && r.value.args[i + 1].arg == (if c.convertToSnakeCase then c.strToSnakeCase(vars[i].name) else vars[i].name)
                   && r.value.args[i + 1].annotation
                      == Some(ParseTypeNode(c.builtIns, c.customScalars, vars[i].typ, true).value.annotation)
  {
    if n > 0 {
      RunParameters(c, types, customs, vars, n - 1);
    }
  }

  /** The payload value of a variable with a valid type, stated from its base type. */
  function ExpectedValue(c: Config, v: VariableDefinition): Expr
    requires v.typ.IsValid()
  {
    var param := ProcessName(c.convertToSnakeCase, c.strToSnakeCase, v.name);
    var base := v.typ.BaseName();
    if IsCustomScalar(c.builtIns, c.customScalars, base) && base != ""
       && c.customScalars[base].serialize.Some? && c.customScalars[base].serialize.value != ""
    then ECall(c.customScalars[base].serialize.value, [EName(param)])
    else EName(param)
  }

  /**
   * The payload has one key and one value per variable, in order. Key `i` is
   * variable `i`'s original name. Value `i` is `serialize(param)` when the
   * variable's base type is a custom scalar with a serializer, and the
   * parameter name itself otherwise.
   */
  lemma {:induction false} RunPayload(c: Config, types: seq<string>, customs: seq<string>,
                                      vars: seq<VariableDefinition>, n: nat)
    requires n <= |vars|
    ensures var r := Run(c, Start(types, customs), vars, n).out;
            r.Success? ==>
              && |r.value.payload.keys| == n
              && |r.value.payload.values| == n
              && forall i :: 0 <= i < n ==>
                   && vars[i].typ.IsValid()
                   && r.value.payload.keys[i] == vars[i].name
                   && r.value.payload.values[i] == ExpectedValue(c, vars[i])
  {
    if n > 0 {
      RunPayload(c, types, customs, vars, n - 1);
    }
  }

  /** With no variables the parameter list is just `self` and the payload is empty. */
  lemma RunNoVariables(c: Config, types: seq<string>, customs: seq<string>)
    ensures Run(c, Start(types, customs), [], 0) == Progress(Success(Generated([Arg("self", None)], Payload([], []))), types, customs)
  {
  }

  // ---------------------------------------------------------------------------
  // The accumulators
  // ---------------------------------------------------------------------------

  /** The index of the first variable with an invalid type, or `|vars|` when there is none. */
  function FirstInvalid(vars: seq<VariableDefinition>, n: nat): (k: nat)
    requires n <= |vars|
    ensures k <= n
    ensures forall i :: 0 <= i < k ==> vars[i].typ.IsValid()
    ensures k < n ==> !vars[k].typ.IsValid()
  {
    if n == 0 then 0
    else
      var k := FirstInvalid(vars, n - 1);
      if k < n - 1 || !vars[n - 1].typ.IsValid() then k else n
  }

  /** The names the first `n` variables contribute to `_used_types`: their user-defined base types, in order, duplicates kept. */
  function TypesUsedBy(builtIns: map<string, string>, scalars: map<string, ScalarData>,
                       vars: seq<VariableDefinition>, n: nat): seq<string>
    requires n <= |vars|
  {
    if n == 0 then [] else TypesUsedBy(builtIns, scalars, vars, n - 1) + UsedTypesOf(builtIns, scalars, vars[n - 1].typ)
  }

  /** The custom scalar names one reference contributes to `_used_custom_scalars`. */
  function ScalarsOf(builtIns: map<string, string>, scalars: map<string, ScalarData>, t: TypeRef): seq<string> {
    RecordedScalars(UsedScalarOf(builtIns, scalars, t))
  }

  /** The names the first `n` variables contribute to `_used_custom_scalars`: one per variable of a custom scalar type. */
  function ScalarsUsedBy(builtIns: map<string, string>, scalars: map<string, ScalarData>,
                         vars: seq<VariableDefinition>, n: nat): seq<string>
    requires n <= |vars|
  {
    if n == 0 then []
    else ScalarsUsedBy(builtIns, scalars, vars, n - 1) + ScalarsOf(builtIns, scalars, vars[n - 1].typ)
  }

  /** What one step adds to the accumulators: nothing once failed or on an invalid type. */
  lemma StepAccumulators(c: Config, p: Progress, v: VariableDefinition)
    ensures var q := Step(c, p, v);
            && q.types == p.types + (if p.out.Success? then UsedTypesOf(c.builtIns, c.customScalars, v.typ) else [])
            && q.customs == p.customs + (if p.out.Success? then ScalarsOf(c.builtIns, c.customScalars, v.typ) else [])
  {
  }

  /**
   * A run appends to the used-types list's prior contents, never clears or
   * reorders them, and appends exactly what the variables before the first
   * invalid one contribute: a `ParsingError` keeps the earlier variables'
   * contributions.
   */
  lemma {:induction false} RunUsedTypes(c: Config, start: Progress,
                                        vars: seq<VariableDefinition>, n: nat)
    requires n <= |vars| && start.out.Success?
    ensures Run(c, start, vars, n).types
            == start.types + TypesUsedBy(c.builtIns, c.customScalars, vars, FirstInvalid(vars, n))
  {
    if n > 0 {
      RunUsedTypes(c, start, vars, n - 1);
      ExtendUsedTypes(c, start, vars, n);
    }
  }

  /** The inductive step of `RunUsedTypes`. */
  lemma ExtendUsedTypes(c: Config, start: Progress, vars: seq<VariableDefinition>, n: nat)
    requires 0 < n <= |vars| && start.out.Success?
    requires Run(c, start, vars, n - 1).types
             == start.types + TypesUsedBy(c.builtIns, c.customScalars, vars, FirstInvalid(vars, n - 1))
    ensures Run(c, start, vars, n).types
            == start.types + TypesUsedBy(c.builtIns, c.customScalars, vars, FirstInvalid(vars, n))
  {
    var b, s := c.builtIns, c.customScalars;
    var k := FirstInvalid(vars, n - 1);
    var added := if k == n - 1 then UsedTypesOf(b, s, vars[n - 1].typ) else [];
    RunStepAccumulators(c, start, vars, n);
    UsedByNext(b, s, vars, n);
    AppendChain(Run(c, start, vars, n).types, Run(c, start, vars, n - 1).types, start.types, TypesUsedBy(b, s, vars, k), added,
                TypesUsedBy(b, s, vars, FirstInvalid(vars, n)));
  }

  /** The same for the used-custom-scalars list. */
  lemma {:induction false} RunUsedCustomScalars(c: Config, start: Progress,
                                                vars: seq<VariableDefinition>, n: nat)
    requires n <= |vars| && start.out.Success?
    ensures Run(c, start, vars, n).customs
            == start.customs + ScalarsUsedBy(c.builtIns, c.customScalars, vars, FirstInvalid(vars, n))
  {
    if n > 0 {
      RunUsedCustomScalars(c, start, vars, n - 1);
      ExtendUsedCustomScalars(c, start, vars, n);
    }
  }

  /** The inductive step of `RunUsedCustomScalars`. */
  lemma ExtendUsedCustomScalars(c: Config, start: Progress, vars: seq<VariableDefinition>, n: nat)
    requires 0 < n <= |vars| && start.out.Success?
    requires Run(c, start, vars, n - 1).customs
             == start.customs + ScalarsUsedBy(c.builtIns, c.customScalars, vars, FirstInvalid(vars, n - 1))
    ensures Run(c, start, vars, n).customs
            == start.customs + ScalarsUsedBy(c.builtIns, c.customScalars, vars, FirstInvalid(vars, n))
  {
    var b, s := c.builtIns, c.customScalars;
    var k := FirstInvalid(vars, n - 1);
    var added := if k == n - 1 then ScalarsOf(b, s, vars[n - 1].typ) else [];
    RunStepAccumulators(c, start, vars, n);
    UsedByNext(b, s, vars, n);
    AppendChain(Run(c, start, vars, n).customs, Run(c, start, vars, n - 1).customs, start.customs, ScalarsUsedBy(b, s, vars, k), added,
                ScalarsUsedBy(b, s, vars, FirstInvalid(vars, n)));
  }

  /** What the `n`-th step of a run adds to the accumulators: its variable's contributions while no variable so far is invalid. */
  lemma RunStepAccumulators(c: Config, start: Progress, vars: seq<VariableDefinition>, n: nat)
    requires 0 < n <= |vars| && start.out.Success?
    ensures var valid := FirstInvalid(vars, n - 1) == n - 1;
            var t := vars[n - 1].typ;
            && Run(c, start, vars, n).types
               == Run(c, start, vars, n - 1).types + (if valid then UsedTypesOf(c.builtIns, c.customScalars, t) else [])
            && Run(c, start, vars, n).customs
               == Run(c, start, vars, n - 1).customs
                  + (if valid then ScalarsOf(c.builtIns, c.customScalars, t) else [])
  {
    RunSucceedsUntilInvalid(c, start, vars, n - 1);
    StepAccumulators(c, Run(c, start, vars, n - 1), vars[n - 1]);
  }

  /** A run has succeeded so far exactly when no variable so far is invalid. */
  lemma {:induction false} RunSucceedsUntilInvalid(c: Config, start: Progress, vars: seq<VariableDefinition>, n: nat)
    requires n <= |vars| && start.out.Success?
    ensures Run(c, start, vars, n).out.Success? <==> FirstInvalid(vars, n) == n
  {
    if n > 0 {
      RunSucceedsUntilInvalid(c, start, vars, n - 1);
    }
  }

  /** Extending the prefix by one variable adds its contributions while no variable before it is invalid. */
  lemma UsedByNext(b: map<string, string>, s: map<string, ScalarData>, vars: seq<VariableDefinition>, n: nat)
    requires 0 < n <= |vars|
    ensures var k := FirstInvalid(vars, n - 1);
            && TypesUsedBy(b, s, vars, FirstInvalid(vars, n))
               == TypesUsedBy(b, s, vars, k) + (if k == n - 1 then UsedTypesOf(b, s, vars[n - 1].typ) else [])
            && ScalarsUsedBy(b, s, vars, FirstInvalid(vars, n))
               == ScalarsUsedBy(b, s, vars, k) + (if k == n - 1 then ScalarsOf(b, s, vars[n - 1].typ) else [])
  {
    var k := FirstInvalid(vars, n - 1);
    if k == n - 1 && vars[n - 1].typ.IsValid() {
      assert FirstInvalid(vars, n) == n;
    } else {
      assert FirstInvalid(vars, n) == k;
      assert TypesUsedBy(b, s, vars, k) + [] == TypesUsedBy(b, s, vars, k);
      assert ScalarsUsedBy(b, s, vars, k) + [] == ScalarsUsedBy(b, s, vars, k);
    }
  }

  /** Appending to a list that extends `start` by `middle` extends `start` by `middle + added`. */
  lemma AppendChain(cur: seq<string>, prev: seq<string>, start: seq<string>, middle: seq<string>, added: seq<string>, extended: seq<string>)
    requires cur == prev + added
    requires prev == start + middle
    requires extended == middle + added
    ensures cur == start + extended
  {
  }

  /**
   * The used-types list holds exactly the user-defined base types of the
   * variables it covers: built-in and custom scalars never enter it, and every
   * user-defined base type does.
   */
  lemma {:induction false} TypesUsedByMembers(builtIns: map<string, string>, scalars: map<string, ScalarData>,
                                              vars: seq<VariableDefinition>, n: nat)
    requires n <= |vars|
    requires forall i :: 0 <= i < n ==> vars[i].typ.IsValid()
    ensures |TypesUsedBy(builtIns, scalars, vars, n)| <= n
    ensures forall x :: x in TypesUsedBy(builtIns, scalars, vars, n) <==>
              IsUserType(builtIns, scalars, x) && exists i :: 0 <= i < n && vars[i].typ.BaseName() == x
  {
    if n > 0 {
      TypesUsedByMembers(builtIns, scalars, vars, n - 1);
    }
  }

  /** Every recorded custom scalar is a non-empty configured one that a built-in does not shadow. */
  lemma {:induction false} ScalarsUsedByAreConfigured(builtIns: map<string, string>, scalars: map<string, ScalarData>,
                                                      vars: seq<VariableDefinition>, n: nat)
    requires n <= |vars|
    ensures |ScalarsUsedBy(builtIns, scalars, vars, n)| <= n
    ensures forall x :: x in ScalarsUsedBy(builtIns, scalars, vars, n) ==> x in scalars && x !in builtIns && x != ""
  {
    if n > 0 {
      ScalarsUsedByAreConfigured(builtIns, scalars, vars, n - 1);
    }
  }
}
