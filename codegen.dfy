/**
 * The fragments of Python's `ast` that the arguments generator builds, and the
 * small constructors of `ariadne_codegen/generators/codegen.py` it calls.
 * Only their observable shape is modelled, not Python `ast` objects.
 */
module Codegen {
  import opened Wrappers

  /** A type annotation: a bare name, `Optional[...]` or `List[...]`. */
  datatype Annotation = AName(id: string) | AOptional(inner: Annotation) | AList(elem: Annotation)

  /** An expression in the variables payload: a name, or a call of a named function. */
  datatype Expr = EName(id: string) | ECall(func: string, args: seq<Expr>)

  /** One parameter of the generated method (`ast.arg`). */
  datatype Arg = Arg(arg: string, annotation: Option<Annotation>)

  /** `generate_nullable_annotation`: subscript `Optional[slice]`. */
  function NullableAnnotation(slice: Annotation): Annotation
  {
    AOptional(slice)
  }

  /** `generate_annotation_name`: the name, wrapped in `Optional` when nullable. */
  function AnnotationName(name: string, nullable: bool): Annotation
  {
    if nullable then NullableAnnotation(AName(name)) else AName(name)
  }

  /** `generate_list_annotation`: `List[slice]`, wrapped in `Optional` when nullable. */
  function ListAnnotation(slice: Annotation, nullable: bool): Annotation
  {
    if nullable then NullableAnnotation(AList(slice)) else AList(slice)
  }

  /** `generate_arg(name)` without annotation: the receiver parameter `self`. */
  function SelfArg(): Arg {
    Arg("self", None)
  }

  predicate IsOptional(a: Annotation) {
    a.AOptional?
  }

  /** True when no `Optional` occurs anywhere in the annotation. */
  predicate NoOptional(a: Annotation) {
    match a
    case AName(_) => true
    case AOptional(_) => false
    case AList(e) => NoOptional(e)
  }

  /** The annotation with every `Optional` wrapper removed: its list structure and leaf name. */
  function Erase(a: Annotation): (r: Annotation)
    ensures NoOptional(r)
  {
    match a
    case AName(_) => a
    case AOptional(i) => Erase(i)
    case AList(e) => AList(Erase(e))
  }

  /** `depth` nested `List[...]` around `leaf`. */
  function Nest(depth: nat, leaf: Annotation): Annotation {
    if depth == 0 then leaf else AList(Nest(depth - 1, leaf))
  }
}
