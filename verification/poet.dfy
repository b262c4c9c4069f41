/** The slice of KotlinPoet's type model that the processor builds and inspects:
    a class name (with its nullability) and a class name parameterised by
    type arguments. Name validation done by KotlinPoet is not modelled. */
module Poet {

  /** A fully qualified class name such as `kotlin.collections.List`. */
  datatype ClassName = ClassName(name: string, nullable: bool)

  /** `ClassName` or `ParameterizedTypeName`. */
  datatype TypeName =
    | Plain(cls: ClassName)
    | Param(rawType: ClassName, args: seq<TypeName>, nullable: bool)
  {
    /** The nullability flag of the outermost node. */
    function IsNullable(): bool {
      match this
      case Plain(c) => c.nullable
      case Param(_, _, n) => n
    }

    /** The class this type names, with or without type arguments. */
    function Raw(): ClassName {
      match this
      case Plain(c) => c
      case Param(c, _, _) => c
    }
  }

  /** `ClassName(packageName, simpleName)` joined into one qualified name. */
  function Qualified(packageName: string, simpleName: string): (r: ClassName)
    ensures !r.nullable
    ensures |r.name| == |packageName| + 1 + |simpleName|
  {
    ClassName(packageName + "." + simpleName, false)
  }

  /** `this.parameterizedBy(arg)` for a single type argument. */
  function Of(owner: ClassName, arg: TypeName): (r: TypeName)
    ensures r.Param? && r.args == [arg] && !r.nullable
  {
    Param(owner, [arg], false)
  }
}
