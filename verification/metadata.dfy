/** What the processor reads from a `@VMState` class: the Kotlin metadata
    type of each primary-constructor parameter, translated into a KotlinPoet
    type (`getProperty`), and the `@Config` markers of each field, paired
    with the parameters by position into `Property` records. */
module Metadata {
  import opened Wrappers
  import opened Poet
  import opened Seqs

  /** A `ProtoBuf.Type` with its class name already resolved by the
      `NameResolver` (`kotlin/collections/List`, `/` between packages). */
  datatype MetaType = MetaType(className: string, nullable: bool, arguments: seq<MetaType>)

  /** `name.toString().replace('/', '.')`. */
  function Dots(s: string): string {
    if |s| == 0 then "" else [if s[0] == '/' then '.' else s[0]] + Dots(s[1..])
  }

  /** `Dots` replaces every `/` by `.` and keeps every other character. */
  lemma {:induction false} DotsAt(s: string)
    ensures |Dots(s)| == |s|
    ensures forall k :: 0 <= k < |s| ==> Dots(s)[k] == (if s[k] == '/' then '.' else s[k])
    decreases |s|
  {
    if |s| > 0 {
      DotsAt(s[1..]);
    }
  }

  /** `Dots` works character by character, so it distributes over
      concatenation. */
  lemma {:induction false} DotsAppend(a: string, b: string)
    ensures Dots(a + b) == Dots(a) + Dots(b)
    decreases |a|
  {
    if |a| > 0 {
      assert (a + b)[0] == a[0];
      assert (a + b)[1..] == a[1..] + b;
      DotsAppend(a[1..], b);
    } else {
      assert a + b == b;
    }
  }

  /** Text without `/` is left as it is. */
  lemma {:induction false} DotsKeeps(s: string)
    requires forall k :: 0 <= k < |s| ==> s[k] != '/'
    ensures Dots(s) == s
    decreases |s|
  {
    if |s| > 0 {
      DotsKeeps(s[1..]);
      assert [s[0]] + s[1..] == s;
    }
  }

  lemma DotsSlash(slash: string)
    requires slash == "/"
    ensures Dots(slash) == "."
  {
    assert slash[1..] == [];
  }

  /** A JVM internal name `package/Name` becomes `package.Name`. */
  lemma DotsQualified(pkg: string, name: string)
    requires forall k :: 0 <= k < |pkg| ==> pkg[k] != '/'
    requires forall k :: 0 <= k < |name| ==> name[k] != '/'
    ensures Dots(pkg + "/" + name) == pkg + "." + name
  {
    DotsAppend(pkg + "/", name);
    DotsAppend(pkg, "/");
    DotsKeeps(pkg);
    DotsKeeps(name);
    DotsSlash("/");
  }

  /** `toClassName`: `bestGuess` on the dotted name, with the given
      nullability. */
  function ToClassName(name: string, isNullable: bool): ClassName {
    ClassName(Dots(name), isNullable)
  }

  /** `getProperty`: the KotlinPoet type of a metadata type. A node with
      arguments becomes a parameterised type; the translated arguments are
      kept in order; nullability is taken from the node itself. */
  function GetProperty(t: MetaType): (r: TypeName)
    ensures r.IsNullable() == t.nullable
    ensures r.Raw() == ToClassName(t.className, t.nullable)
    ensures r.Param? <==> |t.arguments| > 0
    ensures r.Param? ==> |r.args| == |t.arguments|
    decreases t, 1
  {
    var className := ToClassName(t.className, t.nullable);
    var arguments := GetArguments(t.arguments);
    if |arguments| > 0 then Param(className, arguments, className.nullable)
    else Plain(className)
  }

  /** The `forEach` over `type.argumentList`. */
  function GetArguments(args: seq<MetaType>): (r: seq<TypeName>)
    ensures |r| == |args|
    ensures forall k :: 0 <= k < |args| ==> r[k] == GetProperty(args[k])
    decreases args, 0
  {
    if |args| == 0 then [] else [GetProperty(args[0])] + GetArguments(args[1..])
  }

  /** `'.'` back to `'/'`. */
  function Slashes(s: string): string {
    if |s| == 0 then "" else [if s[0] == '.' then '/' else s[0]] + Slashes(s[1..])
  }

  /** Metadata names that `Dots` can be undone on: no `.` of their own. */
  predicate Undotted(t: MetaType) {
    && (forall k :: 0 <= k < |t.className| ==> t.className[k] != '.')
    && forall k :: 0 <= k < |t.arguments| ==> Undotted(t.arguments[k])
  }

  lemma {:induction false} SlashesDots(s: string)
    requires forall k :: 0 <= k < |s| ==> s[k] != '.'
    ensures Slashes(Dots(s)) == s
  {
    if |s| > 0 {
      assert Dots(s)[1..] == Dots(s[1..]);
      SlashesDots(s[1..]);
    }
  }

  /** The reading of a KotlinPoet type back into a metadata type. */
  function ToMeta(t: TypeName): MetaType
    decreases t, 1
  {
    match t
    case Plain(c) => MetaType(Slashes(c.name), c.nullable, [])
    case Param(c, args, n) => MetaType(Slashes(c.name), n, ToMetaList(args))
  }

  function ToMetaList(args: seq<TypeName>): seq<MetaType>
    decreases args, 0
  {
    if |args| == 0 then [] else [ToMeta(args[0])] + ToMetaList(args[1..])
  }

  /** `getProperty` loses nothing: reading its result back gives the
      metadata type it came from (for names where `/` and `.` were not
      both in use). */
  lemma {:induction false} GetPropertyInverse(t: MetaType)
    requires Undotted(t)
    ensures ToMeta(GetProperty(t)) == t
    decreases t, 1
  {
    SlashesDots(t.className);
    GetArgumentsInverse(t.arguments);
  }

  lemma {:induction false} GetArgumentsInverse(args: seq<MetaType>)
    requires forall k :: 0 <= k < |args| ==> Undotted(args[k])
    ensures ToMetaList(GetArguments(args)) == args
    decreases args, 0
  {
    if |args| > 0 {
      GetPropertyInverse(args[0]);
      GetArgumentsInverse(args[1..]);
      assert GetArguments(args)[1..] == GetArguments(args[1..]);
    }
  }

  /** The `Event<T>` class every property's observable carries. */
  function EventClass(): ClassName {
    Qualified("com.belax.annotation", "Event")
  }

  /** `Property`: `type` is `Event<propertyType>`. */
  datatype Property = Property(
    name: string,
    typ: TypeName,
    isSingle: bool,
    isRetain: bool,
    isInput: bool,
    propertyType: TypeName)

  /** The `@Config` annotation; every marker defaults to false. */
  datatype Config = Config(isSingle: bool, isRetain: bool, isInput: bool)

  /** The `javax.lang.model` element kinds an enclosed element can have. */
  datatype ElementKind =
    | Package | Enum | Class | AnnotationType | Interface | EnumConstant | Field
    | Parameter | LocalVariable | ExceptionParameter | Method | Constructor
    | StaticInit | InstanceInit | TypeParameter | OtherKind | ResourceVariable
  {
    /** `ElementKind.isField()`. */
    predicate IsField() {
      this == Field || this == EnumConstant
    }
  }

  /** An element enclosed by the state class and its `@Config`, if any. */
  datatype Element = Element(kind: ElementKind, config: Option<Config>)

  /** A value parameter of a constructor in the class metadata. */
  datatype ValueParameter = ValueParameter(name: string, typ: MetaType)

  datatype ConstructorMeta = ConstructorMeta(isPrimary: bool, valueParameters: seq<ValueParameter>)

  /** Why `process` throws while reading a class. */
  datatype MetadataError =
    | NoPrimaryConstructor            // `find { it.isPrimary }!!`
    | ParameterIndexOutOfBounds(index: nat)  // `valueParameterList[index]`

  /** The index of the first primary constructor, or `|cs|` when there is
      none. */
  function PrimaryIndex(cs: seq<ConstructorMeta>): (k: nat)
    ensures k <= |cs|
    ensures forall j :: 0 <= j < k ==> !cs[j].isPrimary
    ensures k < |cs| ==> cs[k].isPrimary
  {
    if |cs| == 0 || cs[0].isPrimary then 0 else 1 + PrimaryIndex(cs[1..])
  }

  /** `constructorList.find { it.isPrimary }`: the first primary one. */
  function FindPrimary(cs: seq<ConstructorMeta>): (r: Option<ConstructorMeta>)
    ensures r.None? <==> forall k :: 0 <= k < |cs| ==> !cs[k].isPrimary
    ensures r.Some? <==> PrimaryIndex(cs) < |cs|
    ensures r.Some? ==> r.value.isPrimary && r.value == cs[PrimaryIndex(cs)]
    ensures r.Some? ==> exists k :: 0 <= k < |cs| && cs[k] == r.value && forall j :: 0 <= j < k ==> !cs[j].isPrimary
  {
    if |cs| == 0 then None
    else if cs[0].isPrimary then Some(cs[0])
    else FindPrimary(cs[1..])
  }

  function IsFieldElement(e: Element): bool {
    e.kind.IsField()
  }

  /** The `?.isX == true` reads of the markers. */
  function ConfigOf(e: Element): (r: Config)
    ensures e.config.None? ==> r == Config(false, false, false)
  {
    e.config.GetOr(Config(false, false, false))
  }

  /** The property built from the field and the parameter at one index. */
  function MakeProperty(field: Element, param: ValueParameter): (r: Property)
    ensures r.name == param.name && r.propertyType == GetProperty(param.typ)
    ensures r.typ == Of(EventClass(), r.propertyType)
  {
    var c := ConfigOf(field);
    var propertyType := GetProperty(param.typ);
    Property(param.name, Of(EventClass(), propertyType), c.isSingle, c.isRetain, c.isInput, propertyType)
  }

  /** Pairs fields and parameters by position. */
  function Pair(fields: seq<Element>, params: seq<ValueParameter>): (r: seq<Property>)
    requires |fields| <= |params|
    ensures |r| == |fields|
    ensures forall i :: 0 <= i < |fields| ==> r[i] == MakeProperty(fields[i], params[i])
  {
    if |fields| == 0 then [] else [MakeProperty(fields[0], params[0])] + Pair(fields[1..], params[1..])
  }

  /** The property list of `process`: the i-th field (an enclosed element
      of field kind) is paired with the i-th parameter of the primary
      constructor. */
  function Extract(constructors: seq<ConstructorMeta>, enclosed: seq<Element>): (r: Result<seq<Property>, MetadataError>)
    ensures FindPrimary(constructors).None? ==> r == Failure(NoPrimaryConstructor)
    ensures r.Success? ==> && FindPrimary(constructors).Some?
                           && |r.value| == |Filter(IsFieldElement, enclosed)|
                           && |r.value| <= |FindPrimary(constructors).value.valueParameters|
    ensures FindPrimary(constructors).Some? ==>
              (r == Failure(ParameterIndexOutOfBounds(|FindPrimary(constructors).value.valueParameters|))
               <==> |Filter(IsFieldElement, enclosed)| > |FindPrimary(constructors).value.valueParameters|)
  {
    match FindPrimary(constructors)
    case None => Failure(NoPrimaryConstructor)
    case Some(constr) =>
      var fields := Filter(IsFieldElement, enclosed);
      var params := constr.valueParameters;
      if |fields| > |params| then Failure(ParameterIndexOutOfBounds(|params|))
      else Success(Pair(fields, params))
  }

  /** Extraction fails exactly when there is no primary constructor or
      there are more fields than parameters, and with that error. */
  lemma ExtractFails(constructors: seq<ConstructorMeta>, enclosed: seq<Element>)
    ensures Extract(constructors, enclosed).Failure? <==>
      || FindPrimary(constructors).None?
      || |Filter(IsFieldElement, enclosed)| > |FindPrimary(constructors).value.valueParameters|
    ensures FindPrimary(constructors).None? ==>
      Extract(constructors, enclosed) == Failure(NoPrimaryConstructor)
  {
  }

  /** On success there is one property per field, in field order: name and
      types from the parameter at the same index, markers from the field. */
  lemma ExtractPairs(constructors: seq<ConstructorMeta>, enclosed: seq<Element>, i: nat)
    requires Extract(constructors, enclosed).Success?
    requires i < |Filter(IsFieldElement, enclosed)|
    ensures var ps := Extract(constructors, enclosed).value;
      var field := Filter(IsFieldElement, enclosed)[i];
      var param := FindPrimary(constructors).value.valueParameters[i];
      && |ps| == |Filter(IsFieldElement, enclosed)|
      && ps[i].name == param.name
      && ps[i].propertyType == GetProperty(param.typ)
      && ps[i].typ == Of(EventClass(), GetProperty(param.typ))
      && ps[i].isSingle == (field.config.Some? && field.config.value.isSingle)
      && ps[i].isRetain == (field.config.Some? && field.config.value.isRetain)
      && ps[i].isInput == (field.config.Some? && field.config.value.isInput)
  {
  }
}
