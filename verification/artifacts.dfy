/** The code the processor generates for one `@VMState` class, as records of
    names and ordered member lists: the observation interface (`Client`),
    the snapshot class (`_Parcelable`), the input class (`Input`), the
    delegate (`Delegate`) and the ViewModel factory (`Factory`). Every
    artifact is a pure function of the ordered property list. */
module Artifacts {
  import opened Wrappers
  import opened Poet
  import opened Seqs
  import opened Metadata

  // ---------------------------------------------------------------- flags

  function IsRetained(p: Property): bool { p.isRetain }
  function IsInputField(p: Property): bool { p.isInput }

  /** `properties.any { it.isRetain }`: a snapshot class is generated. */
  function IsParcelable(ps: seq<Property>): (r: bool)
    ensures r <==> exists i :: 0 <= i < |ps| && ps[i].isRetain
  {
    Any(IsRetained, ps)
  }

  /** `properties.any { it.isInput }`: an input class is generated. */
  function HasInput(ps: seq<Property>): (r: bool)
    ensures r <==> exists i :: 0 <= i < |ps| && ps[i].isInput
  {
    Any(IsInputField, ps)
  }

  // ---------------------------------------------------------------- names

  datatype Names = Names(client: string, delegate: string, snapshot: string, input: string, factory: string)

  /** The five generated type names of `process`. */
  function NamesOf(simpleName: string): Names {
    Names(simpleName + "Client", simpleName + "Delegate", simpleName + "_Parcelable",
          simpleName + "Input", simpleName + "Factory")
  }

  /** Every generated type is named after the state class, and no two of
      them share a name (nor the state class's own), whatever the state
      class is called: each file gets its own type. */
  lemma NamesDistinct(simpleName: string)
    ensures var n := NamesOf(simpleName);
      var all := [simpleName, n.client, n.delegate, n.snapshot, n.input, n.factory];
      && (forall i :: 0 <= i < |all| ==> |all[i]| >= |simpleName| && all[i][..|simpleName|] == simpleName)
      && forall i, j :: 0 <= i < j < |all| ==> all[i] != all[j]
  {
    var n := NamesOf(simpleName);
    var all := [simpleName, n.client, n.delegate, n.snapshot, n.input, n.factory];
    assert |all[0]| == |simpleName| && |all[1]| == |simpleName| + 6 && |all[2]| == |simpleName| + 8;
    assert |all[3]| == |simpleName| + 11 && |all[4]| == |simpleName| + 5 && |all[5]| == |simpleName| + 7;
    forall i | 0 <= i < |all|
      ensures all[i][..|simpleName|] == simpleName
    {
      PrefixOf(simpleName, all[i][|simpleName|..]);
    }
  }

  lemma PrefixOf(a: string, b: string)
    ensures (a + b)[..|a|] == a && (a + b)[|a|..] == b
  {
  }

  function UpperChar(c: char): (r: char)
    ensures !('a' <= r <= 'z')
  {
    if 'a' <= c <= 'z' then (c as int - 32) as char else c
  }

  /** `toUpperCase()`, on ASCII letters. */
  function Upper(s: string): string {
    if |s| == 0 then "" else [UpperChar(s[0])] + Upper(s[1..])
  }

  /** `Upper` maps every character through `UpperChar`. */
  lemma {:induction false} UpperAt(s: string)
    ensures |Upper(s)| == |s|
    ensures forall k :: 0 <= k < |s| ==> Upper(s)[k] == UpperChar(s[k])
    decreases |s|
  {
    if |s| > 0 {
      UpperAt(s[1..]);
    }
  }

  /** `capitalize()`, on ASCII letters: only a lower-case first letter
      changes. */
  function Capitalize(s: string): (r: string)
    ensures |r| == |s|
    ensures |s| > 0 ==> r[0] == UpperChar(s[0]) && r[1..] == s[1..]
  {
    if |s| == 0 then s else [UpperChar(s[0])] + s[1..]
  }

  /** The name of the companion constant holding the bundle key. */
  const BundleKeyName := "BUNDLE_KEY"

  /** The constant's value: the upper-cased simple name and `_BUNDLE_KEY`. */
  function BundleKeyValue(simpleName: string): string {
    Upper(simpleName) + "_" + BundleKeyName
  }

  /** The key is the simple name in upper case (each character through
      `UpperChar`, so no lower-case letter left) followed by `_BUNDLE_KEY`. */
  lemma BundleKeyShape(simpleName: string)
    ensures var r := BundleKeyValue(simpleName);
      && |r| == |simpleName| + 11
      && r[..|simpleName|] == Upper(simpleName)
      && (forall k :: 0 <= k < |simpleName| ==> r[k] == UpperChar(simpleName[k]))
      && r[|simpleName|..] == "_" + BundleKeyName
      && forall k :: 0 <= k < |simpleName| ==> !('a' <= r[k] <= 'z')
  {
    UpperAt(simpleName);
    var u := Upper(simpleName);
    assert BundleKeyValue(simpleName) == u + ("_" + BundleKeyName);
    PrefixOf(u, "_" + BundleKeyName);
  }

  // ------------------------------------------------------- types and members

  /** `ClassName("android.os", "Bundle").asNullable()`. */
  function BundleType(): TypeName {
    Plain(ClassName("android.os.Bundle", true))
  }

  function ObservableOf(t: TypeName): TypeName {
    Of(Qualified("io.reactivex", "Observable"), t)
  }

  /** `getEventClassName`. */
  function EventClassOf(isSingle: bool): (r: ClassName)
    ensures r.name == (if isSingle then "com.belax.annotation.SingleEvent" else "com.belax.annotation.SimpleEvent")
  {
    Qualified("com.belax.annotation", if isSingle then "SingleEvent" else "SimpleEvent")
  }

  /** A constructor parameter, class property or function parameter. */
  datatype Decl = Decl(name: string, typ: TypeName)

  datatype Modifier = Abstract | Override | Private

  /** A function's signature: name, modifiers, parameters, return type. */
  datatype Fun = Fun(name: string, modifiers: seq<Modifier>, params: seq<Decl>, result: Option<TypeName>)

  function DeclOf(p: Property): Decl {
    Decl(p.name, p.propertyType)
  }

  // ------------------------------------------------- snapshot and input class

  /** A generated `data class`: its primary constructor declares one
      property per field. A snapshot class is also `@Parcelize` and
      `Parcelable`. */
  datatype DataClass = DataClass(name: string, fields: seq<Decl>, parcelable: bool)

  /** `buildOutClass`: the retained properties, in declaration order. */
  function BuildOutClass(ps: seq<Property>, name: string, isParcelable: bool): (r: Option<DataClass>)
    ensures r.Some? <==> isParcelable
    ensures r.Some? ==> r.value.name == name && r.value.parcelable
    ensures r.Some? ==> |r.value.fields| == |Filter(IsRetained, ps)|
  {
    if !isParcelable then None
    else Some(DataClass(name, Map(DeclOf, Filter(IsRetained, ps)), true))
  }

  /** `buildInputClass`: the input properties, in declaration order. */
  function BuildInputClass(ps: seq<Property>, name: string, isInput: bool): (r: Option<DataClass>)
    ensures r.Some? <==> isInput
    ensures r.Some? ==> r.value.name == name && !r.value.parcelable
    ensures r.Some? ==> |r.value.fields| == |Filter(IsInputField, ps)|
  {
    if !isInput then None
    else Some(DataClass(name, Map(DeclOf, Filter(IsInputField, ps)), false))
  }

  /** The snapshot class holds exactly the retained properties: the i-th
      retained property is its field number `Rank`, every field declares
      some retained property, and it is never an empty data class. */
  lemma SnapshotClassExact(ps: seq<Property>, name: string, i: nat)
    requires i < |ps|
    ensures var c := BuildOutClass(ps, name, IsParcelable(ps));
      && (c.Some? ==> |c.value.fields| > 0)
      && (ps[i].isRetain ==> c.Some? && Rank(IsRetained, ps, i) < |c.value.fields|
                             && c.value.fields[Rank(IsRetained, ps, i)] == DeclOf(ps[i]))
      && (c.Some? ==> forall j :: 0 <= j < |c.value.fields| ==> DeclaredBy(ps, IsRetained, c.value.fields[j]))
  {
    ClassExact(ps, IsRetained, i);
  }

  /** The input class holds exactly the input properties, in order, every
      field declares some input property, and it is never an empty data
      class. */
  lemma InputClassExact(ps: seq<Property>, name: string, i: nat)
    requires i < |ps|
    ensures var c := BuildInputClass(ps, name, HasInput(ps));
      && (c.Some? ==> |c.value.fields| > 0)
      && (ps[i].isInput ==> c.Some? && Rank(IsInputField, ps, i) < |c.value.fields|
                            && c.value.fields[Rank(IsInputField, ps, i)] == DeclOf(ps[i]))
      && (c.Some? ==> forall j :: 0 <= j < |c.value.fields| ==> DeclaredBy(ps, IsInputField, c.value.fields[j]))
  {
    ClassExact(ps, IsInputField, i);
  }

  /** `d` declares one of the properties satisfying `pick`. */
  predicate DeclaredBy(ps: seq<Property>, pick: Property -> bool, d: Decl) {
    exists k :: 0 <= k < |ps| && pick(ps[k]) && d == DeclOf(ps[k])
  }

  /** The field list `Map(DeclOf, Filter(pick, ps))` of either class. */
  lemma ClassExact(ps: seq<Property>, pick: Property -> bool, i: nat)
    requires i < |ps|
    ensures Any(pick, ps) ==> |Filter(pick, ps)| > 0
    ensures pick(ps[i]) ==> Rank(pick, ps, i) < |Filter(pick, ps)|
                            && Map(DeclOf, Filter(pick, ps))[Rank(pick, ps, i)] == DeclOf(ps[i])
    ensures forall j :: 0 <= j < |Filter(pick, ps)| ==> DeclaredBy(ps, pick, Map(DeclOf, Filter(pick, ps))[j])
  {
    FilterMembers(pick, ps);
    var f := Filter(pick, ps);
    if Any(pick, ps) {
      var k :| 0 <= k < |ps| && pick(ps[k]);
      assert ps[k] in f;
    }
    if pick(ps[i]) {
      FilterAt(pick, ps, i);
    }
    forall j | 0 <= j < |Filter(pick, ps)|
      ensures DeclaredBy(ps, pick, Map(DeclOf, Filter(pick, ps))[j])
    {
      var k :| 0 <= k < |ps| && ps[k] == f[j];
      assert pick(ps[k]) && Map(DeclOf, f)[j] == DeclOf(ps[k]);
    }
  }

  // ------------------------------------------------------------- interface

  datatype ClientInterface = ClientInterface(name: string, functions: seq<Fun>)

  /** `onSaveInstanceState(bundle: Bundle?)`. */
  function SaveFun(modifier: Modifier): Fun {
    Fun("onSaveInstanceState", [modifier], [Decl("bundle", BundleType())], None)
  }

  /** `<name>Changes(): Observable<Event<T>>`. */
  function ChangesFun(p: Property, modifier: Modifier): Fun {
    Fun(p.name + "Changes", [modifier], [], Some(ObservableOf(p.typ)))
  }

  function AbstractChanges(p: Property): Fun { ChangesFun(p, Abstract) }

  /** `buildObservableInterface`: one abstract accessor per property, in
      order, and the save function when there is a snapshot class. */
  function BuildObservableInterface(ps: seq<Property>, name: string, isParcelable: bool): (r: ClientInterface)
    ensures r.name == name
    ensures |r.functions| == |ps| + (if isParcelable then 1 else 0)
    ensures forall i :: 0 <= i < |ps| ==> r.functions[i].name == ps[i].name + "Changes"
    ensures isParcelable ==> r.functions[|ps|].name == "onSaveInstanceState"
    ensures forall i :: 0 <= i < |r.functions| ==> r.functions[i].modifiers == [Abstract]
  {
    ClientInterface(name, Map(AbstractChanges, ps) + (if isParcelable then [SaveFun(Abstract)] else []))
  }

  // ---------------------------------------------------------------- delegate

  /** The parameter names the four generated call sites and signatures
      share: `bundle` when a snapshot class exists, then `input` when an
      input class exists. */
  function ParamNames(hasSnapshot: bool, hasInput: bool): (r: seq<string>)
    ensures |r| == (if hasSnapshot then 1 else 0) + (if hasInput then 1 else 0)
    ensures hasSnapshot ==> r[0] == "bundle"
    ensures hasInput ==> r[|r| - 1] == "input"
  {
    (if hasSnapshot then ["bundle"] else []) + (if hasInput then ["input"] else [])
  }

  /** `bundle: Bundle?` and `input: <Input>` as declared parameters. */
  function ParamFields(snapshot: Option<DataClass>, input: Option<DataClass>): seq<Decl> {
    (if snapshot.Some? then [Decl("bundle", BundleType())] else [])
    + (if input.Some? then [Decl("input", Plain(ClassName(input.value.name, false)))] else [])
  }

  function DeclName(f: Decl): string { f.name }

  /** What the `getInitialState` body does: build the initial value (from
      `input` for the input properties when an input class exists), then,
      when a snapshot class exists, copy the retained properties from the
      snapshot read out of `bundle` under the key. `stateClass` is the class
      whose constructor builds the initial value. */
  datatype Restore = Restore(snapshotClass: string, key: string, copied: seq<string>)
  datatype InitialState = InitialState(fun: Fun, stateClass: string, fromInput: Option<seq<string>>, restore: Option<Restore>)

  function PropertyName(p: Property): string { p.name }

  /** `getInitialStateFun`. */
  function GetInitialStateFun(simpleName: string, defaultType: ClassName, ps: seq<Property>,
                              snapshot: Option<DataClass>, key: string, input: Option<DataClass>): (r: InitialState)
    ensures r.fun.name == "getInitialState" && r.fun.modifiers == [Private]
    ensures r.fun.result == Some(Plain(defaultType))
    ensures r.stateClass == simpleName
    ensures Map(DeclName, r.fun.params) == ParamNames(snapshot.Some?, input.Some?)
    ensures r.fromInput.Some? <==> input.Some?
    ensures r.restore.Some? <==> snapshot.Some?
  {
    var f := Fun("getInitialState", [Private], ParamFields(snapshot, input), Some(Plain(defaultType)));
    if snapshot.None? && input.None? then InitialState(f, simpleName, None, None)
    else
      var fromInput := if input.None? then None else Some(Map(PropertyName, Filter(IsInputField, ps)));
      var restore := if snapshot.None? then None
        else Some(Restore(snapshot.value.name, key, Map(PropertyName, Filter(IsRetained, ps))));
      InitialState(f, simpleName, fromInput, restore)
  }

  /** `<name>Subject`: a `BehaviorSubject<Event<T>>` seeded with the
      property's default wrapped in its event class. */
  datatype Subject = Subject(name: string, typ: TypeName, event: ClassName, seededFrom: string)

  /** `<name>Changes()` returning `<subject>.hide()`. */
  datatype Accessor = Accessor(fun: Fun, subject: string)

  /** `push<Name>(value)` emitting `Event(value)` on the subject. */
  datatype PushMember = PushMember(fun: Fun, subject: string, event: ClassName)

  /** `onSaveInstanceState` building the snapshot from
      `<name> = <name>Subject.value!!.get()` and storing it under the key. */
  datatype Save = Save(fun: Fun, snapshotClass: string, values: seq<SavedField>, key: string)

  /** One `<field> = <subject>.value!!.get()` argument of the snapshot. */
  datatype SavedField = SavedField(field: string, subject: string)

  datatype Delegate = Delegate(
    name: string,
    superInterface: ClassName,
    defaultType: ClassName,
    defaultArgs: seq<string>,
    initialState: InitialState,
    subjects: seq<Subject>,
    changes: seq<Accessor>,
    pushes: seq<PushMember>,
    bundleKey: Option<string>,
    save: Option<Save>,
    ctorParams: Option<seq<Decl>>)

  function SubjectName(p: Property): string { p.name + "Subject" }

  function SubjectOf(p: Property): Subject {
    Subject(SubjectName(p), Of(Qualified("io.reactivex.subjects", "BehaviorSubject"), p.typ),
            EventClassOf(p.isSingle), p.name)
  }

  function AccessorOf(p: Property): Accessor {
    Accessor(ChangesFun(p, Override), SubjectName(p))
  }

  function PushOf(p: Property): PushMember {
    PushMember(Fun("push" + Capitalize(p.name), [], [Decl("value", p.propertyType)], None),
         SubjectName(p), EventClassOf(p.isSingle))
  }

  function ReadOf(p: Property): SavedField {
    SavedField(p.name, SubjectName(p))
  }

  function SavedFieldName(f: SavedField): string { f.field }

  /** `buildDelegate`. */
  function BuildDelegate(simpleName: string, internalName: string, ps: seq<Property>, client: ClientInterface,
                         name: string, snapshot: Option<DataClass>, input: Option<DataClass>): (r: Delegate)
    ensures r.name == name && r.superInterface == ClassName(client.name, false)
    ensures |r.subjects| == |ps| && |r.changes| == |ps| && |r.pushes| == |ps|
    ensures r.bundleKey.Some? <==> snapshot.Some?
    ensures r.save.Some? <==> snapshot.Some?
    ensures r.ctorParams.Some? <==> snapshot.Some? || input.Some?
    ensures r.bundleKey.Some? ==> r.bundleKey.value == BundleKeyValue(simpleName)
  {
    var defaultType := ToClassName(internalName, false);
    var params := ParamNames(snapshot.Some?, input.Some?);
    var ctor := ParamFields(snapshot, input);
    Delegate(
      name,
      ClassName(client.name, false),
      defaultType,
      params,
      GetInitialStateFun(simpleName, defaultType, ps, snapshot, BundleKeyName, input),
      Map(SubjectOf, ps),
      Map(AccessorOf, ps),
      Map(PushOf, ps),
      if snapshot.Some? then Some(BundleKeyValue(simpleName)) else None,
      if snapshot.Some? then Some(Save(SaveFun(Override), snapshot.value.name, Map(ReadOf, Filter(IsRetained, ps)), BundleKeyName))
      else None,
      if |ctor| > 0 then Some(ctor) else None)
  }

  /** Every property gets one subject, one accessor and one push named
      `push` plus the capitalised property name, in declaration order; the subject is seeded from the property's own
      default, and seeding and pushing use `SingleEvent` exactly for
      single-read properties. */
  lemma DelegatePerProperty(simpleName: string, internalName: string, ps: seq<Property>, client: ClientInterface,
                            name: string, snapshot: Option<DataClass>, input: Option<DataClass>, i: nat)
    requires i < |ps|
    ensures var d := BuildDelegate(simpleName, internalName, ps, client, name, snapshot, input);
      && d.subjects[i].name == ps[i].name + "Subject"
      && d.subjects[i].seededFrom == ps[i].name
      && d.changes[i].fun.name == ps[i].name + "Changes"
      && d.changes[i].subject == d.subjects[i].name
      && d.pushes[i].fun.name == "push" + Capitalize(ps[i].name)
      && d.pushes[i].subject == d.subjects[i].name
      && d.pushes[i].fun.params == [Decl("value", ps[i].propertyType)]
      && d.subjects[i].event == d.pushes[i].event
      && (d.pushes[i].event.name == "com.belax.annotation.SingleEvent" <==> ps[i].isSingle)
  {
  }

  function AccessorFun(a: Accessor): Fun { a.fun }

  /** The delegate's `override` functions, in the order they are added. */
  function Overrides(d: Delegate): seq<Fun> {
    Map(AccessorFun, d.changes) + (if d.save.Some? then [d.save.value.fun] else [])
  }

  /** The delegate implements its interface: its overriding functions, in
      order, are the interface's abstract ones with the same names,
      parameters and return types. */
  lemma DelegateImplementsClient(simpleName: string, internalName: string, ps: seq<Property>,
                                 clientName: string, name: string, snapshot: Option<DataClass>, input: Option<DataClass>)
    ensures var client := BuildObservableInterface(ps, clientName, snapshot.Some?);
      var d := BuildDelegate(simpleName, internalName, ps, client, name, snapshot, input);
      var overrides := Overrides(d);
      && d.superInterface.name == client.name
      && |overrides| == |client.functions|
      && forall k :: 0 <= k < |overrides| ==>
           && overrides[k].modifiers == [Override]
           && overrides[k] == client.functions[k].(modifiers := [Override])
  {
    var client := BuildObservableInterface(ps, clientName, snapshot.Some?);
    var d := BuildDelegate(simpleName, internalName, ps, client, name, snapshot, input);
    var overrides := Overrides(d);
    forall k | 0 <= k < |overrides|
      ensures overrides[k] == client.functions[k].(modifiers := [Override])
    {
      if k < |ps| {
        assert overrides[k] == ChangesFun(ps[k], Override);
        assert client.functions[k] == ChangesFun(ps[k], Abstract);
      } else {
        assert overrides[k] == SaveFun(Override);
        assert client.functions[k] == SaveFun(Abstract);
      }
    }
  }

  // ----------------------------------------------------------------- factory

  /** The factory's `create` returns `ViewModel(Delegate(<args>))`. */
  datatype Factory = Factory(
    name: string,
    ctorParams: seq<Decl>,
    privateProperties: seq<Decl>,
    superInterface: ClassName,
    viewModel: ClassName,
    delegate: ClassName,
    createArgs: seq<string>)

  /** `buildFactoryClass`: nothing without a ViewModel type. */
  function BuildFactoryClass(name: string, isParcelable: bool, input: Option<DataClass>,
                             viewModel: Option<ClassName>, delegate: ClassName): (r: Option<Factory>)
    ensures r.Some? <==> viewModel.Some?
    ensures r.Some? ==> r.value.ctorParams == r.value.privateProperties
  {
    if viewModel.None? then None
    else
      var ctor := (if isParcelable then [Decl("bundle", BundleType())] else [])
        + (if input.Some? then [Decl("input", Plain(ClassName(input.value.name, false)))] else []);
      Some(Factory(name, ctor, ctor, ClassName("androidx.lifecycle.ViewModelProvider.Factory", false),
                   viewModel.value, delegate, ParamNames(isParcelable, input.Some?)))
  }

  // ----------------------------------------------------------------- process

  datatype Generated = Generated(
    names: Names,
    client: ClientInterface,
    snapshot: Option<DataClass>,
    input: Option<DataClass>,
    delegate: Delegate,
    factory: Option<Factory>)

  /** The generation part of `process` for one class, after the property
      list is extracted. `viewModel` is the `createViewModelFactory` class
      read from the annotation. */
  function Generate(simpleName: string, internalName: string, viewModel: ClassName, ps: seq<Property>): (r: Generated)
    ensures r.snapshot.Some? <==> IsParcelable(ps)
    ensures r.input.Some? <==> HasInput(ps)
    ensures r.factory.Some?
  {
    var names := NamesOf(simpleName);
    var isParcelable := IsParcelable(ps);
    var isInput := HasInput(ps);
    var snapshot := BuildOutClass(ps, names.snapshot, isParcelable);
    var input := BuildInputClass(ps, names.input, isInput);
    var client := BuildObservableInterface(ps, names.client, isParcelable);
    var delegate := BuildDelegate(simpleName, internalName, ps, client, names.delegate, snapshot, input);
    var factory := BuildFactoryClass(names.factory, isParcelable, input, Some(viewModel), ClassName(delegate.name, false));
    Generated(names, client, snapshot, input, delegate, factory)
  }

  /** The four parameter lists always agree: the factory's constructor and
      the arguments of its `create` call, the delegate's constructor and
      the arguments it passes to `getInitialState`, and `getInitialState`'s
      own parameters are `bundle` (iff a snapshot class exists) followed by
      `input` (iff an input class exists); the delegate has a primary
      constructor only when that list is non-empty. */
  lemma ParameterListsAgree(simpleName: string, internalName: string, viewModel: ClassName, ps: seq<Property>)
    ensures var g := Generate(simpleName, internalName, viewModel, ps);
      var expected := ParamNames(IsParcelable(ps), HasInput(ps));
      && Map(DeclName, g.factory.value.ctorParams) == expected
      && g.factory.value.createArgs == expected
      && g.delegate.defaultArgs == expected
      && Map(DeclName, g.delegate.initialState.fun.params) == expected
      && (g.delegate.ctorParams.Some? <==> |expected| > 0)
      && (g.delegate.ctorParams.Some? ==> g.delegate.ctorParams.value == g.factory.value.ctorParams)
      && (g.delegate.ctorParams.Some? ==> g.delegate.ctorParams.value == g.delegate.initialState.fun.params)
  {
    var g := Generate(simpleName, internalName, viewModel, ps);
    var expected := ParamNames(IsParcelable(ps), HasInput(ps));
    assert Map(DeclName, ParamFields(g.snapshot, g.input)) == expected;
  }

  lemma SavedNames(ps: seq<Property>)
    ensures Map(SavedFieldName, Map(ReadOf, ps)) == Map(PropertyName, ps)
  {
  }

  lemma DeclNames(ps: seq<Property>)
    ensures Map(DeclName, Map(DeclOf, ps)) == Map(PropertyName, ps)
  {
  }

  /** The save function writes, and `getInitialState` restores, exactly the
      snapshot class's fields in order, under the same key; the input
      properties `getInitialState` reads are exactly the input class's. */
  lemma SaveRestoreAgree(simpleName: string, internalName: string, viewModel: ClassName, ps: seq<Property>)
    ensures var g := Generate(simpleName, internalName, viewModel, ps);
      var d := g.delegate;
      && (g.snapshot.Some? ==>
            && d.save.Some? && d.initialState.restore.Some?
            && d.save.value.snapshotClass == g.snapshot.value.name
            && d.initialState.restore.value.snapshotClass == g.snapshot.value.name
            && d.save.value.key == d.initialState.restore.value.key == BundleKeyName
            && Map(SavedFieldName, d.save.value.values) == Map(DeclName, g.snapshot.value.fields)
            && d.initialState.restore.value.copied == Map(DeclName, g.snapshot.value.fields))
      && (g.input.Some? ==>
            d.initialState.fromInput == Some(Map(DeclName, g.input.value.fields)))
  {
    var retained := Filter(IsRetained, ps);
    var inputs := Filter(IsInputField, ps);
    SavedNames(retained);
    DeclNames(retained);
    DeclNames(inputs);
  }
}
