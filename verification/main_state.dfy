/** The app's `MainState` (`city` retained with default "Moscow", `name`
    input, `other` plain, `toast` single-read and retained with default
    `null`) run through extraction, generation and the generated runtime. */
module MainStateExample {
  import opened Wrappers
  import opened Poet
  import opened Seqs
  import opened Events
  import opened Metadata
  import opened Artifacts
  import opened Runtime

  function StringType(nullable: bool): MetaType {
    MetaType("kotlin/String", nullable, [])
  }

  /** The primary constructor's parameters, as the class metadata lists them. */
  function Params(): seq<ValueParameter> {
    [ ValueParameter("city", StringType(false)),
      ValueParameter("name", StringType(false)),
      ValueParameter("other", StringType(false)),
      ValueParameter("toast", StringType(true)) ]
  }

  /** The enclosed elements: the four backing fields with their `@Config`,
      then the constructor and an accessor. */
  function Enclosed(): seq<Element> {
    [ Element(Field, Some(Config(false, true, false))),
      Element(Field, Some(Config(false, false, true))),
      Element(Field, None),
      Element(Field, Some(Config(true, true, false))),
      Element(Constructor, None),
      Element(Method, None) ]
  }

  /** The markers and names of `MainState`'s properties, in order. */
  predicate Shaped(ps: seq<Property>) {
    && |ps| == 4
    && ps[0].name == "city" && !ps[0].isSingle && ps[0].isRetain && !ps[0].isInput
    && ps[1].name == "name" && !ps[1].isSingle && !ps[1].isRetain && ps[1].isInput
    && ps[2].name == "other" && !ps[2].isSingle && !ps[2].isRetain && !ps[2].isInput
    && ps[3].name == "toast" && ps[3].isSingle && ps[3].isRetain && !ps[3].isInput
  }

  lemma FieldsOf(e: seq<Element>)
    requires |e| == 6 && e[4].kind == Constructor && e[5].kind == Method
    requires forall k :: 0 <= k < 4 ==> e[k].kind == Field
    ensures Filter(IsFieldElement, e) == e[..4]
  {
    FilterCons(IsFieldElement, e[5..]);
    assert e[5..][1..] == [];
    FilterCons(IsFieldElement, e[4..]);
    assert e[4..][1..] == e[5..];
    FilterCons(IsFieldElement, e[3..]);
    assert e[3..][1..] == e[4..];
    FilterCons(IsFieldElement, e[2..]);
    assert e[2..][1..] == e[3..];
    FilterCons(IsFieldElement, e[1..]);
    assert e[1..][1..] == e[2..];
    FilterCons(IsFieldElement, e);
  }

  /** The markers each field of `MainState` carries. */
  predicate FieldsMarked(fields: seq<Element>) {
    && |fields| == 4
    && ConfigOf(fields[0]) == Config(false, true, false)
    && ConfigOf(fields[1]) == Config(false, false, true)
    && ConfigOf(fields[2]) == Config(false, false, false)
    && ConfigOf(fields[3]) == Config(true, true, false)
  }

  /** The parameter names of `MainState`, in order. */
  predicate ParamsNamed(params: seq<ValueParameter>) {
    && |params| == 4
    && params[0].name == "city" && params[1].name == "name"
    && params[2].name == "other" && params[3].name == "toast"
  }

  lemma PairShaped(fields: seq<Element>, params: seq<ValueParameter>)
    requires FieldsMarked(fields) && ParamsNamed(params)
    ensures Shaped(Pair(fields, params))
  {
    var r := Pair(fields, params);
    assert r[0] == MakeProperty(fields[0], params[0]);
    assert r[1] == MakeProperty(fields[1], params[1]);
    assert r[2] == MakeProperty(fields[2], params[2]);
    assert r[3] == MakeProperty(fields[3], params[3]);
  }

  lemma EnclosedMarked(e: seq<Element>)
    requires e == Enclosed()
    ensures FieldsMarked(e[..4])
  {
    var f := e[..4];
    assert f[0] == e[0] && f[1] == e[1] && f[2] == e[2] && f[3] == e[3];
  }

  /** Extraction from a class whose primary constructor and fields are
      shaped like `MainState`'s. */
  lemma ExtractShaped(cs: seq<ConstructorMeta>, e: seq<Element>, params: seq<ValueParameter>)
    requires FindPrimary(cs) == Some(ConstructorMeta(true, params))
    requires |e| >= 4 && Filter(IsFieldElement, e) == e[..4]
    requires FieldsMarked(e[..4]) && ParamsNamed(params)
    ensures Extract(cs, e) == Success(Pair(e[..4], params))
    ensures Shaped(Pair(e[..4], params))
  {
    PairShaped(e[..4], params);
  }

  lemma FirstPrimary(cs: seq<ConstructorMeta>)
    requires |cs| > 0 && cs[0].isPrimary
    ensures FindPrimary(cs) == Some(cs[0])
  {
  }

  lemma ParamsOfMainState(params: seq<ValueParameter>)
    requires params == Params()
    ensures ParamsNamed(params)
  {
  }

  /** Extraction pairs the four fields with the four parameters: names from
      the parameters, markers from the fields. */
  lemma ExtractMainState()
    ensures Extract([ConstructorMeta(true, Params())], Enclosed()).Success?
    ensures Shaped(Extract([ConstructorMeta(true, Params())], Enclosed()).value)
  {
    var cs := [ConstructorMeta(true, Params())];
    var e := Enclosed();
    FirstPrimary(cs);
    FieldsOf(e);
    EnclosedMarked(e);
    ParamsOfMainState(Params());
    ExtractShaped(cs, e, Params());
  }

  /** `toast` is declared `String?`, so its channel carries a nullable type. */
  lemma ToastNullable()
    ensures GetProperty(StringType(true)) == Plain(ClassName("kotlin.String", true))
    ensures GetProperty(StringType(false)) == Plain(ClassName("kotlin.String", false))
  {
    KotlinString("kotlin", "String", "kotlin/String");
  }

  lemma KotlinString(pkg: string, name: string, full: string)
    requires pkg == "kotlin" && name == "String" && full == "kotlin/String"
    ensures Dots(full) == "kotlin.String"
  {
    assert full == pkg + "/" + name;
    DotsQualified(pkg, name);
    assert pkg + "." + name == "kotlin.String";
  }

  lemma Retained(ps: seq<Property>)
    requires Shaped(ps)
    ensures Filter(IsRetained, ps) == [ps[0], ps[3]]
    ensures Filter(IsInputField, ps) == [ps[1]]
    ensures IsParcelable(ps) && HasInput(ps)
  {
    FilterCons(IsRetained, ps[3..]);
    assert ps[3..][1..] == [];
    FilterCons(IsRetained, ps[2..]);
    assert ps[2..][1..] == ps[3..];
    FilterCons(IsRetained, ps[1..]);
    assert ps[1..][1..] == ps[2..];
    FilterCons(IsRetained, ps);
    FilterCons(IsInputField, ps[3..]);
    FilterCons(IsInputField, ps[2..]);
    FilterCons(IsInputField, ps[1..]);
    FilterCons(IsInputField, ps);
    assert IsRetained(ps[0]) && IsInputField(ps[1]);
  }

  function Gen(ps: seq<Property>): Generated {
    Generate("MainState", "com/belax/timerapp/MainState", ClassName("com.belax.timerapp.MainViewModel", false), ps)
  }

  /** The five generated type names. */
  lemma NamesOfMainState(n: string)
    requires n == "MainState"
    ensures NamesOf(n) == Names("MainStateClient", "MainStateDelegate", "MainState_Parcelable",
                                "MainStateInput", "MainStateFactory")
  {
  }

  lemma KeyOfMainState(n: string)
    requires n == "MainState"
    ensures BundleKeyValue(n) == "MAINSTATE_BUNDLE_KEY"
  {
    UpperAt(n);
    var u := Upper(n);
    assert u == "MAINSTATE";
  }

  /** Where each part of `Generate`'s result comes from. */
  lemma GenerateParts(n: string, internal: string, viewModel: ClassName, ps: seq<Property>)
    ensures var g := Generate(n, internal, viewModel, ps);
      && g.snapshot == BuildOutClass(ps, NamesOf(n).snapshot, IsParcelable(ps))
      && g.input == BuildInputClass(ps, NamesOf(n).input, HasInput(ps))
      && g.client == BuildObservableInterface(ps, NamesOf(n).client, IsParcelable(ps))
      && g.delegate.pushes == Map(PushOf, ps)
      && g.factory.value.createArgs == ParamNames(IsParcelable(ps), HasInput(ps))
  {
  }

  lemma BothParams()
    ensures ParamNames(true, true) == ["bundle", "input"]
  {
  }

  /** The field names of the snapshot and input classes of a shaped list. */
  lemma ShapedFields(ps: seq<Property>, out: string, inp: string)
    requires Shaped(ps)
    ensures BuildOutClass(ps, out, true).Some? && Map(DeclName, BuildOutClass(ps, out, true).value.fields) == ["city", "toast"]
    ensures BuildInputClass(ps, inp, true).Some? && Map(DeclName, BuildInputClass(ps, inp, true).value.fields) == ["name"]
  {
    Retained(ps);
    DeclNames([ps[0], ps[3]]);
    DeclNames([ps[1]]);
    var o := Map(PropertyName, [ps[0], ps[3]]);
    assert o[0] == "city" && o[1] == "toast";
    var i := Map(PropertyName, [ps[1]]);
    assert i[0] == "name";
  }

  /** The snapshot class holds `city` and `toast`, the input class `name`;
      the factory passes `bundle, input`. */
  lemma MainStateClasses(ps: seq<Property>)
    requires Shaped(ps)
    ensures Gen(ps).snapshot.Some? && Gen(ps).snapshot.value.name == "MainState_Parcelable"
    ensures Map(DeclName, Gen(ps).snapshot.value.fields) == ["city", "toast"]
    ensures Gen(ps).input.Some? && Gen(ps).input.value.name == "MainStateInput"
    ensures Map(DeclName, Gen(ps).input.value.fields) == ["name"]
    ensures Gen(ps).factory.value.createArgs == ["bundle", "input"]
  {
    Retained(ps);
    NamesOfMainState("MainState");
    GenerateParts("MainState", "com/belax/timerapp/MainState", ClassName("com.belax.timerapp.MainViewModel", false), ps);
    ShapedFields(ps, "MainState_Parcelable", "MainStateInput");
    BothParams();
  }

  /** The companion constant of `MainStateDelegate`. */
  lemma MainStateBundleKey(ps: seq<Property>)
    requires Shaped(ps)
    ensures Gen(ps).delegate.bundleKey == Some("MAINSTATE_BUNDLE_KEY")
  {
    Retained(ps);
    KeyOfMainState("MainState");
  }

  function FunName(f: Fun): string { f.name }
  function PushName(p: PushMember): string { p.fun.name }

  /** The name of the i-th push of a shaped property list. */
  lemma PushNames(ps: seq<Property>)
    requires Shaped(ps)
    ensures Map(PushName, Map(PushOf, ps)) == ["pushCity", "pushName", "pushOther", "pushToast"]
  {
    var c := Capitalize(ps[0].name);
    assert c[0] == 'C';
    assert c == "City";
    var n := Capitalize(ps[1].name);
    assert n[0] == 'N';
    assert n == "Name";
    var o := Capitalize(ps[2].name);
    assert o[0] == 'O';
    assert o == "Other";
    var t := Capitalize(ps[3].name);
    assert t[0] == 'T';
    assert t == "Toast";
    var r := Map(PushName, Map(PushOf, ps));
    assert r[0] == "pushCity" && r[1] == "pushName" && r[2] == "pushOther" && r[3] == "pushToast";
  }

  lemma ShapedClient(ps: seq<Property>, name: string)
    requires Shaped(ps)
    ensures Map(FunName, BuildObservableInterface(ps, name, true).functions)
         == ["cityChanges", "nameChanges", "otherChanges", "toastChanges", "onSaveInstanceState"]
  {
    var f := Map(FunName, BuildObservableInterface(ps, name, true).functions);
    assert f[0] == "cityChanges" && f[1] == "nameChanges" && f[2] == "otherChanges";
    assert f[3] == "toastChanges" && f[4] == "onSaveInstanceState";
  }

  /** `MainStateClient` and the delegate's pushes, in declaration order. */
  lemma MainStateMembers(ps: seq<Property>)
    requires Shaped(ps)
    ensures Map(FunName, Gen(ps).client.functions)
         == ["cityChanges", "nameChanges", "otherChanges", "toastChanges", "onSaveInstanceState"]
    ensures Map(PushName, Gen(ps).delegate.pushes) == ["pushCity", "pushName", "pushOther", "pushToast"]
  {
    Retained(ps);
    GenerateParts("MainState", "com/belax/timerapp/MainState", ClassName("com.belax.timerapp.MainViewModel", false), ps);
    ShapedClient(ps, NamesOf("MainState").client);
    PushNames(ps);
  }

  // ------------------------------------------------------------ run time

  function Defaults(): seq<Option<string>> {
    [Some("Moscow"), None, Some(""), None]
  }

  const Key := "MAINSTATE_BUNDLE_KEY"
  const Snapshot := "MainState_Parcelable"

  /** Where `city`, `name` and `toast` sit in the snapshot and input lists. */
  lemma ShapedRanks(ps: seq<Property>)
    requires Shaped(ps)
    ensures Rank(IsRetained, ps, 0) == 0 && Rank(IsRetained, ps, 3) == 1
    ensures Rank(IsInputField, ps, 1) == 0
  {
    assert ps[..0] == [];
    assert ps[..1] == [ps[0]];
    var pre := ps[..3];
    FilterCons(IsRetained, pre[2..]);
    assert pre[2..][1..] == [];
    FilterCons(IsRetained, pre[1..]);
    assert pre[1..][1..] == pre[2..];
    FilterCons(IsRetained, pre);
  }

  /** With no saved state the input's `name` and the defaults are used. */
  lemma InitialWithoutBundle(ps: seq<Property>)
    requires Shaped(ps)
    ensures |Filter(IsInputField, ps)| == 1
    ensures InitialValue(ps, Defaults(), Snapshot, Key, None, [Some("Sasha")])
         == [Some("Moscow"), Some("Sasha"), Some(""), None]
  {
    Retained(ps);
    ShapedRanks(ps);
    var r := InitialValue(ps, Defaults(), Snapshot, Key, None, [Some("Sasha")]);
    forall i | 0 <= i < 4 ensures r[i] == [Some("Moscow"), Some("Sasha"), Some(""), None][i] {
      InitialValueAt(ps, Defaults(), Snapshot, Key, None, [Some("Sasha")], i);
    }
  }

  /** A saved snapshot with `city = "Paris"` overrides the default; `name`
      still comes from the input. */
  lemma InitialFromBundle(ps: seq<Property>)
    requires Shaped(ps)
    ensures |Filter(IsInputField, ps)| == 1
    ensures var bundle := map[Key := Parcel(Snapshot, [Some("Paris"), None])];
      InitialValue(ps, Defaults(), Snapshot, Key, Some(bundle), [Some("Sasha")])
        == [Some("Paris"), Some("Sasha"), Some(""), None]
  {
    Retained(ps);
    ShapedRanks(ps);
    var bundle := map[Key := Parcel(Snapshot, [Some("Paris"), None])];
    var r := InitialValue(ps, Defaults(), Snapshot, Key, Some(bundle), [Some("Sasha")]);
    forall i | 0 <= i < 4 ensures r[i] == [Some("Paris"), Some("Sasha"), Some(""), None][i] {
      InitialValueAt(ps, Defaults(), Snapshot, Key, Some(bundle), [Some("Sasha")], i);
    }
  }

  /** A parcel of another class under the key is ignored. */
  lemma InitialFromForeignParcel(ps: seq<Property>)
    requires Shaped(ps)
    ensures |Filter(IsInputField, ps)| == 1
    ensures var bundle := map[Key := Parcel("OtherState_Parcelable", [Some("Paris"), None])];
      InitialValue(ps, Defaults(), Snapshot, Key, Some(bundle), [Some("Sasha")])[0] == Some("Moscow")
  {
    Retained(ps);
    var bundle := map[Key := Parcel("OtherState_Parcelable", [Some("Paris"), None])];
    InitialValueAt(ps, Defaults(), Snapshot, Key, Some(bundle), [Some("Sasha")], 0);
  }

  // ---------------------------------------------------------- event wrappers

  /** Single-read `toast`: push "A", read "A", read nothing, push "B", read "B". */
  lemma SingleScenario(ps: seq<Property>, st: DelegateState<string>)
    requires Shaped(ps) && |st| == 4
    ensures var s1 := Push(ps, st, 3, Some("A"));
      var (r1, s2) := Read(s1, 3);
      var (r2, s3) := Read(s2, 3);
      var s4 := Push(ps, s3, 3, Some("B"));
      r1 == Some("A") && r2 == None && Read(s4, 3).0 == Some("B")
  {
  }

  /** Multi-read `city`: after a push every read returns the pushed value. */
  lemma MultiScenario(ps: seq<Property>, st: DelegateState<string>, n: nat)
    requires Shaped(ps) && |st| == 4
    ensures var e := Push(ps, st, 0, Some("A"))[0];
      forall k :: 0 <= k < n ==> ReadMany(e, n).0[k] == Some(Some("A"))
  {
    var e := Push(ps, st, 0, Some("A"))[0];
    SimpleAlwaysDelivers(e, n);
  }
}
