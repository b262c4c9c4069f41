/** Concrete signatures read by the generic-signature parser. */
module SolverExamples {
  import opened Wrappers
  import opened Poet
  import opened GenericSolver
  import opened SolverRender

  function Named(name: string): TypeName {
    Plain(ClassName(name, false))
  }

  /** Letters and dots only. */
  predicate Lettered(n: string) {
    forall k :: 0 <= k < |n| ==> 'a' <= n[k] <= 'z' || 'A' <= n[k] <= 'Z' || n[k] == '.'
  }

  /** A lettered name is free of structural characters and outer
      whitespace. */
  lemma NameOkText(n: string)
    requires |n| > 0 && Lettered(n)
    ensures NameOk(n)
  {
  }

  /** The text of a type with one argument. */
  lemma RenderOne(name: string, a: TypeName, gap: string)
    ensures RenderWith(Param(ClassName(name, false), [a], false), gap) == name + "<" + RenderWith(a, gap) + ">"
  {
    assert [a][1..] == [];
    assert RenderList([a], gap) == RenderWith(a, gap) + "";
  }

  /** The text of two arguments. */
  lemma RenderPair(a: TypeName, b: TypeName, gap: string)
    ensures RenderList([a, b], gap) == RenderWith(a, gap) + "," + gap + RenderWith(b, gap)
  {
    assert [a, b][1..] == [b] && [b][1..] == [];
    assert RenderTail([b], gap) == "," + (gap + RenderWith(b, gap) + "");
  }

  function SetOfInteger(): TypeName {
    Param(ClassName("java.lang.Set", false), [Named("java.lang.Integer")], false)
  }

  lemma SetOfIntegerText()
    ensures Parseable(SetOfInteger())
    ensures Render(SetOfInteger()) == "java.lang.Set<java.lang.Integer>"
  {
    assert Render(SetOfInteger()) == "java.lang.Set<java.lang.Integer>" by {
      assert "java.lang.Set" + "<" + "java.lang.Integer" + ">" == "java.lang.Set<java.lang.Integer>";
      RenderOne("java.lang.Set", Named("java.lang.Integer"), " ");
    }
    NameOkText("java.lang.Set");
    NameOkText("java.lang.Integer");
  }

  /** The signature the repository's own unit test feeds the parser. */
  lemma ParseSetOfInteger()
    ensures Parse("java.lang.Set<java.lang.Integer>") == Success(SetOfInteger())
  {
    SetOfIntegerText();
    ParseRender(SetOfInteger());
  }

  function MapArgs(): seq<TypeName> {
    [Named("String"), Named("Int")]
  }

  lemma MapArgsText()
    ensures forall k :: 0 <= k < |MapArgs()| ==> Parseable(MapArgs()[k])
    ensures RenderList(MapArgs(), "") == "String,Int"
  {
    assert "String" + "," + "" + "Int" == "String,Int";
    NameOkText("String");
    NameOkText("Int");
    RenderPair(Named("String"), Named("Int"), "");
  }

  /** `Map<String,Int>` is `Map` over `String` and `Int`. */
  lemma ParseMap()
    ensures Parse("Map<String,Int>") == Success(Param(ClassName("Map", false), MapArgs(), false))
  {
    assert "Map" + "<" + "String,Int" + ">" == "Map<String,Int>";
    var t := Param(ClassName("Map", false), MapArgs(), false);
    MapArgsText();
    NameOkText("Map");
    ParseRenderWith(t, "");
  }

  /** `Map<String,Int` is not rejected: the last argument is returned. */
  lemma ParseMapUnclosed()
    ensures Parse("Map<String,Int") == Success(Named("Int"))
  {
    MapUnclosedText("Map<String,Int");
  }

  lemma MapUnclosedText(text: string)
    requires text == "Map<String,Int"
    ensures Parse(text) == Success(Named("Int"))
  {
    assert text == "Map" + "<" + "String,Int";
    MapArgsText();
    NameOkText("Map");
    ParseUnclosed("Map", MapArgs(), "");
  }

  function SetOfInt(): TypeName {
    Param(ClassName("Set", false), [Named("Int")], false)
  }

  function ListOfSet(): TypeName {
    Param(ClassName("List", false), [SetOfInt()], false)
  }

  function NestedPair(): TypeName {
    Param(ClassName("Pair", false), [ListOfSet(), Named("Float")], false)
  }

  lemma ListOfSetText()
    ensures Parseable(ListOfSet())
    ensures RenderWith(ListOfSet(), "") == "List<Set<Int>>"
  {
    assert "Set" + "<" + "Int" + ">" == "Set<Int>";
    assert "List" + "<" + "Set<Int>" + ">" == "List<Set<Int>>";
    NameOkText("List");
    NameOkText("Set");
    NameOkText("Int");
    RenderOne("Set", Named("Int"), "");
    RenderOne("List", SetOfInt(), "");
  }

  lemma NestedPairText()
    ensures Parseable(NestedPair())
    ensures RenderWith(NestedPair(), "") == "Pair<List<Set<Int>>,Float>"
  {
    assert "Pair" + "<" + ("List<Set<Int>>" + "," + "" + "Float") + ">" == "Pair<List<Set<Int>>,Float>";
    ListOfSetText();
    NameOkText("Pair");
    NameOkText("Float");
    RenderPair(ListOfSet(), Named("Float"), "");
    assert NestedPair() == Param(ClassName("Pair", false), [ListOfSet(), Named("Float")], false);
  }

  /** `Pair<List<Set<Int>>,Float>`: the root is `Pair` with two arguments,
      the first being `List<Set<Int>>`. */
  lemma ParseNestedPair()
    ensures Parse("Pair<List<Set<Int>>,Float>") == Success(NestedPair())
  {
    NestedPairText();
    ParseRenderWith(NestedPair(), "");
  }

  /** Empty input leaves nothing on the stack to return. */
  lemma ParseEmpty()
    ensures Parse("") == Failure(EmptyStack)
  {
  }
}
