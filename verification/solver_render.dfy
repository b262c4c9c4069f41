/** The textual form of a type (`Map<String, Int>`), the inverse of the
    generic-signature parser: rendering any parser-shaped type and parsing the
    text back yields the same type, whatever whitespace follows the commas. */
module SolverRender {
  import opened Wrappers
  import opened Poet
  import opened Seqs
  import opened GenericSolver

  /** A name the tokeniser reads back unchanged: non-empty, free of `<`, `,`
      and `>`, and without surrounding whitespace. */
  predicate NameOk(n: string) {
    && |n| > 0
    && (forall k :: 0 <= k < |n| ==> !IsStructural(n[k]))
    && !IsWhitespace(n[0])
    && !IsWhitespace(n[|n| - 1])
  }

  /** The types the parser can produce from well-formed text: every name
      readable, and nothing nullable (`bestGuess` and `parameterizedBy`
      never yield a nullable type). */
  predicate Parseable(t: TypeName) {
    match t
    case Plain(c) => NameOk(c.name) && !c.nullable
    case Param(raw, args, nullable) =>
      && NameOk(raw.name) && !raw.nullable && !nullable
      && forall k :: 0 <= k < |args| ==> Parseable(args[k])
  }

  predicate AllWhitespace(s: string) {
    forall k :: 0 <= k < |s| ==> IsWhitespace(s[k])
  }

  /** `Name<Arg1,<gap>Arg2,...>`, the text a type is written as. */
  function RenderWith(t: TypeName, gap: string): string {
    match t
    case Plain(c) => c.name
    case Param(raw, args, _) => raw.name + "<" + RenderList(args, gap) + ">"
  }

  /** The arguments separated by `,` and the gap. */
  function RenderList(args: seq<TypeName>, gap: string): string {
    if |args| == 0 then ""
    else RenderWith(args[0], gap) + RenderTail(args[1..], gap)
  }

  /** Later arguments, each preceded by `,` and the gap. */
  function RenderTail(args: seq<TypeName>, gap: string): string {
    if |args| == 0 then ""
    else "," + (gap + RenderWith(args[0], gap) + RenderTail(args[1..], gap))
  }

  /** The usual rendering, with `", "` between arguments. */
  function Render(t: TypeName): string {
    RenderWith(t, " ")
  }

  /** The stack entry the parser leaves for `t` when it was written after
      the whitespace `pad`: a name token keeps its raw text; a parameterised
      type was pushed by `form` and has none. */
  function Entry(t: TypeName, pad: string): (r: Token)
    ensures r.Value? && r.value == t
  {
    if t.Plain? then Value(t, Some(pad + t.cls.name)) else Value(t, None)
  }

  /** The entries left for a rendered argument list. */
  function Entries(args: seq<TypeName>, gap: string, pad: string): (r: seq<Token>)
    ensures AllValues(r)
    ensures Values(r) == args
  {
    if |args| == 0 then []
    else [Entry(args[0], pad)] + Entries(args[1..], gap, gap)
  }

  /** Leading whitespace is dropped by `trim`, and nothing else is. */
  lemma {:induction false} TrimPadded(pad: string, name: string)
    requires AllWhitespace(pad) && NameOk(name)
    ensures Trim(pad + name) == name
    decreases |pad|
  {
    if |pad| == 0 {
      assert pad + name == name;
    } else {
      assert (pad + name)[1..] == pad[1..] + name;
      TrimPadded(pad[1..], name);
    }
  }

  /** A padded name followed by a structural character (or the end) is
      read as one name token whose type is the bare name. */
  lemma ReadName(pad: string, name: string, rest: string)
    requires AllWhitespace(pad) && NameOk(name)
    requires |rest| == 0 || IsStructural(rest[0])
    ensures TakeItem(pad + name + rest) == Value(Plain(ClassName(name, false)), Some(pad + name))
  {
    var s := pad + name + rest;
    var n := |pad + name|;
    assert s[..n] == pad + name;
    assert forall k :: 0 <= k < n ==> !IsStructural(s[k]) by {
      forall k | 0 <= k < n ensures !IsStructural(s[k]) {
        if k < |pad| {
          assert s[k] == pad[k];
        } else {
          assert s[k] == name[k - |pad|];
        }
      }
    }
    assert n == |s| || IsStructural(s[n]) by {
      if n < |s| {
        assert s[n] == rest[0];
      }
    }
    assert NameRun(s) == pad + name;
    TrimPadded(pad, name);
  }

  /** A padded name is read as one token and pushed. */
  lemma ScanName(pad: string, name: string, rest: string, stack: seq<Token>)
    requires AllWhitespace(pad) && NameOk(name)
    requires |rest| == 0 || IsStructural(rest[0])
    requires StackShape(stack)
    ensures StackShape(stack + [Value(Plain(ClassName(name, false)), Some(pad + name))])
    ensures Scan(pad + name + rest, stack)
         == Scan(rest, stack + [Value(Plain(ClassName(name, false)), Some(pad + name))])
  {
    var item := Value(Plain(ClassName(name, false)), Some(pad + name));
    ReadName(pad, name, rest);
    DropPrefix(pad + name, rest);
    StepPush(stack, item, rest);
  }

  /** A `<` pushes an `Open` entry. */
  lemma ScanOpen(rest: string, stack: seq<Token>)
    requires StackShape(stack)
    ensures StackShape(stack + [Open])
    ensures Scan("<" + rest, stack) == Scan(rest, stack + [Open])
  {
    assert ("<" + rest)[1..] == rest;
  }

  /** A `>` reduces the stack. */
  lemma ScanClose(rest: string, stack: seq<Token>)
    requires StackShape(stack)
    ensures Scan(">" + rest, stack) == Continue(Reduce(stack), rest)
  {
    assert (">" + rest)[1..] == rest;
  }

  /** A `,` leaves the stack as it is. */
  lemma ScanComma(rest: string, stack: seq<Token>)
    requires StackShape(stack)
    ensures Scan("," + rest, stack) == Scan(rest, stack)
  {
    assert ("," + rest)[1..] == rest;
  }

  /** Scanning a rendered type pushes exactly its entry and nothing else. */
  lemma {:induction false} ScanRendered(t: TypeName, gap: string, pad: string, rest: string, stack: seq<Token>)
    requires Parseable(t) && AllWhitespace(gap) && AllWhitespace(pad)
    requires |rest| == 0 || IsStructural(rest[0])
    requires StackShape(stack)
    ensures StackShape(stack + [Entry(t, pad)])
    ensures Scan(pad + RenderWith(t, gap) + rest, stack) == Scan(rest, stack + [Entry(t, pad)])
    decreases t, 2
  {
    match t
    case Plain(c) =>
      ScanName(pad, c.name, rest, stack);
    case Param(raw, args, _) =>
      var inner := RenderList(args, gap);
      var owner := Value(Plain(raw), Some(pad + raw.name));
      var entries := Entries(args, gap, "");
      SplitParam(pad, raw.name, inner, rest);
      ScanName(pad, raw.name, "<" + (inner + (">" + rest)), stack);
      ScanOpen(inner + (">" + rest), stack + [owner]);
      ScanRenderedList(args, gap, ">" + rest, stack + [owner] + [Open]);
      ScanClose(rest, stack + [owner] + [Open] + entries);
      PopArgsAbove(stack + [owner], entries);
  }

  lemma AppendAssoc<T>(a: seq<T>, b: seq<T>, c: seq<T>)
    ensures (a + b) + c == a + (b + c)
  {
  }

  /** Regrouping the text of a parameterised type before its name is read. */
  lemma SplitParam(pad: string, name: string, inner: string, rest: string)
    ensures pad + (name + "<" + inner + ">") + rest == pad + name + ("<" + (inner + (">" + rest)))
  {
  }

  /** Regrouping a list's text before its first argument is read. */
  lemma SplitList(first: string, tail: string, rest: string)
    ensures (first + tail) + rest == "" + first + (tail + rest)
  {
  }

  /** Regrouping a tail's text before its comma is read. */
  lemma SplitTail(gap: string, first: string, tail: string, rest: string)
    ensures "," + (gap + first + tail) + rest == "," + (gap + first + (tail + rest))
  {
  }

  lemma DropPrefix<T>(a: seq<T>, b: seq<T>)
    ensures (a + b)[|a|..] == b
  {
  }

  lemma EmptyAround<T>(s: seq<T>)
    ensures [] + s + [] == s && [] + s == s && s + [] == s
  {
  }

  /** Two structural characters in a row. */
  lemma Pairs()
    ensures "<" + "<" == "<<" && ">" + ">" == ">>" && ">" + "<" == "><"
  {
  }

  lemma SnocOn<T>(s: seq<T>, a: T, b: T, c: T)
    ensures s + [a] + [b] == s + [a, b]
    ensures s + [a] + [b] + [c] == s + [a, b, c]
    ensures s + [a] + [b, c] == s + [a, b, c]
  {
  }

  lemma Snoc<T>(a: T, b: T, c: T, d: T)
    ensures [] + [a] == [a]
    ensures [a] + [b] == [a, b]
    ensures [a, b] + [c] == [a, b, c]
    ensures [a, b, c] + [d] == [a, b, c, d]
    ensures [a, b] + [c] + [d] == [a, b, c, d]
    ensures [a] + [b, c] == [a, b, c]
  {
  }

  /** A rendered tail is empty or starts with a comma. */
  lemma RenderTailStart(args: seq<TypeName>, gap: string, rest: string)
    requires |rest| == 0 || IsStructural(rest[0])
    ensures var after := RenderTail(args, gap) + rest;
      |after| == 0 || IsStructural(after[0])
  {
    if |args| == 0 {
      assert RenderTail(args, gap) + rest == rest;
    } else {
      assert (RenderTail(args, gap) + rest)[0] == ',';
    }
  }

  /** Scanning a rendered argument list pushes the arguments' entries. */
  lemma {:induction false} ScanRenderedList(args: seq<TypeName>, gap: string, rest: string, stack: seq<Token>)
    requires forall k :: 0 <= k < |args| ==> Parseable(args[k])
    requires AllWhitespace(gap)
    requires |rest| == 0 || IsStructural(rest[0])
    requires StackShape(stack)
    ensures StackShape(stack + Entries(args, gap, ""))
    ensures Scan(RenderList(args, gap) + rest, stack) == Scan(rest, stack + Entries(args, gap, ""))
    decreases args, 1
  {
    if |args| == 0 {
      EmptyAround(rest);
      EmptyAround(stack);
    } else {
      var after := RenderTail(args[1..], gap) + rest;
      RenderTailStart(args[1..], gap, rest);
      SplitList(RenderWith(args[0], gap), RenderTail(args[1..], gap), rest);
      ScanRendered(args[0], gap, "", after, stack);
      var next := stack + [Entry(args[0], "")];
      ScanRenderedTail(args[1..], gap, rest, next);
      AppendAssoc(stack, [Entry(args[0], "")], Entries(args[1..], gap, gap));
    }
  }

  /** Scanning the later arguments: each comma is skipped and each argument,
      written after the gap, pushes its entry. */
  lemma {:induction false} ScanRenderedTail(args: seq<TypeName>, gap: string, rest: string, stack: seq<Token>)
    requires forall k :: 0 <= k < |args| ==> Parseable(args[k])
    requires AllWhitespace(gap)
    requires |rest| == 0 || IsStructural(rest[0])
    requires StackShape(stack)
    ensures StackShape(stack + Entries(args, gap, gap))
    ensures Scan(RenderTail(args, gap) + rest, stack) == Scan(rest, stack + Entries(args, gap, gap))
    decreases args, 0
  {
    if |args| == 0 {
      EmptyAround(rest);
      EmptyAround(stack);
    } else {
      var after := RenderTail(args[1..], gap) + rest;
      RenderTailStart(args[1..], gap, rest);
      var shown := gap + RenderWith(args[0], gap) + after;
      SplitTail(gap, RenderWith(args[0], gap), RenderTail(args[1..], gap), rest);
      ScanComma(shown, stack);
      ScanRendered(args[0], gap, gap, after, stack);
      var next := stack + [Entry(args[0], gap)];
      ScanRenderedTail(args[1..], gap, rest, next);
      AppendAssoc(stack, [Entry(args[0], gap)], Entries(args[1..], gap, gap));
    }
  }

  /** Round trip: parsing the rendering of a parser-shaped type gives it
      back, whatever whitespace follows the commas. */
  lemma ParseRenderWith(t: TypeName, gap: string)
    requires Parseable(t) && AllWhitespace(gap)
    ensures Parse(RenderWith(t, gap)) == Success(t)
  {
    ScanRendered(t, gap, "", "", []);
    EmptyAround(RenderWith(t, gap));
    EmptyAround([Entry(t, "")]);
  }

  /** Round trip for the usual `", "` rendering. */
  lemma ParseRender(t: TypeName)
    requires Parseable(t)
    ensures Parse(Render(t)) == Success(t)
  {
    ParseRenderWith(t, " ");
  }

  /** Whitespace before the outermost name is trimmed away as well. */
  lemma ParsePadded(pad: string, t: TypeName)
    requires AllWhitespace(pad) && Parseable(t)
    ensures Parse(pad + Render(t)) == Success(t)
  {
    ScanRendered(t, " ", pad, "", []);
    EmptyAround(pad + Render(t));
    EmptyAround([Entry(t, pad)]);
  }

  /** A lone name pushes its name token. */
  lemma ScanWord(name: string, stack: seq<Token>)
    requires NameOk(name) && StackShape(stack)
    ensures Scan(name, stack) == Success(stack + [Value(Plain(ClassName(name, false)), Some(name))])
  {
    ScanName("", name, "", stack);
    EmptyAround(name);
  }

  /** Each structural character alone. */
  lemma ScanChars(stack: seq<Token>)
    requires StackShape(stack)
    ensures Scan("<", stack) == Success(stack + [Open])
    ensures Scan(",", stack) == Success(stack)
    ensures Scan(">", stack) == Reduce(stack)
  {
    assert "<"[1..] == [];
    assert ","[1..] == [];
    assert ">"[1..] == [];
  }

  /** A rendered type alone pushes its entry. */
  lemma ScanAlone(t: TypeName, stack: seq<Token>)
    requires Parseable(t) && StackShape(stack)
    ensures StackShape(stack + [Entry(t, "")])
    ensures Scan(Render(t), stack) == Success(stack + [Entry(t, "")])
  {
    ScanRendered(t, " ", "", "", stack);
    EmptyAround(Render(t));
  }

  /** A rendered type after an owner and its `Open`. */
  lemma ScanAloneOn(t: TypeName, o: Token)
    requires Parseable(t) && o.Value?
    ensures Scan(Render(t), [o, Open]) == Success([o, Open, Entry(t, "")])
  {
    ScanAlone(t, [o, Open]);
    Snoc(o, Open, Entry(t, ""), Open);
  }

  /** Sequencing: once `a` is scanned to `mid`, `a + b` continues with `b`. */
  lemma ScanThen(a: string, b: string, stack: seq<Token>, mid: seq<Token>)
    requires Boundary(a, b) && StackShape(stack)
    requires Scan(a, stack) == Success(mid)
    ensures StackShape(mid)
    ensures Scan(a + b, stack) == Scan(b, mid)
  {
    ScanAppend(a, b, stack);
  }

  /** The token pushed for an owner name. */
  function OwnerEntry(owner: string): Token {
    Value(Plain(ClassName(owner, false)), Some(owner))
  }

  /** `Owner<` leaves the owner and an `Open`. */
  lemma ScanOwnerOpen(owner: string)
    requires NameOk(owner)
    ensures Scan(owner + "<", []) == Success([OwnerEntry(owner), Open])
  {
    var o := OwnerEntry(owner);
    ScanWord(owner, []);
    Snoc(o, Open, Open, Open);
    ScanChars([o]);
    ScanThen(owner, "<", [], [o]);
  }

  /** `<<` pushes two `Open` entries. */
  lemma ScanTwoOpens(stack: seq<Token>)
    requires StackShape(stack)
    ensures Scan("<<", stack) == Success(stack + [Open, Open])
  {
    ScanChars(stack);
    ScanChars(stack + [Open]);
    Pairs();
    ScanThen("<", "<", stack, stack + [Open]);
    SnocOn(stack, Open, Open, Open);
  }

  /** `>` right after `owner < value` reduces to the parameterised owner. */
  lemma ScanCloseOne(below: seq<Token>, owner: Token, v: Token)
    requires StackShape(below) && owner.Value? && v.Value?
    ensures Scan(">", below + [owner, Open, v])
         == Success(below + [Value(Form(owner.value, [v.value]), None)])
  {
    ScanChars(below + [owner, Open, v]);
    PopArgsAbove(below + [owner], [v]);
    SnocOn(below, owner, Open, v);
    assert Values([v]) == [v.value];
    var stack := below + [owner, Open, v];
    assert PopArgs(stack) == Success((below + [owner], [v.value]));
    assert (below + [owner])[..|below|] == below;
  }

  /** An unmatched `<` is not an error: the final pop returns the last
      argument written after it. */
  lemma ParseUnclosed(owner: string, args: seq<TypeName>, gap: string)
    requires NameOk(owner) && |args| > 0 && AllWhitespace(gap)
    requires forall k :: 0 <= k < |args| ==> Parseable(args[k])
    ensures Parse(owner + "<" + RenderList(args, gap)) == Success(args[|args| - 1])
  {
    var o := OwnerEntry(owner);
    ScanRenderedList(args, gap, "", [o, Open]);
    assert RenderList(args, gap) + "" == RenderList(args, gap);
    var stack := [o, Open] + Entries(args, gap, "");
    UnclosedPrefix(owner, RenderList(args, gap), stack);
    assert stack[|stack| - 1] == Entries(args, gap, "")[|args| - 1];
  }

  /** A `>` with no matching `<` pops the stack empty. */
  lemma ParseUnopened(t: TypeName)
    requires Parseable(t)
    ensures Parse(Render(t) + ">") == Failure(EmptyStack)
  {
    ScanAlone(t, []);
    EmptyAround([Entry(t, "")]);
    CloseOnSingleValue(Render(t), Entry(t, ""));
  }

  /** Closing a text that leaves a single value fails with an empty stack. */
  lemma CloseOnSingleValue(x: string, v: Token)
    requires v.Value? && Scan(x, []) == Success([v])
    ensures Parse(x + ">") == Failure(EmptyStack)
  {
    ScanAppend(x, ">", []);
    ScanChars([v]);
    assert [v][..0] == [];
  }

  /** An argument list with nothing in front of it has no owner to pop. */
  lemma ParseOwnerless(t: TypeName)
    requires Parseable(t)
    ensures Parse("<" + Render(t) + ">") == Failure(EmptyStack)
  {
    ScanChars([]);
    Snoc(Open, Entry(t, ""), Open, Open);
    ScanAlone(t, [Open]);
    OwnerlessAround(Render(t), Entry(t, ""));
  }

  lemma OwnerlessAround(x: string, v: Token)
    requires v.Value? && Scan(x, [Open]) == Success([Open, v])
    ensures Parse("<" + x + ">") == Failure(EmptyStack)
  {
    ScanChars([]);
    Snoc(Open, v, Open, Open);
    ScanThen("<", x, [], [Open]);
    ScanChars([Open, v]);
    PopArgsAbove([], [v]);
    SnocOn([], Open, v, v);
    ScanThen("<" + x, ">", [], [Open, v]);
  }

  /** The owner of an argument list must be a name: `A<<B>>` fails the cast
      when the inner list is reduced. */
  lemma ParseNestedOpen(owner: string, t: TypeName)
    requires NameOk(owner) && Parseable(t)
    ensures Parse(owner + "<<" + Render(t) + ">>") == Failure(NotAValue)
  {
    var o := OwnerEntry(owner);
    ScanAlone(t, [o, Open, Open]);
    Snoc(o, Open, Open, Entry(t, ""));
    NestedOpenAround(owner, Render(t), Entry(t, ""));
  }

  lemma NestedOpenAround(owner: string, x: string, v: Token)
    requires NameOk(owner) && v.Value?
    requires Scan(x, [OwnerEntry(owner), Open, Open]) == Success([OwnerEntry(owner), Open, Open, v])
    ensures Parse(owner + "<<" + x + ">>") == Failure(NotAValue)
  {
    NestedOpenPrefix(owner, x, v);
    NestedCloses(OwnerEntry(owner), v);
    ScanThen(owner + "<<" + x, ">>", [], [OwnerEntry(owner), Open, Open, v]);
  }

  lemma NestedOpenPrefix(owner: string, x: string, v: Token)
    requires NameOk(owner) && v.Value?
    requires Scan(x, [OwnerEntry(owner), Open, Open]) == Success([OwnerEntry(owner), Open, Open, v])
    ensures Scan(owner + "<<" + x, []) == Success([OwnerEntry(owner), Open, Open, v])
  {
    var o := OwnerEntry(owner);
    ScanWord(owner, []);
    Snoc(o, Open, Open, Open);
    ScanTwoOpens([o]);
    ScanThen(owner, "<<", [], [o]);
    ScanThen(owner + "<<", x, [], [o, Open, Open]);
  }

  /** `>>` over `owner < < value` reduces the inner list, whose owner is an
      `Open`: the cast fails. */
  lemma NestedCloses(o: Token, v: Token)
    requires o.Value? && v.Value?
    ensures Scan(">>", [o, Open, Open, v]) == Failure(NotAValue)
  {
    ScanAppend(">", ">", [o, Open, Open, v]);
    ScanChars([o, Open, Open, v]);
    PopArgsAbove([o, Open], [v]);
    Snoc(o, Open, Open, v);
    Pairs();
  }

  /** Parameterising an already parameterised owner keeps its raw type and
      replaces its arguments: `A<B><C>` is `A<C>`. */
  lemma ParseReparameterised(owner: string, first: TypeName, second: TypeName)
    requires NameOk(owner) && Parseable(first) && Parseable(second)
    ensures Parse(owner + "<" + Render(first) + "><" + Render(second) + ">")
         == Success(Param(ClassName(owner, false), [second], false))
  {
    var once := Value(Param(ClassName(owner, false), [first], false), None);
    ScanAloneOn(first, OwnerEntry(owner));
    ScanAloneOn(second, once);
    ReparameterisedAround(owner, Render(first), Entry(first, ""), Render(second), Entry(second, ""));
  }

  lemma ReparameterisedAround(owner: string, x1: string, v1: Token, x2: string, v2: Token)
    requires NameOk(owner) && v1.Value? && v2.Value?
    requires Scan(x1, [OwnerEntry(owner), Open]) == Success([OwnerEntry(owner), Open, v1])
    requires Scan(x2, [Once(owner, v1), Open]) == Success([Once(owner, v1), Open, v2])
    ensures Parse(owner + "<" + x1 + "><" + x2 + ">")
         == Success(Param(ClassName(owner, false), [v2.value], false))
  {
    var once := Once(owner, v1);
    FirstList(owner, x1, v1);
    SecondList(owner + "<" + x1 + "><", x2, once, v2);
  }

  /** The entry `Owner<x1>` leaves once reduced. */
  function Once(owner: string, v1: Token): Token
    requires v1.Value?
  {
    Value(Param(ClassName(owner, false), [v1.value], false), None)
  }

  /** `Owner<x1><` leaves the once-parameterised owner and an `Open`. */
  lemma FirstList(owner: string, x1: string, v1: Token)
    requires NameOk(owner) && v1.Value?
    requires Scan(x1, [OwnerEntry(owner), Open]) == Success([OwnerEntry(owner), Open, v1])
    ensures Scan(owner + "<" + x1 + "><", [])
         == Success([Once(owner, v1), Open])
  {
    var o := OwnerEntry(owner);
    UnclosedPrefix(owner, x1, [o, Open, v1]);
    CloseThenOpen(o, v1);
    ScanThen(owner + "<" + x1, "><", [], [o, Open, v1]);
  }

  lemma UnclosedPrefix(owner: string, x: string, stack: seq<Token>)
    requires NameOk(owner)
    requires Scan(x, [OwnerEntry(owner), Open]) == Success(stack)
    ensures Scan(owner + "<" + x, []) == Success(stack)
  {
    ScanOwnerOpen(owner);
    ScanThen(owner + "<", x, [], [OwnerEntry(owner), Open]);
  }

  /** `><` over `owner < value`: reduce, then open a new list. */
  lemma CloseThenOpen(o: Token, v: Token)
    requires o.Value? && v.Value?
    ensures Scan("><", [o, Open, v]) == Success([Value(Form(o.value, [v.value]), None), Open])
  {
    var once := Value(Form(o.value, [v.value]), None);
    ScanCloseOne([], o, v);
    EmptyAround([o, Open, v]);
    Snoc(once, Open, Open, Open);
    ScanChars([once]);
    Pairs();
    ScanThen(">", "<", [o, Open, v], [once]);
  }

  /** `x2>` after the once-parameterised owner and its `Open`. */
  lemma SecondList(prefix: string, x2: string, once: Token, v2: Token)
    requires once.Value? && once.value.Param? && v2.Value?
    requires |prefix| > 0 && prefix[|prefix| - 1] == '<'
    requires Scan(prefix, []) == Success([once, Open])
    requires Scan(x2, [once, Open]) == Success([once, Open, v2])
    ensures Parse(prefix + x2 + ">") == Success(Param(once.value.rawType, [v2.value], false))
  {
    ScanThen(prefix, x2, [], [once, Open]);
    ScanCloseOne([], once, v2);
    EmptyAround([once, Open, v2]);
    ScanThen(prefix + x2, ">", [], [once, Open, v2]);
  }
}
