/** The generic type-signature parser of the generator (`GenericSolver`):
    a left-to-right tokeniser and a stack machine that reduces on every `>`.

    The functional definitions (`TakeItem`, `PopArgs`, `Reduce`, `Step`,
    `Scan`, `Parse`) are the reference semantics; `Run` is the imperative
    loop of the source, proved to compute `Parse`. */
module GenericSolver {
  import opened Wrappers
  import opened Poet
  import opened Seqs

  /** The ways `run` ends in an exception. */
  datatype ParseError =
    | EmptyStack   // `Stack.pop()` on an empty stack
    | NotAValue    // the cast `as Value` applied to an `Open` entry

  /** `Open`, `Close`, `Delimiter`, or a `Value` holding a type and, when it
      was read from the input, the untrimmed raw text it was read from. */
  datatype Token =
    | Open
    | Close
    | Delimiter
    | Value(value: TypeName, raw: Option<string>)

  /** `Token.length()`: 1 for structural tokens, the raw text's length for a
      `Value` (0 for one built by `form`, whose raw text is null). */
  function Length(t: Token): nat {
    match t
    case Value(_, raw) => if raw.Some? then |raw.value| else 0
    case _ => 1
  }

  predicate IsStructural(c: char) {
    c == '<' || c == ',' || c == '>'
  }

  /** `Char.isWhitespace()` on the JVM: `Character.isWhitespace` or
      `Character.isSpaceChar`. */
  predicate IsWhitespace(c: char) {
    || '\t' <= c <= '\r'
    || '\U{1C}' <= c <= '\U{1F}'
    || c == ' ' || c == '\U{A0}' || c == '\U{1680}'
    || '\U{2000}' <= c <= '\U{200A}'
    || c == '\U{2028}' || c == '\U{2029}' || c == '\U{202F}' || c == '\U{205F}' || c == '\U{3000}'
  }

  /** Drops leading whitespace. */
  function TrimStart(s: string): string {
    if |s| > 0 && IsWhitespace(s[0]) then TrimStart(s[1..]) else s
  }

  /** Drops trailing whitespace. */
  function TrimEnd(s: string): string {
    if |s| > 0 && IsWhitespace(s[|s| - 1]) then TrimEnd(s[..|s| - 1]) else s
  }

  /** `TrimStart` removes exactly the leading run of whitespace. */
  lemma {:induction false} TrimStartDrops(s: string)
    ensures var r := TrimStart(s);
      && |r| <= |s| && r == s[|s| - |r|..]
      && (forall k :: 0 <= k < |s| - |r| ==> IsWhitespace(s[k]))
      && (|r| == 0 || !IsWhitespace(r[0]))
    decreases |s|
  {
    if |s| > 0 && IsWhitespace(s[0]) {
      TrimStartDrops(s[1..]);
    }
  }

  /** `TrimEnd` removes exactly the trailing run of whitespace. */
  lemma {:induction false} TrimEndDrops(s: string)
    ensures var r := TrimEnd(s);
      && |r| <= |s| && r == s[..|r|]
      && (forall k :: |r| <= k < |s| ==> IsWhitespace(s[k]))
      && (|r| == 0 || !IsWhitespace(r[|r| - 1]))
    decreases |s|
  {
    if |s| > 0 && IsWhitespace(s[|s| - 1]) {
      TrimEndDrops(s[..|s| - 1]);
    }
  }

  /** `String.trim()`. */
  function Trim(s: string): string {
    TrimEnd(TrimStart(s))
  }

  /** `takeWhile { it !in listOf(',', '<', '>') }`: the longest prefix free of
      structural characters. */
  function NameRun(s: string): (r: string)
    ensures |r| <= |s| && r == s[..|r|]
    ensures forall k :: 0 <= k < |r| ==> !IsStructural(r[k])
    ensures |r| == |s| || IsStructural(s[|r|])
  {
    if |s| == 0 || IsStructural(s[0]) then [] else [s[0]] + NameRun(s[1..])
  }

  /** The secondary constructor `Value(raw)`: the type is
      `ClassName.bestGuess(raw.trim())`, the raw text is kept untrimmed. */
  function NameToken(raw: string): (r: Token)
    ensures r.Value? && r.value == Plain(ClassName(Trim(raw), false))
    ensures Length(r) == |raw|
  {
    Value(Plain(ClassName(Trim(raw), false)), Some(raw))
  }

  /** `takeItem`: classifies the first character of the remaining input.
      `first()` throws on an empty string, which `run` never passes. */
  function TakeItem(command: string): (r: Token)
    requires |command| > 0
    ensures 1 <= Length(r) <= |command|
    ensures r == Open <==> command[0] == '<'
    ensures r == Close <==> command[0] == '>'
    ensures r == Delimiter <==> command[0] == ','
    ensures r.Value? <==> !IsStructural(command[0])
  {
    match command[0]
    case '<' => Open
    case '>' => Close
    case ',' => Delimiter
    case _ => NameToken(NameRun(command))
  }

  /** A name token holds the text up to the next structural character
      (or the end), untrimmed, and the trimmed text as its type. */
  lemma TakeItemName(command: string)
    requires |command| > 0 && !IsStructural(command[0])
    ensures var r := TakeItem(command);
      && r.raw == Some(command[..Length(r)])
      && r.value == Plain(ClassName(Trim(command[..Length(r)]), false))
      && (Length(r) == |command| || IsStructural(command[Length(r)]))
      && forall k :: 0 <= k < Length(r) ==> !IsStructural(command[k])
  {
  }

  /** The default `form`: an owner parameterised by the children. A
      `ClassName` owner becomes its parameterisation; an already
      parameterised owner keeps its raw type and has its arguments
      replaced. The result is never nullable. */
  function Form(owner: TypeName, children: seq<TypeName>): (r: TypeName)
    ensures r.Param? && r.args == children && !r.nullable
    ensures r.rawType == owner.Raw()
  {
    match owner
    case Plain(c) => Param(c, children, false)
    case Param(raw, _, _) => Param(raw, children, false)
  }

  /** Entries `run` may push: `Delimiter` and `Close` never reach the stack. */
  predicate StackShape(stack: seq<Token>) {
    forall k :: 0 <= k < |stack| ==> stack[k].Value? || stack[k].Open?
  }

  /** The pop loop on `Close`: pops `Value`s until the first other entry,
      which is popped and discarded. Returns the remaining stack and the
      popped values in their left-to-right (pushed) order. */
  function PopArgs(stack: seq<Token>): (r: Result<(seq<Token>, seq<TypeName>), ParseError>)
    ensures r.Success? ==> |r.value.0| + 1 + |r.value.1| == |stack|
    ensures r.Success? ==> r.value.0 == stack[..|r.value.0|]
    ensures r.Failure? ==> r.error == EmptyStack
  {
    if |stack| == 0 then Failure(EmptyStack)
    else
      var top := stack[|stack| - 1];
      if !top.Value? then Success((stack[..|stack| - 1], []))
      else
        match PopArgs(stack[..|stack| - 1])
        case Failure(e) => Failure(e)
        case Success(p) => Success((p.0, p.1 + [top.value]))
  }

  /** True when every entry is a `Value`. */
  predicate AllValues(entries: seq<Token>) {
    forall k :: 0 <= k < |entries| ==> entries[k].Value?
  }

  /** `PopArgs` underflows exactly when no `Open` (or other non-`Value`
      entry) lies on the stack. */
  lemma {:induction false} PopArgsFails(stack: seq<Token>)
    ensures PopArgs(stack).Failure? <==> AllValues(stack)
    decreases |stack|
  {
    if |stack| > 0 {
      var init := stack[..|stack| - 1];
      PopArgsFails(init);
      if stack[|stack| - 1].Value? && AllValues(init) {
        forall k | 0 <= k < |stack| ensures stack[k].Value? {
          if k < |stack| - 1 {
            assert stack[k] == init[k];
          }
        }
      }
    }
  }

  /** On success `PopArgs` stops at the topmost non-`Value` entry `j`: it
      returns what lies below `j` and the values above it, bottom to top. */
  lemma {:induction false} PopArgsSucceeds(stack: seq<Token>)
    requires PopArgs(stack).Success?
    ensures !stack[|PopArgs(stack).value.0|].Value?
    ensures AllValues(stack[|PopArgs(stack).value.0| + 1..])
    ensures PopArgs(stack).value.1 == Values(stack[|PopArgs(stack).value.0| + 1..])
    decreases |stack|
  {
    var init := stack[..|stack| - 1];
    var top := stack[|stack| - 1];
    if top.Value? {
      PopArgsSucceeds(init);
      var j := |PopArgs(init).value.0|;
      assert PopArgs(stack).value == (PopArgs(init).value.0, PopArgs(init).value.1 + [top.value]);
      assert stack[j + 1..] == init[j + 1..] + [top];
      ValuesSnoc(init[j + 1..], top);
    } else {
      assert stack[|stack|..] == [];
    }
  }

  /** The types held by a run of `Value` entries. */
  function Values(entries: seq<Token>): (r: seq<TypeName>)
    requires AllValues(entries)
    ensures |r| == |entries|
    ensures forall k :: 0 <= k < |entries| ==> r[k] == entries[k].value
  {
    if |entries| == 0 then [] else [entries[0].value] + Values(entries[1..])
  }

  lemma ValuesSnoc(entries: seq<Token>, v: Token)
    requires AllValues(entries)
    requires v.Value?
    ensures Values(entries + [v]) == Values(entries) + [v.value]
  {
  }

  /** `PopArgs` on an `Open` followed by values returns exactly those
      values, in order, and the stack below the `Open`. */
  lemma PopArgsAbove(below: seq<Token>, vals: seq<Token>)
    requires AllValues(vals)
    ensures PopArgs(below + [Open] + vals) == Success((below, Values(vals)))
  {
    var stack := below + [Open] + vals;
    PopArgsFails(stack);
    assert stack[|below|] == Open;
    assert PopArgs(stack).Success?;
    PopArgsSucceeds(stack);
    var j := |PopArgs(stack).value.0|;
    assert PopArgs(stack).value.0 == stack[..j];
    assert j == |below|;
    assert stack[..|below|] == below;
    assert stack[|below| + 1..] == vals;
  }

  /** The handling of `Close`: pop the arguments and their `Open`, pop the
      owner, and push the owner parameterised by the arguments. */
  function Reduce(stack: seq<Token>): (r: Result<seq<Token>, ParseError>)
    ensures AllValues(stack) ==> r == Failure(EmptyStack)
    ensures r.Success? ==> 0 < |r.value| < |stack| && r.value[..|r.value| - 1] == stack[..|r.value| - 1]
    ensures r.Success? ==> var top := r.value[|r.value| - 1];
      top.Value? && top.raw.None? && top.value.Param? && !top.value.nullable
  {
    PopArgsFails(stack);
    match PopArgs(stack)
    case Failure(e) => Failure(e)
    case Success(p) =>
      var rest := p.0;
      if |rest| == 0 then Failure(EmptyStack)
      else if !rest[|rest| - 1].Value? then Failure(NotAValue)
      else Success(rest[..|rest| - 1] + [Value(Form(rest[|rest| - 1].value, p.1), None)])
  }

  /** `Close` on an owner, its `Open` and the values above: the owner,
      parameterised by those values in left-to-right order, replaces the
      lot; an owner that is not a `Value` is the failed cast. With nothing
      below the `Open`, the owner pop underflows. */
  lemma ReduceAbove(below: seq<Token>, owner: Token, vals: seq<Token>)
    requires AllValues(vals)
    ensures Reduce(below + [owner, Open] + vals)
         == if owner.Value? then Success(below + [Value(Form(owner.value, Values(vals)), None)])
            else Failure(NotAValue)
    ensures Reduce([Open] + vals) == Failure(EmptyStack)
  {
    var rest := below + [owner];
    var stack := below + [owner, Open] + vals;
    assert stack == rest + [Open] + vals;
    PopArgsAbove(rest, vals);
    assert PopArgs(stack) == Success((rest, Values(vals)));
    assert rest[|rest| - 1] == owner && rest[..|rest| - 1] == below;
    ReduceOwnerless(vals);
  }

  lemma ReduceOwnerless(vals: seq<Token>)
    requires AllValues(vals)
    ensures Reduce([Open] + vals) == Failure(EmptyStack)
  {
    assert [Open] + vals == [] + [Open] + vals;
    PopArgsAbove([], vals);
  }

  /** One iteration of the `run` loop on the token just read. */
  function Step(stack: seq<Token>, item: Token): (r: Result<seq<Token>, ParseError>)
    requires StackShape(stack)
    ensures r.Success? ==> StackShape(r.value)
  {
    match item
    case Delimiter => Success(stack)
    case Close => Reduce(stack)
    case _ => Success(stack + [item])
  }

  /** Runs the loop over the remaining input `s` from the given stack. */
  function Scan(s: string, stack: seq<Token>): (r: Result<seq<Token>, ParseError>)
    requires StackShape(stack)
    ensures r.Success? ==> StackShape(r.value)
    decreases |s|, 0
  {
    if |s| == 0 then Success(stack)
    else
      var item := TakeItem(s);
      Continue(Step(stack, item), s[Length(item)..])
  }

  /** Carries on scanning `rest` after a step, unless the step threw. */
  function Continue(stepped: Result<seq<Token>, ParseError>, rest: string): (r: Result<seq<Token>, ParseError>)
    requires stepped.Success? ==> StackShape(stepped.value)
    ensures r.Success? ==> StackShape(r.value)
    decreases |rest|, 1
  {
    match stepped
    case Failure(e) => Failure(e)
    case Success(next) => Scan(rest, next)
  }

  /** The final `(stack.pop() as Value).value`. */
  function Top(stack: seq<Token>): (r: Result<TypeName, ParseError>)
    ensures r.Success? <==> |stack| > 0 && stack[|stack| - 1].Value?
    ensures r.Success? ==> r.value == stack[|stack| - 1].value
  {
    if |stack| == 0 then Failure(EmptyStack)
    else if !stack[|stack| - 1].Value? then Failure(NotAValue)
    else Success(stack[|stack| - 1].value)
  }

  function Finish(scanned: Result<seq<Token>, ParseError>): Result<TypeName, ParseError> {
    match scanned
    case Failure(e) => Failure(e)
    case Success(stack) => Top(stack)
  }

  /** `GenericSolver().run(command)`. */
  function Parse(command: string): (r: Result<TypeName, ParseError>)
    ensures |command| == 0 ==> r == Failure(EmptyStack)
  {
    Finish(Scan(command, []))
  }

  /** The `Close` branch of `run`, as written: the inner pop loop collects
      values most recent first, then the owner is popped and the result of
      `form(main, list.reversed())` is pushed. */
  method ReduceOnClose(stack0: seq<Token>) returns (r: Result<seq<Token>, ParseError>)
    requires StackShape(stack0)
    ensures r == Reduce(stack0)
  {
    var stack := stack0;
    var list: seq<TypeName> := [];
    ExtendNil(PopArgs(stack0));
    while true
      invariant StackShape(stack)
      invariant PopArgs(stack0) == Extend(PopArgs(stack), Reverse(list))
      decreases |stack|
    {
      ExtendNil(PopArgs(stack));
      if |stack| == 0 {
        return Failure(EmptyStack);
      }
      var v := stack[|stack| - 1];
      ghost var full := stack;
      stack := stack[..|stack| - 1];
      if v.Value? {
        ReverseSnoc(list, v.value);
        ExtendExtend(PopArgs(stack), [v.value], Reverse(list));
        list := list + [v.value];
      } else {
        assert PopArgs(full) == Success((stack, []));
        assert [] + Reverse(list) == Reverse(list);
        assert PopArgs(stack0) == Success((stack, Reverse(list)));
        break;
      }
    }
    if |stack| == 0 {
      return Failure(EmptyStack);
    }
    var main := stack[|stack| - 1];
    stack := stack[..|stack| - 1];
    if !main.Value? {
      return Failure(NotAValue);
    }
    r := Success(stack + [Value(Form(main.value, Reverse(list)), None)]);
  }

  /** `GenericSolver.run`, as written: a cursor loop over the input with an
      explicit stack, then a final pop of the result. */
  method Run(command: string) returns (r: Result<TypeName, ParseError>)
    ensures r == Parse(command)
  {
    var i := 0;
    var stack: seq<Token> := [];
    while i < |command|
      invariant 0 <= i <= |command|
      invariant StackShape(stack)
      invariant Finish(Scan(command[i..], stack)) == Parse(command)
      decreases |command| - i
    {
      var next := Advance(command, i, stack);
      if next.Failure? {
        return Failure(next.error);
      }
      i, stack := next.value.0, next.value.1;
    }
    FinishEmpty(command, i, stack);
    if |stack| == 0 {
      return Failure(EmptyStack);
    }
    var top := stack[|stack| - 1];
    if !top.Value? {
      return Failure(NotAValue);
    }
    r := Success(top.value);
  }

  /** One pass of the `run` loop at cursor `i`: the token read there is
      applied to the stack and the cursor moves past it. */
  function Advanced(command: string, i: nat, stack: seq<Token>): Result<(nat, seq<Token>), ParseError>
    requires i < |command| && StackShape(stack)
  {
    var item := TakeItem(command[i..]);
    match Step(stack, item)
    case Failure(e) => Failure(e)
    case Success(next) => Success((i + Length(item), next))
  }

  /** The body of the `run` loop, as written: `,` is skipped, `>` reduces
      the stack, anything else is pushed. */
  method Advance(command: string, i: nat, stack: seq<Token>) returns (r: Result<(nat, seq<Token>), ParseError>)
    requires i < |command| && StackShape(stack)
    ensures r == Advanced(command, i, stack)
    ensures r.Failure? ==> Finish(Scan(command[i..], stack)) == Failure(r.error)
    ensures r.Success? ==> i < r.value.0 <= |command| && StackShape(r.value.1)
    ensures r.Success? ==> Scan(command[r.value.0..], r.value.1) == Scan(command[i..], stack)
  {
    AdvancedScan(command, i, stack);
    var item := TakeItem(command[i..]);
    var j := i + Length(item);
    if item.Delimiter? {
      return Success((j, stack));
    }
    if !item.Close? {
      return Success((j, stack + [item]));
    }
    var reduced := ReduceOnClose(stack);
    if reduced.Failure? {
      return Failure(reduced.error);
    }
    r := Success((j, reduced.value));
  }

  /** A pass of the loop keeps the outcome of the whole scan: it either
      throws what the scan throws, or moves the cursor forward to a point
      from which the rest of the scan gives the same result. */
  lemma AdvancedScan(command: string, i: nat, stack: seq<Token>)
    requires i < |command| && StackShape(stack)
    ensures Advanced(command, i, stack).Failure? ==>
      Finish(Scan(command[i..], stack)) == Failure(Advanced(command, i, stack).error)
    ensures Advanced(command, i, stack).Success? ==>
      i < Advanced(command, i, stack).value.0 <= |command|
    ensures Advanced(command, i, stack).Success? ==>
      StackShape(Advanced(command, i, stack).value.1)
    ensures Advanced(command, i, stack).Success? ==>
      Scan(command[Advanced(command, i, stack).value.0..], Advanced(command, i, stack).value.1) == Scan(command[i..], stack)
  {
    var s := command[i..];
    var item := TakeItem(s);
    assert s[Length(item)..] == command[i + Length(item)..];
    ScanStep(s, stack);
  }

  /** One step of `Scan` on a non-empty text: the step throws, or the rest
      of the text is scanned from the stack the step left. */
  lemma ScanStep(s: string, stack: seq<Token>)
    requires |s| > 0 && StackShape(stack)
    ensures var item := TakeItem(s);
      match Step(stack, item)
      case Failure(e) => Finish(Scan(s, stack)) == Failure(e)
      case Success(next) => Scan(s[Length(item)..], next) == Scan(s, stack)
  {
  }

  /** At the end of the input the scan result is the stack itself. */
  lemma FinishEmpty(command: string, i: nat, stack: seq<Token>)
    requires i == |command| && StackShape(stack)
    ensures Finish(Scan(command[i..], stack)) == Top(stack)
  {
    assert command[i..] == [];
  }

  /** A name or `<` is pushed. */
  lemma StepPush(stack: seq<Token>, item: Token, rest: string)
    requires StackShape(stack) && (item.Open? || item.Value?)
    ensures StackShape(stack + [item])
    ensures Continue(Step(stack, item), rest) == Scan(rest, stack + [item])
  {
  }

  /** A name token never reaches past a structural character, so two texts
      meeting at a structural character are scanned one after the other. */
  predicate Boundary(a: string, b: string) {
    || |a| == 0 || IsStructural(a[|a| - 1])
    || |b| == 0 || IsStructural(b[0])
  }

  /** The name run of `a + b` stops inside `a` (or at its end). */
  lemma {:induction false} NameRunAppend(a: string, b: string)
    requires |a| > 0 && Boundary(a, b)
    ensures NameRun(a + b) == NameRun(a)
    decreases |a|
  {
    var ab := a + b;
    assert ab[0] == a[0];
    if !IsStructural(a[0]) {
      assert ab[1..] == a[1..] + b;
      if |a| == 1 {
        assert a[1..] + b == b;
        assert |b| == 0 || IsStructural(b[0]);
      } else {
        NameRunAppend(a[1..], b);
      }
    }
  }

  /** The first token of `a + b` is the first token of `a`. */
  lemma TakeItemAppend(a: string, b: string)
    requires |a| > 0 && Boundary(a, b)
    ensures TakeItem(a + b) == TakeItem(a)
  {
    assert (a + b)[0] == a[0];
    if !IsStructural(a[0]) {
      NameRunAppend(a, b);
    }
  }

  /** Scanning a concatenation at a structural boundary is scanning the
      first part, then the second from the stack it left. */
  lemma {:induction false} ScanAppend(a: string, b: string, stack: seq<Token>)
    requires Boundary(a, b) && StackShape(stack)
    ensures Scan(a + b, stack) == Continue(Scan(a, stack), b)
    decreases |a|
  {
    if |a| == 0 {
      assert a + b == b;
    } else {
      var item := TakeItem(a);
      TakeItemAppend(a, b);
      var n := Length(item);
      assert (a + b)[n..] == a[n..] + b;
      assert Boundary(a[n..], b);
      match Step(stack, item)
      case Failure(e) =>
      case Success(next) =>
        ScanAppend(a[n..], b, next);
    }
  }

  /** Appends `tail` to the arguments of a successful `PopArgs`. */
  function Extend(p: Result<(seq<Token>, seq<TypeName>), ParseError>, tail: seq<TypeName>)
    : Result<(seq<Token>, seq<TypeName>), ParseError>
  {
    match p
    case Failure(e) => Failure(e)
    case Success(q) => Success((q.0, q.1 + tail))
  }

  lemma ExtendNil(p: Result<(seq<Token>, seq<TypeName>), ParseError>)
    ensures Extend(p, []) == p
  {
    if p.Success? {
      assert p.value.1 + [] == p.value.1;
    }
  }

  lemma ExtendExtend(p: Result<(seq<Token>, seq<TypeName>), ParseError>, a: seq<TypeName>, b: seq<TypeName>)
    ensures Extend(Extend(p, a), b) == Extend(p, a + b)
  {
    if p.Success? {
      assert p.value.1 + a + b == p.value.1 + (a + b);
    }
  }

  /** The characters a token was read from. */
  function Text(t: Token): string {
    match t
    case Open => "<"
    case Close => ">"
    case Delimiter => ","
    case Value(_, raw) => raw.GetOr("")
  }

  /** The tokens `run` reads from `s`, in order, one per loop iteration. */
  function Tokenise(s: string): (r: seq<Token>)
    ensures forall k :: 0 <= k < |r| ==> Length(r[k]) >= 1
    decreases |s|
  {
    if |s| == 0 then []
    else
      var item := TakeItem(s);
      [item] + Tokenise(s[Length(item)..])
  }

  function Spell(tokens: seq<Token>): string {
    if |tokens| == 0 then "" else Text(tokens[0]) + Spell(tokens[1..])
  }

  /** A token spelling a prefix, then tokens spelling the rest. */
  lemma SpellPrefix(s: string, n: nat, item: Token, tail: seq<Token>)
    requires n <= |s| && Text(item) == s[..n] && Spell(tail) == s[n..]
    ensures Spell([item] + tail) == s
  {
    assert ([item] + tail)[1..] == tail;
    assert s[..n] + s[n..] == s;
  }

  /** The token read at the cursor is exactly the text it advances over. */
  lemma TakeItemText(s: string)
    requires |s| > 0
    ensures Text(TakeItem(s)) == s[..Length(TakeItem(s))]
  {
    if IsStructural(s[0]) {
      assert s[..1] == [s[0]];
    }
  }

  /** Tokenising consumes every character exactly once: the tokens spell
      out the input. */
  lemma {:induction false} TokeniseSpells(s: string)
    ensures Spell(Tokenise(s)) == s
    decreases |s|
  {
    if |s| > 0 {
      var item := TakeItem(s);
      var n := Length(item);
      TakeItemText(s);
      TokeniseSpells(s[n..]);
      SpellPrefix(s, n, item, Tokenise(s[n..]));
    }
  }

  /** Applies `Step` to each token in turn, stopping at the first failure. */
  function Fold(items: seq<Token>, stack: seq<Token>): (r: Result<seq<Token>, ParseError>)
    requires StackShape(stack)
    ensures r.Success? ==> StackShape(r.value)
  {
    if |items| == 0 then Success(stack)
    else
      match Step(stack, items[0])
      case Failure(e) => Failure(e)
      case Success(next) => Fold(items[1..], next)
  }

  /** The scan is the stack machine run over the token sequence. */
  lemma {:induction false} ScanIsFold(s: string, stack: seq<Token>)
    requires StackShape(stack)
    ensures Scan(s, stack) == Fold(Tokenise(s), stack)
    decreases |s|
  {
    if |s| > 0 {
      var item := TakeItem(s);
      var items := Tokenise(s);
      assert items[0] == item && items[1..] == Tokenise(s[Length(item)..]);
      match Step(stack, item)
      case Failure(e) =>
      case Success(next) =>
        ScanIsFold(s[Length(item)..], next);
    }
  }
}
