/** The state machine of cdecl2.c: every state function, the driver, and what it prints. */
module Cdecl {
  import opened Common
  import opened CdeclTokens
  import opened CdeclMeaning
  import opened CdeclReading

  /** The value of nextstate; Crashed stands for what C leaves undefined or never ends. */
  datatype State = Initial | ArrayPart | ParamPart | LparenPart | PtrPart | TypePart | Done | Crashed(fault: Fault)

  const P := StateMachine

  /** Pops and prints all that is stacked. */
  function Drain(c: Config): (r: Config)
    ensures r.stack == []
    decreases |c.stack|
  {
    if c.stack == [] then c else Drain(Pop(Print(c, TopOf(c).text + " ")))
  }

  function Initially(c: Config): (State, Config) {
    match ReadName(P, c)
    case Ok(d) => (ArrayPart, d)
    case Fail(f) => (Crashed(f), c)
  }

  function AtArray(c: Config): (State, Config) {
    (if c.cur.kind == Symbol('[') then LparenPart else ParamPart, ReadArrays(P, c))
  }

  function AtParams(c: Config): (State, Config) {
    if c.cur.kind == Symbol('(') then
      match SkipParams(P, c)
      case Ok(d) => (LparenPart, Print(d, "function returning  "))
      case Fail(f) => (Crashed(f), c)
    else (LparenPart, c)
  }

  function AtLparen(c: Config): (State, Config) {
    if c.stack != [] && TopOf(c).kind == Symbol('(') then (ArrayPart, Advance(P, Pop(c))) else (PtrPart, c)
  }

  function AtPointer(c: Config): (State, Config) {
    if c.stack == [] then (Crashed(BelowBottom), c)
    else if TopOf(c).kind == Symbol('*') then (LparenPart, Pop(Print(c, "pointer to ")))
    else if TopOf(c).kind == Qualifier then (LparenPart, Pop(Print(c, TopOf(c).text + " ")))
    else (TypePart, c)
  }

  function Step(s: State, c: Config): (State, Config)
    requires !s.Done? && !s.Crashed?
  {
    match s
    case Initial => Initially(c)
    case ArrayPart => AtArray(c)
    case ParamPart => AtParams(c)
    case LparenPart => AtLparen(c)
    case PtrPart => AtPointer(c)
    case TypePart => (Done, Print(Drain(c), "\n"))
  }

  function Rank(s: State): nat {
    match s
    case Initial => 6
    case ArrayPart => 5
    case ParamPart => 4
    case LparenPart => 3
    case PtrPart => 2
    case TypePart => 1
    case Done => 0
    case Crashed(_) => 0
  }

  /** The driver loop: it ends from every state. */
  function Finish(s: State, c: Config): Result<seq<string>>
    decreases s == Initial, |c.stack|, Rank(s)
  {
    match s
    case Done => Ok(c.out)
    case Crashed(f) => Fail(f)
    case _ => var (t, d) := Step(s, c); Finish(t, d)
  }

  // ---- the program ------------------------------------------------------------------

  method GetArray(m: Machine) returns (next: State)
    requires m.Valid() && m.program == P
    modifies m
    ensures m.Valid() && (next, m.State()) == AtArray(old(m.State()))
  {
    var some := m.ReadSizes();
    next := if some then LparenPart else ParamPart;
  }

  method GetParams(m: Machine) returns (next: State)
    requires m.Valid() && m.program == P
    modifies m
    ensures m.Valid() && next == AtParams(old(m.State())).0
    ensures !next.Crashed? ==> m.State() == AtParams(old(m.State())).1
  {
    if m.cur.kind == Symbol('(') {
      var r := m.ReadParams();
      if r.Fail? {
        return Crashed(r.fault);
      }
      m.Write("function returning  ");
    }
    return LparenPart;
  }

  method GetLparen(m: Machine) returns (next: State)
    requires m.Valid() && m.program == P
    modifies m
    ensures m.Valid() && (next, m.State()) == AtLparen(old(m.State()))
  {
    if m.top >= 0 {
      if m.stack[m.top].kind == Symbol('(') {
        var t := m.PopTop();
        m.GetToken();
        return ArrayPart;
      }
    }
    return PtrPart;
  }

  method GetPtrPart(m: Machine) returns (next: State)
    requires m.Valid() && m.program == P
    modifies m
    ensures m.Valid() && (next, m.State()) == AtPointer(old(m.State()))
  {
    if m.top < 0 {
      return Crashed(BelowBottom);
    }
    if m.stack[m.top].kind == Symbol('*') {
      m.Write("pointer to ");
      var t := m.PopTop();
      return LparenPart;
    } else if m.stack[m.top].kind == Qualifier {
      var t := m.PopTop();
      m.Write(t.text + " ");
      return LparenPart;
    }
    return TypePart;
  }

  method GetType(m: Machine)
    requires m.Valid()
    modifies m
    ensures m.Valid() && m.State() == Print(Drain(old(m.State())), "\n")
  {
    while m.top >= 0
      invariant m.Valid() && Drain(m.State()) == Drain(old(m.State()))
      decreases m.top
    {
      var t := m.PopTop();
      m.Write(t.text + " ");
    }
    m.Write("\n");
  }

  /** Every step but the first works the stack down, or moves toward the end. */
  lemma Shrinks(s: State, c: Config)
    requires !s.Done? && !s.Crashed?
    ensures var (t, d) := Step(s, c);
      && t != Initial
      && (|| s == Initial || t.Crashed? || t.Done? || |d.stack| < |c.stack|
          || (|d.stack| == |c.stack| && Rank(t) < Rank(s)))
  {
    hide ReadName, Drain, ReadArrays, SkipParams;
  }

  lemma Stops(s: State, c: Config)
    ensures s.Done? ==> Finish(s, c) == Ok(c.out)
    ensures s.Crashed? ==> Finish(s, c) == Fail(s.fault)
  {
  }

  function Start(input: string): Config {
    Config([], EOF_TOKEN, input, [])
  }

  /** main, on any input at all. */
  method Translate(input: string) returns (r: Result<seq<string>>)
    ensures r == Finish(Initial, Start(input))
  {
    hide Finish, ReadName, Drain, ReadArrays, SkipParams;
    var m := new Machine(P, input);
    var next := Initial;
    while !next.Done? && !next.Crashed?
      invariant m.Valid() && m.program == P && fresh(m) && fresh(m.stack)
      invariant next.Crashed? ==> Finish(Initial, Start(input)) == Fail(next.fault)
      invariant !next.Crashed? ==> Finish(Initial, Start(input)) == Finish(next, m.State())
      decreases !next.Crashed? && !next.Done?, next == Initial, m.top + 1, Rank(next)
    {
      ghost var (s, c) := Step(next, m.State());
      Runs(next, m.State());
      Stops(s, c);
      Shrinks(next, m.State());
      next := Dispatch(m, next);
    }
    Stops(next, m.State());
    return if next.Done? then Ok(m.out) else Fail(next.fault);
  }

  method Dispatch(m: Machine, s: State) returns (next: State)
    requires m.Valid() && m.program == P && !s.Done? && !s.Crashed?
    modifies m, m.stack
    ensures m.Valid() && next == Step(s, old(m.State())).0
    ensures !next.Crashed? ==> m.State() == Step(s, old(m.State())).1
  {
    match s {
      case Initial =>
        var r := m.ReadToName();
        return if r.Ok? then ArrayPart else Crashed(r.fault);
      case ArrayPart => next := GetArray(m);
      case ParamPart => next := GetParams(m);
      case LparenPart => next := GetLparen(m);
      case PtrPart => next := GetPtrPart(m);
      case TypePart =>
        GetType(m);
        return Done;
    }
  }

  // ---- what it prints ------------------------------------------------------------------

  lemma PopsQualifier(c: Config, stack: seq<Token>, w: string)
    requires c.stack == stack + [TokenOf(P, w)] && (IsQualifier(w) || w == "static")
    ensures Finish(LparenPart, c) == Finish(LparenPart, Popped(P, c, stack, [Word(w)]))
  {
    KindOfQualifier(P, w);
    hide TokenOf, IsQualifier, Rendered;
    assert Pop(c).stack == stack && TopOf(c) == TokenOf(P, w);
    assert Said(P, [Word(w)]) == [Rendered(w) + " "];
    assert Finish(LparenPart, c) == Finish(PtrPart, c);
  }

  lemma PopsStar(c: Config, stack: seq<Token>)
    requires c.stack == stack + [TokenOf(P, "*")]
    ensures Finish(LparenPart, c) == Finish(LparenPart, Popped(P, c, stack, [PointerTo]))
  {
    KindOfSymbol(P, "*", '*');
    hide TokenOf;
    assert Pop(c).stack == stack && TopOf(c) == TokenOf(P, "*");
    assert "pointer to" + " " == "pointer to ";
    assert Said(P, [PointerTo]) == ["pointer to "];
    assert Finish(LparenPart, c) == Finish(PtrPart, c);
  }

  lemma {:induction false} PopsQualifiers(c: Config, stack: seq<Token>, words: seq<string>)
    requires c.stack == stack + Tokens(P, words)
    requires forall i | 0 <= i < |words| :: IsQualifier(words[i])
    ensures Finish(LparenPart, c) == Finish(LparenPart, Popped(P, c, stack, Backwards(words)))
    decreases |words|
  {
    hide Finish, TokenOf, IsQualifier;
    if words == [] {
      assert Popped(P, c, stack, []) == c;
    } else {
      var w, more := words[0], words[1..];
      assert words == [w] + more;
      Pushed(P, stack, w, more);
      var d := Popped(P, c, stack + [TokenOf(P, w)], Backwards(more));
      PopsQualifiers(c, stack + [TokenOf(P, w)], more);
      PopsQualifier(d, stack, w);
      Then(P, c, d.stack, Backwards(more), stack, [Word(w)]);
    }
  }

  /** The pointers of a level are said from the name outward. */
  lemma {:induction false} PopsPointers(c: Config, stack: seq<Token>, pointers: seq<seq<string>>)
    requires c.stack == stack + Tokens(P, PointerWords(pointers))
    requires forall i, j | 0 <= i < |pointers| && 0 <= j < |pointers[i]| :: IsQualifier(pointers[i][j])
    ensures Finish(LparenPart, c) == Finish(LparenPart, Popped(P, c, stack, PointerPhrases(pointers)))
    decreases |pointers|
  {
    hide Finish, TokenOf, IsQualifier;
    if pointers == [] {
      assert Popped(P, c, stack, []) == c;
    } else {
      var q, more := pointers[0], pointers[1..];
      var star := stack + [TokenOf(P, "*")];
      PointerStack(P, stack, q, more);
      assert PointerWords(pointers) == ["*"] + q + PointerWords(more);
      var d := Popped(P, c, star + Tokens(P, q), PointerPhrases(more));
      PopsPointers(c, star + Tokens(P, q), more);
      PopsQualifiers(d, star, q);
      var e := Popped(P, d, star, Backwards(q));
      PopsStar(e, stack);
      Then(P, d, star, Backwards(q), stack, [PointerTo]);
      Then(P, c, d.stack, PointerPhrases(more), stack, Backwards(q) + [PointerTo]);
      assert PointerPhrases(more) + (Backwards(q) + [PointerTo]) == PointerPhrases(pointers);
    }
  }

  /** No suffix: neither get_array nor get_params reads anything. */
  lemma NoSuffix(c: Config, after: seq<string>)
    requires Facing(P, c, after) && Ender(after[0])
    ensures Finish(ArrayPart, c) == Finish(LparenPart, c)
  {
    KindOfSymbol(P, after[0], '(');
    KindOfSymbol(P, after[0], '[');
    hide TokenOf, Comes;
    assert Finish(ArrayPart, c) == Finish(ParamPart, c);
  }

  lemma SomeArrays(c: Config, sizes: seq<Option<nat>>, after: seq<string>)
    requires Facing(P, c, ArrayWords(sizes) + after) && sizes != []
    ensures Finish(ArrayPart, c) == Finish(LparenPart, ReadArrays(P, c))
  {
    assert ArrayWords(sizes) + after == SizeWords(sizes[0]) + (ArrayWords(sizes[1..]) + after);
    OpeningBracket(P, c, sizes[0], ArrayWords(sizes[1..]) + after);
  }

  lemma SomeParams(c: Config, words: seq<string>, after: seq<string>) returns (r: Config)
    requires Facing(P, c, ["("] + words + [")"] + after) && after != []
    requires forall i | 0 <= i < |words| :: IsWord(words[i]) && words[i] != ")"
    ensures Finish(ArrayPart, c) == Finish(LparenPart, r)
    ensures r.stack == c.stack && r.out == c.out + Said(P, [FunctionReturning]) && Facing(P, r, after)
  {
    hide TokenOf, Comes, SkipParams, Finish, IsWord;
    assert ["("] + words + [")"] + after == ["("] + (words + [")"] + after) == (["("] + words) + ([")"] + after);
    OpeningParen(P, c, words + [")"] + after);
    ParenWord(words);
    var d := SkipsParams(P, c, ["("] + words, after);
    r := Print(d, "function returning  ");
    SaysFunction();
    ParamsStep(c, d);
  }

  lemma SaysFunction()
    ensures Said(P, [FunctionReturning]) == ["function returning  "]
  {
    assert "function returning " + " " == "function returning  ";
  }

  lemma ParamsStep(c: Config, d: Config)
    requires c.cur.kind == Symbol('(') && SkipParams(P, c) == Ok(d)
    ensures Finish(ArrayPart, c) == Finish(LparenPart, Print(d, "function returning  "))
  {
    hide SkipParams;
    assert Finish(ArrayPart, c) == Finish(ParamPart, c);
  }

  /** The suffix of a level: some arrays, or one parameter list, or nothing. */
  lemma ReadsSuffix(c: Config, suffix: Suffix, after: seq<string>) returns (r: Config)
    requires Facing(P, c, SuffixWords(suffix) + after) && after != [] && Ender(after[0])
    requires suffix.Params? ==> forall i | 0 <= i < |suffix.words| :: IsWord(suffix.words[i]) && suffix.words[i] != ")"
    ensures Finish(ArrayPart, c) == Finish(LparenPart, r)
    ensures r.stack == c.stack && r.out == c.out + Said(P, SuffixPhrases(suffix)) && Facing(P, r, after)
  {
    hide Facing, Ender, IsWord, Finish, ReadArrays, ArrayWords, AllArrayPhrases;
    if suffix.Nothing? || (suffix.Arrays? && suffix.sizes == []) {
      EmptyArrays();
      assert SuffixWords(suffix) + after == after;
      NoSuffix(c, after);
      r := c;
    } else if suffix.Arrays? {
      ReadsArrays(P, c, suffix.sizes, after);
      SomeArrays(c, suffix.sizes, after);
      r := ReadArrays(P, c);
    } else {
      r := SomeParams(c, suffix.words, after);
    }
  }

  /** After the suffix of an inner level its parenthesis closes. */
  lemma ClosesParen(c: Config, stack: seq<Token>, after: seq<string>)
    requires c.stack == stack + [TokenOf(P, "(")] && Facing(P, c, [")"] + after) && after != []
    ensures var d := Advance(P, c.(stack := stack));
      Finish(LparenPart, c) == Finish(ArrayPart, d) && d.stack == stack && d.out == c.out && Facing(P, d, after)
  {
    KindOfSymbol(P, "(", '(');
    hide TokenOf, NextToken, ReadArrays, SkipParams;
    assert Pop(c) == c.(stack := stack);
    assert Facing(P, Pop(c), [")"] + after);
    Onward(P, Pop(c), ")", after);
  }

  /** A level whose inside is done: its suffix, then its pointers. */
  lemma FinishesLevel(c: Config, stack: seq<Token>, d: Declarator, after: seq<string>) returns (r: Config)
    requires WellFormed(d) && after != [] && Ender(after[0])
    requires c.stack == stack + Tokens(P, PointerWords(d.pointers)) && Facing(P, c, SuffixWords(d.suffix) + after)
    ensures Finish(ArrayPart, c) == Finish(LparenPart, r) && r.stack == stack && Facing(P, r, after)
    ensures r.out == c.out + Said(P, SuffixPhrases(d.suffix) + PointerPhrases(d.pointers))
  {
    hide Ender, IsWord, IsQualifier, Finish, Comes, TokenOf;
    var e := ReadsSuffix(c, d.suffix, after);
    PopsPointers(e, stack, d.pointers);
    r := Popped(P, e, stack, PointerPhrases(d.pointers));
    Then(P, c, c.stack, SuffixPhrases(d.suffix), stack, PointerPhrases(d.pointers));
  }

  /** A whole declarator, from the first token after its name: it is said, unstacked and read past. */
  lemma {:induction false} FinishesDeclarator(c: Config, stack: seq<Token>, d: Declarator, after: seq<string>)
      returns (r: Config)
    requires WellFormed(d) && after != [] && Ender(after[0])
    requires c.stack == stack + Tokens(P, Before(d)) && Facing(P, c, After(d) + after)
    ensures Finish(ArrayPart, c) == Finish(LparenPart, r) && r.stack == stack && Facing(P, r, after)
    ensures r.out == c.out + Said(P, Phrases(d))
    decreases d
  {
    hide Ender, WellFormed, Facing, TokenOf, SuffixWords, SuffixPhrases, PointerWords, PointerPhrases, Before,
      After, Phrases,
      Finish;
    var last := SuffixWords(d.suffix) + after;
    if d.core.Name? {
      NameLevel(d, after);
      r := FinishesLevel(c, stack, d, after);
    } else {
      var inner := d.core.inner;
      var outside := stack + Tokens(P, PointerWords(d.pointers));
      BeforeParen(P, stack, d);
      ParenLevel(d, after);
      InnerFormed(d);
      ParenEnds();
      var e := FinishesDeclarator(c, outside + [TokenOf(P, "(")], inner, [")"] + last);
      ClosesParen(e, outside, last);
      var f := Advance(P, e.(stack := outside));
      r := FinishesLevel(f, stack, d, after);
      SaidMore(P, Phrases(inner), SuffixPhrases(d.suffix) + PointerPhrases(d.pointers));
      Join(c.out, Said(P, Phrases(inner)), Said(P, SuffixPhrases(d.suffix) + PointerPhrases(d.pointers)));
    }
  }

  lemma SpecifierText(w: string)
    requires IsSpecifier(w)
    ensures Said(P, [Word(w)]) == [TokenOf(P, w).text + " "]
  {
    if IsTypeName(w) {
      KindOfType(P, w);
    } else {
      KindOfQualifier(P, w);
    }
  }

  /** get_type says all that is stacked. */
  lemma {:induction false} DrainSays(c: Config, words: seq<string>)
    requires c.stack == Tokens(P, words)
    requires forall i | 0 <= i < |words| :: IsSpecifier(words[i])
    ensures Drain(c).out == c.out + Said(P, Backwards(words))
    decreases |words|
  {
    hide TokenOf, IsSpecifier;
    if words != [] {
      var n := |words| - 1;
      var init, w := words[..n], words[n];
      LastToken(P, words);
      SpecifierText(w);
      var d := Pop(Print(c, TopOf(c).text + " "));
      assert d == Popped(P, c, Tokens(P, init), [Word(w)]);
      DrainSays(d, init);
      BackwardsLast(init, w);
      Then(P, c, d.stack, [Word(w)], [], Backwards(init));
    }
  }

  /** The specifiers: said if one of them is a type; otherwise get_ptr_part looks below the stack. */
  lemma {:induction false} FinishesSpecifiers(c: Config, words: seq<string>)
    requires c.stack == Tokens(P, words)
    requires forall i | 0 <= i < |words| :: IsSpecifier(words[i])
    ensures Finish(LparenPart, c) ==
      if HasType(words) then Ok(c.out + Said(P, Backwards(words) + [EndLine])) else Fail(BelowBottom)
    decreases |words|
  {
    hide TokenOf, IsTypeName, IsQualifier, Finish;
    if words == [] {
      NothingLeft(c);
    } else {
      var n := |words| - 1;
      var init, w := words[..n], words[n];
      LastToken(P, words);
      if IsTypeName(w) {
        EndsAtType(c, words);
      } else {
        PopsQualifier(c, Tokens(P, init), w);
        var d := Popped(P, c, Tokens(P, init), [Word(w)]);
        forall i | 0 <= i < n ensures IsSpecifier(init[i]) {
          assert init[i] == words[i];
        }
        FinishesSpecifiers(d, init);
        HasTypeLast(init, w);
        BackwardsLast(init, w);
        Then(P, c, d.stack, [Word(w)], [], Backwards(init) + [EndLine]);
        assert [Word(w)] + (Backwards(init) + [EndLine]) == Backwards(words) + [EndLine];
      }
    }
  }

  lemma Runs(s: State, c: Config)
    requires !s.Done? && !s.Crashed?
    ensures Finish(s, c) == Finish(Step(s, c).0, Step(s, c).1)
  {
  }

  lemma NothingLeft(c: Config)
    requires c.stack == []
    ensures Finish(LparenPart, c) == Fail(BelowBottom)
  {
    Runs(LparenPart, c);
    Runs(PtrPart, c);
  }

  lemma TypeOnTop(c: Config)
    requires c.stack != [] && TypeLike(TopOf(c).kind)
    ensures Finish(LparenPart, c) == Ok(Drain(c).out + ["\n"])
  {
    hide Drain;
    Runs(LparenPart, c);
    Runs(PtrPart, c);
    Runs(TypePart, c);
  }

  lemma EndsAtType(c: Config, words: seq<string>)
    requires c.stack == Tokens(P, words) && words != [] && IsTypeName(words[|words| - 1])
    requires forall i | 0 <= i < |words| :: IsSpecifier(words[i])
    ensures Finish(LparenPart, c) == Ok(c.out + Said(P, Backwards(words) + [EndLine]))
  {
    hide *;
    LastToken(P, words);
    KindOfType(P, words[|words| - 1]);
    DrainSays(c, words);
    TopIs(P, c, words);
    TypeOnTop(c);
    SaidMore(P, Backwards(words), [EndLine]);
    SaysEnd();
    Join(c.out, Said(P, Backwards(words)), ["\n"]);
  }

  lemma SaysEnd()
    ensures Said(P, [EndLine]) == ["\n"]
  {
  }

  /**
    The translator on every well-formed declaration, of any depth, in any layout: it
    always stops; it overflows its stack exactly when more than MAXTOKENS tokens precede
    the name; it looks below its stack exactly when no specifier is a type keyword; and
    otherwise it prints the English of the declared type.
   */
  lemma SaysTheType(d: Declaration, end: string, input: string)
    requires WellFormedDeclaration(d) && Ender(end) && Comes(P, input, Words(d) + [end])
    ensures Finish(Initial, Start(input)) ==
      if |d.specifiers| + |Before(d.declarator)| > 100 then Fail(StackOverflow)
      else if !HasType(d.specifiers) then Fail(BelowBottom)
      else Ok(Said(P, Sentence(d)))
  {
    hide Comes, WellFormed, Before, After, HasType, ReadName, Backwards, IsSpecifier, Phrases, TypeOf, TokenOf, Ender;
    var c := Start(input);
    var r := ReadsName(P, c, d, end);
    if |d.specifiers| + |Before(d.declarator)| <= MAXTOKENS {
      var specs := Tokens(P, d.specifiers);
      var e := FinishesDeclarator(r, specs, d.declarator, [end]);
      FinishesSpecifiers(e, d.specifiers);
      EnglishOutward(d.declarator, Base(d.specifiers));
      Spoken(P, NameOf(d.declarator), Phrases(d.declarator), Backwards(d.specifiers));
      FirstStep(c, r);
    }
  }

  lemma FirstStep(c: Config, r: Config)
    requires ReadName(P, c) == Ok(r)
    ensures Finish(Initial, c) == Finish(ArrayPart, r)
  {
    hide ReadName;
  }

  /** The same of text with any blanks between the words and anything after the end. */
  lemma SaysAnyLayout(d: Declaration, end: string, gaps: seq<nat>, tail: string)
    requires WellFormedDeclaration(d) && Ender(end)
    requires |gaps| == |Words(d) + [end]| && Separated(Words(d) + [end], gaps)
    ensures Finish(Initial, Start(Layout(Words(d) + [end], gaps, tail))) ==
      if |d.specifiers| + |Before(d.declarator)| > 100 then Fail(StackOverflow)
      else if !HasType(d.specifiers) then Fail(BelowBottom)
      else Ok(Said(P, Sentence(d)))
  {
    hide *;
    LayoutComes(P, Words(d) + [end], gaps, tail);
    SaysTheType(d, end, Layout(Words(d) + [end], gaps, tail));
  }
}
