/** The recursive translator of char3_analytype.c, and its agreement with the state machine. */
module CdeclRecursive {
  import opened Common
  import opened CdeclTokens
  import opened CdeclMeaning
  import opened CdeclReading
  import Cdecl

  const P := Recursive

  /** deal_with_pointers: it looks at the top of the stack without asking whether there is one. */
  function PopStars(c: Config): (r: Result<Config>)
    ensures r.Ok? ==> |r.value.stack| <= |c.stack| && c.out <= r.value.out
    decreases |c.stack|
  {
    if c.stack == [] then Fail(BelowBottom)
    else if TopOf(c).kind == Symbol('*') then PopStars(Pop(Print(c, TopOf(c).text)))
    else Ok(c)
  }

  /** deal_with_arrays or deal_with_function_args */
  function Suffixes(c: Config): (r: Result<Config>)
    ensures r.Ok? ==> r.value.stack == c.stack && c.out <= r.value.out
  {
    if c.cur.kind == Symbol('[') then Ok(ReadArrays(P, c))
    else if c.cur.kind == Symbol('(') then
      match SkipParams(P, c)
      case Ok(d) => Ok(Print(d, "function returning "))
      case Fail(f) => Fail(f)
    else Ok(c)
  }

  /** deal_with_declarator */
  function Deal(c: Config): (r: Result<Config>)
    ensures r.Ok? ==> r.value.stack == [] && c.out <= r.value.out
    decreases |c.stack|, 1
  {
    match Suffixes(c)
    case Fail(f) => Fail(f)
    case Ok(d) =>
      match PopStars(d)
      case Fail(f) => Fail(f)
      case Ok(e) => Unwind(e)
  }

  /** The loop at the end of deal_with_declarator. */
  function Unwind(c: Config): (r: Result<Config>)
    ensures r.Ok? ==> r.value.stack == [] && c.out <= r.value.out
    decreases |c.stack|, 0
  {
    if c.stack == [] then Ok(c)
    else if TopOf(c).kind == Symbol('(') then
      match Deal(Advance(P, Pop(c)))
      case Fail(f) => Fail(f)
      case Ok(d) => Unwind(d)
    else Unwind(Pop(Print(c, TopOf(c).text)))
  }

  function Run(input: string): Result<seq<string>> {
    match ReadName(P, Cdecl.Start(input))
    case Fail(f) => Fail(f)
    case Ok(c) =>
      match Deal(c)
      case Fail(f) => Fail(f)
      case Ok(d) => Ok(d.out + ["\n"])
  }

  // ---- the program ------------------------------------------------------------------

  ghost predicate Refines(r: Result<()>, m: Machine, spec: Result<Config>)
    requires m.Valid()
    reads m, m.stack
  {
    match spec
    case Ok(c) => r.Ok? && m.State() == c
    case Fail(f) => r == Fail(f)
  }

  method DealWithSuffix(m: Machine) returns (r: Result<()>)
    requires m.Valid() && m.program == P
    modifies m
    ensures m.Valid() && Refines(r, m, Suffixes(old(m.State())))
  {
    hide ReadArrays, SkipParams;
    if m.cur.kind == Symbol('[') {
      var some := m.ReadSizes();
    } else if m.cur.kind == Symbol('(') {
      r := m.ReadParams();
      if r.Fail? {
        return r;
      }
      m.Write("function returning ");
    }
    return Ok(());
  }

  method DealWithPointers(m: Machine) returns (r: Result<()>)
    requires m.Valid()
    modifies m
    ensures m.Valid() && Refines(r, m, PopStars(old(m.State())))
  {
    while true
      invariant m.Valid() && PopStars(m.State()) == PopStars(old(m.State()))
      decreases m.top
    {
      if m.top < 0 {
        return Fail(BelowBottom);
      }
      assert TopOf(m.State()) == m.stack[m.top];
      if m.stack[m.top].kind != Symbol('*') {
        return Ok(());
      }
      var t := m.PopTop();
      m.Write(t.text);
    }
  }

  method DealWithDeclarator(m: Machine) returns (r: Result<()>)
    requires m.Valid() && m.program == P
    modifies m
    ensures m.Valid() && Refines(r, m, Deal(old(m.State())))
    decreases m.top + 1, 1
  {
    hide PopStars, Suffixes, Unwind;
    r := DealWithSuffix(m);
    if r.Fail? {
      return r;
    }
    r := DealWithPointers(m);
    if r.Fail? {
      return r;
    }
    r := PopRest(m);
  }

  method PopRest(m: Machine) returns (r: Result<()>)
    requires m.Valid() && m.program == P
    modifies m
    ensures m.Valid() && Refines(r, m, Unwind(old(m.State())))
    decreases m.top + 1, 0
  {
    hide Deal, Unwind, NextToken;
    while m.top >= 0
      invariant m.Valid() && m.top <= old(m.top) && Unwind(m.State()) == Unwind(old(m.State()))
      decreases m.top
    {
      UnwindStep(m.State());
      if m.stack[m.top].kind == Symbol('(') {
        var t := m.PopTop();
        m.GetToken();
        r := DealWithDeclarator(m);
        if r.Fail? {
          return r;
        }
      } else {
        var t := m.PopTop();
        m.Write(t.text);
      }
    }
    UnwindStep(m.State());
    return Ok(());
  }

  lemma UnwindStep(c: Config)
    ensures Unwind(c) ==
      if c.stack == [] then Ok(c)
      else if TopOf(c).kind == Symbol('(') then
        match Deal(Advance(P, Pop(c)))
        case Fail(f) => Fail(f)
        case Ok(d) => Unwind(d)
      else Unwind(Pop(Print(c, TopOf(c).text)))
  {
    hide Deal;
  }

  method Translate(input: string) returns (r: Result<seq<string>>)
    ensures r == Run(input)
  {
    var m := new Machine(P, input);
    var q := m.ReadToName();
    if q.Fail? {
      return Fail(q.fault);
    }
    q := DealWithDeclarator(m);
    if q.Fail? {
      return Fail(q.fault);
    }
    m.Write("\n");
    return Ok(m.out);
  }

  // ---- what it prints ------------------------------------------------------------------

  /** Something other than a `*` lies on the stack. */
  predicate Grounded(stack: seq<Token>) {
    exists i | 0 <= i < |stack| :: stack[i].kind != Symbol('*')
  }

  /** On such a stack deal_with_pointers only anticipates the loop after it. */
  lemma {:induction false} StarsFirst(c: Config)
    requires Grounded(c.stack)
    ensures PopStars(c).Ok? && Unwind(PopStars(c).value) == Unwind(c)
    decreases |c.stack|
  {
    if TopOf(c).kind == Symbol('*') {
      var d := Pop(Print(c, TopOf(c).text));
      var i :| 0 <= i < |c.stack| && c.stack[i].kind != Symbol('*');
      assert d.stack[i].kind != Symbol('*');
      StarsFirst(d);
    }
  }

  /** On a stack of stars it pops them all and looks below the bottom. */
  lemma {:induction false} OnlyStars(c: Config)
    requires !Grounded(c.stack)
    ensures PopStars(c) == Fail(BelowBottom)
    decreases |c.stack|
  {
    if c.stack != [] {
      OnlyStars(Pop(Print(c, TopOf(c).text)));
    }
  }

  lemma DealsBy(c: Config, d: Config)
    requires Suffixes(c) == Ok(d)
    ensures Deal(c) == if Grounded(d.stack) then Unwind(d) else Fail(BelowBottom)
  {
    hide Suffixes, Unwind, PopStars, Grounded;
    if Grounded(d.stack) {
      StarsFirst(d);
    } else {
      OnlyStars(d);
    }
  }

  lemma UnwindsToken(c: Config, stack: seq<Token>, t: Token, phrase: Phrase)
    requires c.stack == stack + [t] && t.kind != Symbol('(') && Say(P, phrase) == t.text
    ensures Unwind(c) == Unwind(Popped(P, c, stack, [phrase]))
  {
    hide Deal, Say;
    assert TopOf(c) == t && Pop(c).stack == stack;
    assert Said(P, [phrase]) == [t.text];
  }

  lemma UnwindsWord(c: Config, stack: seq<Token>, w: string)
    requires c.stack == stack + [TokenOf(P, w)] && IsSpecifier(w) && w != "static"
    ensures Unwind(c) == Unwind(Popped(P, c, stack, [Word(w)]))
  {
    hide Unwind, TokenOf, IsTypeName, IsQualifier, Rendered;
    if IsTypeName(w) {
      KindOfType(P, w);
    } else {
      KindOfQualifier(P, w);
    }
    assert Rendered(w) + "" == Rendered(w);
    UnwindsToken(c, stack, TokenOf(P, w), Word(w));
  }

  lemma UnwindsStar(c: Config, stack: seq<Token>)
    requires c.stack == stack + [TokenOf(P, "*")]
    ensures Unwind(c) == Unwind(Popped(P, c, stack, [PointerTo]))
  {
    hide Unwind;
    assert "pointer to" + "" == "pointer to";
    UnwindsToken(c, stack, TokenOf(P, "*"), PointerTo);
  }

  lemma {:induction false} UnwindsWords(c: Config, stack: seq<Token>, words: seq<string>)
    requires c.stack == stack + Tokens(P, words)
    requires forall i | 0 <= i < |words| :: IsSpecifier(words[i]) && words[i] != "static"
    ensures Unwind(c) == Unwind(Popped(P, c, stack, Backwards(words)))
    decreases |words|
  {
    hide Unwind, TokenOf, IsSpecifier;
    if words == [] {
      assert Popped(P, c, stack, []) == c;
    } else {
      var w, more := words[0], words[1..];
      assert words == [w] + more;
      Pushed(P, stack, w, more);
      var d := Popped(P, c, stack + [TokenOf(P, w)], Backwards(more));
      UnwindsWords(c, stack + [TokenOf(P, w)], more);
      UnwindsWord(d, stack, w);
      Then(P, c, d.stack, Backwards(more), stack, [Word(w)]);
    }
  }

  lemma QualifiersAreSpecifiers(words: seq<string>)
    requires forall i | 0 <= i < |words| :: IsQualifier(words[i])
    ensures forall i | 0 <= i < |words| :: IsSpecifier(words[i]) && words[i] != "static"
  {
    forall i | 0 <= i < |words| ensures IsSpecifier(words[i]) && words[i] != "static" {
      assert IsQualifier(words[i]);
    }
  }

  lemma {:induction false} UnwindsPointers(c: Config, stack: seq<Token>, pointers: seq<seq<string>>)
    requires c.stack == stack + Tokens(P, PointerWords(pointers))
    requires forall i, j | 0 <= i < |pointers| && 0 <= j < |pointers[i]| :: IsQualifier(pointers[i][j])
    ensures Unwind(c) == Unwind(Popped(P, c, stack, PointerPhrases(pointers)))
    decreases |pointers|
  {
    hide Unwind, TokenOf, IsQualifier, IsSpecifier;
    if pointers == [] {
      assert Popped(P, c, stack, []) == c;
    } else {
      var q, more := pointers[0], pointers[1..];
      var star := stack + [TokenOf(P, "*")];
      PointerStack(P, stack, q, more);
      assert PointerWords(pointers) == ["*"] + q + PointerWords(more);
      var d := Popped(P, c, star + Tokens(P, q), PointerPhrases(more));
      UnwindsPointers(c, star + Tokens(P, q), more);
      QualifiersAreSpecifiers(q);
      UnwindsWords(d, star, q);
      UnwindsStar(Popped(P, d, star, Backwards(q)), stack);
      Then(P, d, star, Backwards(q), stack, [PointerTo]);
      Then(P, c, d.stack, PointerPhrases(more), stack, Backwards(q) + [PointerTo]);
      assert PointerPhrases(more) + (Backwards(q) + [PointerTo]) == PointerPhrases(pointers);
    }
  }

  lemma SomeParams(c: Config, words: seq<string>, after: seq<string>) returns (r: Config)
    requires Facing(P, c, ["("] + words + [")"] + after) && after != []
    requires forall i | 0 <= i < |words| :: IsWord(words[i]) && words[i] != ")"
    ensures Suffixes(c) == Ok(r)
    ensures r.stack == c.stack && r.out == c.out + Said(P, [FunctionReturning]) && Facing(P, r, after)
  {
    hide TokenOf, Comes, SkipParams, Suffixes, IsWord;
    assert ["("] + words + [")"] + after == ["("] + (words + [")"] + after) == (["("] + words) + ([")"] + after);
    OpeningParen(P, c, words + [")"] + after);
    ParenWord(words);
    var d := SkipsParams(P, c, ["("] + words, after);
    r := Print(d, "function returning ");
    SaysFunction();
    ParamsAre(c, d);
  }

  lemma SaysFunction()
    ensures Said(P, [FunctionReturning]) == ["function returning "]
  {
    assert "function returning " + "" == "function returning ";
  }

  lemma ParamsAre(c: Config, d: Config)
    requires c.cur.kind == Symbol('(') && SkipParams(P, c) == Ok(d)
    ensures Suffixes(c) == Ok(Print(d, "function returning "))
  {
    hide SkipParams;
  }

  lemma NoSuffix(c: Config, after: seq<string>)
    requires Facing(P, c, after) && Ender(after[0])
    ensures Suffixes(c) == Ok(c)
  {
    KindOfSymbol(P, after[0], '(');
    KindOfSymbol(P, after[0], '[');
  }

  lemma SomeArrays(c: Config, sizes: seq<Option<nat>>, after: seq<string>)
    requires Facing(P, c, ArrayWords(sizes) + after) && sizes != []
    ensures Suffixes(c) == Ok(ReadArrays(P, c))
  {
    hide TokenOf, Comes, SizeWords;
    assert ArrayWords(sizes) + after == SizeWords(sizes[0]) + (ArrayWords(sizes[1..]) + after);
    OpeningBracket(P, c, sizes[0], ArrayWords(sizes[1..]) + after);
  }

  lemma ReadsSuffix(c: Config, suffix: Suffix, after: seq<string>) returns (r: Config)
    requires Facing(P, c, SuffixWords(suffix) + after) && after != [] && Ender(after[0])
    requires suffix.Params? ==> forall i | 0 <= i < |suffix.words| :: IsWord(suffix.words[i]) && suffix.words[i] != ")"
    ensures Suffixes(c) == Ok(r)
    ensures r.stack == c.stack && r.out == c.out + Said(P, SuffixPhrases(suffix)) && Facing(P, r, after)
  {
    hide Facing, Ender, IsWord, Suffixes, ReadArrays, ArrayWords, AllArrayPhrases;
    if suffix.Nothing? || (suffix.Arrays? && suffix.sizes == []) {
      EmptyArrays();
      assert SuffixWords(suffix) + after == after;
      NoSuffix(c, after);
      r := c;
    } else if suffix.Arrays? {
      ReadsArrays(P, c, suffix.sizes, after);
      SomeArrays(c, suffix.sizes, after);
      r := ReadArrays(P, c);
    } else {
      r := SomeParams(c, suffix.words, after);
    }
  }

  lemma ClosesParen(c: Config, stack: seq<Token>, after: seq<string>)
    requires c.stack == stack + [TokenOf(P, "(")] && Facing(P, c, [")"] + after) && after != []
    ensures var d := Advance(P, c.(stack := stack));
      Unwind(c) == Deal(d) && d.stack == stack && d.out == c.out && Facing(P, d, after)
  {
    KindOfSymbol(P, "(", '(');
    hide TokenOf, NextToken, Deal;
    assert Pop(c) == c.(stack := stack);
    assert Facing(P, Pop(c), [")"] + after);
    Onward(P, Pop(c), ")", after);
  }

  lemma FinishesLevel(c: Config, stack: seq<Token>, d: Declarator, after: seq<string>) returns (r: Config)
    requires WellFormed(d) && after != [] && Ender(after[0])
    requires c.stack == stack + Tokens(P, PointerWords(d.pointers)) && Facing(P, c, SuffixWords(d.suffix) + after)
    ensures Deal(c) == (if Grounded(c.stack) then Unwind(r) else Fail(BelowBottom)) && r.stack == stack
    ensures Facing(P, r, after)
    ensures r.out == c.out + Said(P, SuffixPhrases(d.suffix) + PointerPhrases(d.pointers))
  {
    hide Ender, IsWord, IsQualifier, Deal, Unwind, Suffixes, Comes, TokenOf, Grounded;
    var e := ReadsSuffix(c, d.suffix, after);
    DealsBy(c, e);
    UnwindsPointers(e, stack, d.pointers);
    r := Popped(P, e, stack, PointerPhrases(d.pointers));
    Then(P, c, c.stack, SuffixPhrases(d.suffix), stack, PointerPhrases(d.pointers));
  }

  /** A whole declarator, from the first token after its name; nothing but stars may not be all that is left. */
  lemma {:induction false} FinishesDeclarator(c: Config, stack: seq<Token>, d: Declarator, after: seq<string>)
      returns (r: Config)
    requires WellFormed(d) && after != [] && Ender(after[0])
    requires c.stack == stack + Tokens(P, Before(d)) && Facing(P, c, After(d) + after)
    ensures Deal(c) ==
      if Grounded(stack + Tokens(P, PointerWords(d.pointers))) then Unwind(r) else Fail(BelowBottom)
    ensures r.stack == stack && Facing(P, r, after)
    ensures r.out == c.out + Said(P, Phrases(d))
    decreases d
  {
    hide Ender, WellFormed, Facing, TokenOf, SuffixWords, SuffixPhrases, PointerWords, PointerPhrases, Before,
      After, Phrases,
      Deal, Unwind, Grounded;
    var last := SuffixWords(d.suffix) + after;
    if d.core.Name? {
      NameLevel(d, after);
      r := FinishesLevel(c, stack, d, after);
    } else {
      var inner := d.core.inner;
      var outside := stack + Tokens(P, PointerWords(d.pointers));
      BeforeParen(P, stack, d);
      ParenLevel(d, after);
      InnerFormed(d);
      ParenEnds();
      GroundedParen(outside, Tokens(P, PointerWords(inner.pointers)));
      var e := FinishesDeclarator(c, outside + [TokenOf(P, "(")], inner, [")"] + last);
      ClosesParen(e, outside, last);
      var f := Advance(P, e.(stack := outside));
      r := FinishesLevel(f, stack, d, after);
      SaidMore(P, Phrases(inner), SuffixPhrases(d.suffix) + PointerPhrases(d.pointers));
      Join(c.out, Said(P, Phrases(inner)), Said(P, SuffixPhrases(d.suffix) + PointerPhrases(d.pointers)));
    }
  }

  lemma FinishesSpecifiers(c: Config, words: seq<string>)
    requires c.stack == Tokens(P, words)
    requires forall i | 0 <= i < |words| :: IsSpecifier(words[i]) && words[i] != "static"
    ensures Unwind(c) == Ok(Popped(P, c, [], Backwards(words)))
  {
    hide TokenOf, IsSpecifier, Deal;
    assert [] + Tokens(P, words) == Tokens(P, words);
    UnwindsWords(c, [], words);
  }

  lemma GroundedParen(stack: seq<Token>, more: seq<Token>)
    ensures Grounded(stack + [TokenOf(P, "(")] + more)
  {
    KindOfSymbol(P, "(", '*');
    var all := stack + [TokenOf(P, "(")] + more;
    assert all[|stack|] == TokenOf(P, "(");
  }

  lemma GroundedSpecifiers(words: seq<string>, more: seq<Token>)
    requires words != [] && IsSpecifier(words[0]) && words[0] != "static"
    ensures Grounded(Tokens(P, words) + more)
  {
    hide TokenOf, IsTypeName;
    if IsTypeName(words[0]) {
      KindOfType(P, words[0]);
    } else {
      KindOfQualifier(P, words[0]);
    }
    assert (Tokens(P, words) + more)[0] == TokenOf(P, words[0]);
  }

  /** Some `*` has a qualifier. */
  predicate Qualified(pointers: seq<seq<string>>) {
    exists i | 0 <= i < |pointers| :: pointers[i] != []
  }

  lemma {:induction false} StarWords(pointers: seq<seq<string>>)
    requires !Qualified(pointers)
    ensures forall i | 0 <= i < |PointerWords(pointers)| :: PointerWords(pointers)[i] == "*"
    decreases |pointers|
  {
    if pointers != [] {
      StarWords(pointers[1..]);
      assert pointers[0] == [];
    }
  }

  lemma {:induction false} QualifierWord(pointers: seq<seq<string>>) returns (k: nat)
    requires Qualified(pointers)
    requires forall i, j | 0 <= i < |pointers| && 0 <= j < |pointers[i]| :: IsQualifier(pointers[i][j])
    ensures k < |PointerWords(pointers)| && IsQualifier(PointerWords(pointers)[k])
    decreases |pointers|
  {
    hide IsQualifier;
    if pointers[0] != [] {
      k := 1;
      assert PointerWords(pointers)[1] == pointers[0][0];
    } else {
      var more := pointers[1..];
      var i :| 0 <= i < |pointers| && pointers[i] != [];
      assert more[i - 1] != [];
      k := QualifierWord(more);
      assert PointerWords(pointers) == ["*"] + PointerWords(more);
      k := k + 1;
    }
  }

  lemma StarToken()
    ensures TokenOf(P, "*").kind == Symbol('*')
  {
    KindOfSymbol(P, "*", '*');
  }

  /** Without specifiers something other than a star is left exactly when a qualifier is. */
  lemma GroundedPointers(pointers: seq<seq<string>>)
    requires forall i, j | 0 <= i < |pointers| && 0 <= j < |pointers[i]| :: IsQualifier(pointers[i][j])
    ensures Grounded([] + Tokens(P, PointerWords(pointers))) <==> Qualified(pointers)
  {
    hide TokenOf, IsQualifier, PointerWords, Qualified;
    var stack := [] + Tokens(P, PointerWords(pointers));
    if Qualified(pointers) {
      var k := QualifierWord(pointers);
      KindOfQualifier(P, PointerWords(pointers)[k]);
      assert stack[k].kind != Symbol('*');
    } else {
      StarWords(pointers);
      StarToken();
    }
  }

  /** Whether the program finds more than stars on its stack. */
  lemma GroundedDeclaration(d: Declaration)
    requires WellFormedDeclaration(d) && forall i | 0 <= i < |d.specifiers| :: d.specifiers[i] != "static"
    ensures Grounded(Tokens(P, d.specifiers) + Tokens(P, PointerWords(d.declarator.pointers))) <==>
      d.specifiers != [] || Qualified(d.declarator.pointers)
  {
    hide TokenOf, IsSpecifier, IsQualifier, IsName, Grounded, PointerWords, Qualified;
    if d.specifiers != [] {
      GroundedSpecifiers(d.specifiers, Tokens(P, PointerWords(d.declarator.pointers)));
    } else {
      assert Tokens(P, d.specifiers) == [];
      GroundedPointers(d.declarator.pointers);
    }
  }

  /**
    The recursive program, too, says the declared type of every well-formed declaration without
    `static` that fits its stack, unless there is no specifier and no qualifier after a star of
    the outermost level: then it looks below its stack.
   */
  lemma SaysTheType(d: Declaration, end: string, input: string)
    requires WellFormedDeclaration(d) && Ender(end) && Comes(P, input, Words(d) + [end])
    requires forall i | 0 <= i < |d.specifiers| :: d.specifiers[i] != "static"
    ensures Run(input) ==
      if |d.specifiers| + |Before(d.declarator)| > 100 then Fail(StackOverflow)
      else if d.specifiers == [] && !Qualified(d.declarator.pointers) then Fail(BelowBottom)
      else Ok(Said(P, Sentence(d)))
  {
    hide Comes, WellFormed, Before, After, ReadName, Backwards, IsSpecifier, Phrases, TypeOf, TokenOf, Ender, Deal,
      Unwind, Grounded, Qualified;
    var c := Cdecl.Start(input);
    var r := ReadsName(P, c, d, end);
    if |d.specifiers| + |Before(d.declarator)| <= MAXTOKENS {
      GroundedDeclaration(d);
      var e := FinishesDeclarator(r, Tokens(P, d.specifiers), d.declarator, [end]);
      FinishesSpecifiers(e, d.specifiers);
      EnglishOutward(d.declarator, Base(d.specifiers));
      Spoken(P, NameOf(d.declarator), Phrases(d.declarator), Backwards(d.specifiers));
      SaysEnd(e.out, Backwards(d.specifiers));
    }
  }

  lemma SaysEnd(out: seq<string>, a: seq<Phrase>)
    ensures out + Said(P, a) + ["\n"] == out + Said(P, a + [EndLine])
  {
    SaidMore(P, a, [EndLine]);
    assert Said(P, [EndLine]) == ["\n"];
  }
}
