/** How the loops that both translators share consume the words of a declaration. */
module CdeclReading {
  import opened Common
  import opened Numerals
  import opened CdeclTokens
  import opened CdeclMeaning

  lemma PushedFirst(p: Program, stack: seq<Token>, words: seq<string>)
    requires words != []
    ensures stack + [TokenOf(p, words[0])] + Tokens(p, words[1..]) == stack + Tokens(p, words)
  {
    hide TokenOf;
  }

  /** Initially the words before the name are stacked, if there is room for them. */
  lemma {:induction false} StacksWords(p: Program, c: Config, words: seq<string>, name: string, after: seq<string>)
      returns (r: Config)
    requires Facing(p, c, words + ([name] + after)) && after != [] && |c.stack| <= MAXTOKENS
    requires TokenOf(p, name).kind == Identifier
    requires forall i | 0 <= i < |words| :: TokenOf(p, words[i]).kind != Identifier
    ensures StackToName(p, c) == if |c.stack| + |words| > MAXTOKENS then Fail(StackOverflow) else Ok(r)
    ensures |c.stack| + |words| <= MAXTOKENS ==>
      r.stack == c.stack + Tokens(p, words) && r.out == c.out && Facing(p, r, [name] + after)
    decreases |words|
  {
    hide NextToken, TokenOf, Comes;
    if words == [] {
      assert words + ([name] + after) == [name] + after;
      r := c;
    } else {
      var more := words[1..] + ([name] + after);
      assert words + ([name] + after) == [words[0]] + more;
      if |c.stack| < MAXTOKENS {
        var pushed := c.(stack := c.stack + [c.cur]);
        assert Facing(p, pushed, [words[0]] + more);
        Onward(p, pushed, words[0], more);
        r := StacksWords(p, Advance(p, pushed), words[1..], name, after);
        PushedFirst(p, c.stack, words);
      } else {
        r := c;
      }
    }
  }

  lemma SaidArray(p: Program, out: seq<string>, n: nat)
    ensures out + ["array" + Gap(p)] + ["of" + Gap(p)] == out + Said(p, ArrayPhrases(None))
    ensures out + ["array" + Gap(p)] + ["0.." + IntText(n - 1) + Gap(p)] + ["of" + Gap(p)]
         == out + Said(p, ArrayPhrases(Some(n)))
  {
    hide IntText, Gap;
  }

  lemma ReadsArray(p: Program, c: Config, size: Option<nat>, after: seq<string>)
    requires Facing(p, c, SizeWords(size) + after) && after != []
    ensures var r := ReadArray(p, c); r.out == c.out + Said(p, ArrayPhrases(size)) && Facing(p, r, after)
  {
    hide NextToken, TokenOf, Comes, Atoi, IntText, ArrayPhrases;
    var c0 := Print(c, "array" + Gap(p));
    match size
    case None =>
      BracketToken(p);
      assert SizeWords(size) + after == ["["] + (["]"] + after);
      Onward(p, c0, "[", ["]"] + after);
      Onward(p, Advance(p, c0), "]", after);
      SaidArray(p, c.out, 0);
    case Some(n) =>
      assert SizeWords(size) + after == ["["] + ([Decimal(n)] + (["]"] + after));
      Onward(p, c0, "[", [Decimal(n)] + (["]"] + after));
      NumberToken(p, n);
      var c1 := Print(Advance(p, c0), "0.." + IntText(n - 1) + Gap(p));
      Onward(p, c1, Decimal(n), ["]"] + after);
      Onward(p, Advance(p, c1), "]", after);
      SaidArray(p, c.out, n);
  }

  lemma DigitsToken(p: Program, t: string)
    requires t != "" && AllDigits(t)
    ensures TokenOf(p, t) == Token(Identifier, t) && StartsWithDigit(t) && Atoi(t) == Value(t)
  {
    hide Value;
    DigitIdentifier(p, t);
    AllDigitRun(t);
    assert t[..|t|] == t;
  }

  /** An array of n elements is said with the bounds 0 and n - 1, whatever the digits of n. */
  lemma BoundsSaid(p: Program, c: Config, t: string, after: seq<string>) returns (last: string)
    requires Facing(p, c, ["[", t, "]"] + after) && after != [] && t != "" && AllDigits(t) && Value(t) >= 1
    ensures AllDigits(last) && Value(last) == Value(t) - 1 && last != "" && (last == "0" || last[0] != '0')
    ensures ReadArray(p, c).out ==
      if p.StateMachine? then c.out + ["array ", "0.." + last + " ", "of "] else c.out + ["array", "0.." + last, "of"]
  {
    hide NextToken, TokenOf, Comes, Atoi, IntText, Value;
    BracketToken(p);
    assert ["[", t, "]"] + after == ["["] + ([t] + (["]"] + after));
    var c0 := Print(c, "array" + Gap(p));
    Onward(p, c0, "[", [t] + (["]"] + after));
    DigitsToken(p, t);
    last := IntText(Value(t) - 1);
    IntTextMeans(Value(t) - 1);
    var c1 := Print(Advance(p, c0), "0.." + last + Gap(p));
    Onward(p, c1, t, ["]"] + after);
    assert "array" + "" == "array" && "of" + "" == "of" && "0.." + last + "" == "0.." + last;
    assert "array" + " " == "array " && "of" + " " == "of ";
  }

  lemma OpeningParen(p: Program, c: Config, after: seq<string>)
    requires Facing(p, c, ["("] + after)
    ensures c.cur.kind == Symbol('(')
  {
    KindOfSymbol(p, "(", '(');
  }

  lemma ParenWord(words: seq<string>)
    requires forall i | 0 <= i < |words| :: IsWord(words[i]) && words[i] != ")"
    ensures forall i | 0 <= i < |["("] + words| :: IsWord((["("] + words)[i]) && (["("] + words)[i] != ")"
  {
    var more := ["("] + words;
    forall i | 0 <= i < |more| ensures IsWord(more[i]) && more[i] != ")" {
      assert i > 0 ==> more[i] == words[i - 1];
    }
  }

  lemma OpeningBracket(p: Program, c: Config, size: Option<nat>, after: seq<string>)
    requires Facing(p, c, SizeWords(size) + after)
    ensures c.cur.kind == Symbol('[')
  {
    KindOfSymbol(p, "[", '[');
  }

  lemma ArraysFrom(sizes: seq<Option<nat>>, after: seq<string>)
    ensures sizes == [] ==> ArrayWords(sizes) + after == after && AllArrayPhrases(sizes) == []
    ensures sizes != [] ==>
      && ArrayWords(sizes) + after == SizeWords(sizes[0]) + (ArrayWords(sizes[1..]) + after)
      && AllArrayPhrases(sizes) == ArrayPhrases(sizes[0]) + AllArrayPhrases(sizes[1..])
  {
    hide SizeWords, ArrayPhrases;
  }

  lemma ReadArraysStep(p: Program, c: Config)
    ensures ReadArrays(p, c) == if c.cur.kind == Symbol('[') then ReadArrays(p, ReadArray(p, c)) else c
  {
    hide ReadArray;
  }

  lemma FacingWord(p: Program, c: Config, after: seq<string>)
    requires Facing(p, c, after)
    ensures c.cur == TokenOf(p, after[0])
  {
  }

  lemma EnderKinds(p: Program, w: string)
    requires Ender(w)
    ensures TokenOf(p, w).kind != Symbol('[') && TokenOf(p, w).kind != Symbol('(')
  {
    KindOfSymbol(p, w, '[');
    KindOfSymbol(p, w, '(');
  }

  lemma {:induction false} ReadsArrays(p: Program, c: Config, sizes: seq<Option<nat>>, after: seq<string>)
    requires Facing(p, c, ArrayWords(sizes) + after) && after != [] && Ender(after[0])
    ensures var r := ReadArrays(p, c); r.out == c.out + Said(p, AllArrayPhrases(sizes)) && Facing(p, r, after)
    decreases |sizes|
  {
    hide *;
    ReadArraysStep(p, c);
    ArraysFrom(sizes, after);
    if sizes == [] {
      FacingWord(p, c, after);
      EnderKinds(p, after[0]);
      assert c.out + Said(p, []) == c.out;
    } else {
      var more := ArrayWords(sizes[1..]) + after;
      OpeningBracket(p, c, sizes[0], more);
      ReadsArray(p, c, sizes[0], more);
      ReadsArrays(p, ReadArray(p, c), sizes[1..], after);
      SaidMore(p, ArrayPhrases(sizes[0]), AllArrayPhrases(sizes[1..]));
      Join(c.out, Said(p, ArrayPhrases(sizes[0])), Said(p, AllArrayPhrases(sizes[1..])));
    }
  }

  /** A parameter list is skipped to its `)` and no further. */
  lemma {:induction false} SkipsParams(p: Program, c: Config, words: seq<string>, after: seq<string>)
      returns (r: Config)
    requires Facing(p, c, words + ([")"] + after)) && after != []
    requires forall i | 0 <= i < |words| :: IsWord(words[i]) && words[i] != ")"
    ensures SkipParams(p, c) == Ok(r) && r.stack == c.stack && r.out == c.out && Facing(p, r, after)
    decreases |words|
  {
    hide NextToken, TokenOf, Comes;
    if words == [] {
      assert words + ([")"] + after) == [")"] + after;
      KindOfSymbol(p, ")", ')');
      Onward(p, c, ")", after);
      r := Advance(p, c);
    } else {
      var more := words[1..] + ([")"] + after);
      assert words + ([")"] + after) == [words[0]] + more;
      KindOfSymbol(p, words[0], ')');
      Onward(p, c, words[0], more);
      assert IsWord(more[0]);
      KindOfSymbol(p, more[0], ')');
      r := SkipsParams(p, Advance(p, c), words[1..], after);
    }
  }

  lemma Fetches(p: Program, c: Config, words: seq<string>)
    requires Comes(p, c.input, words) && words != []
    ensures Facing(p, Advance(p, c), words)
  {
  }

  /** Reading up to the name: exact about when the stack is too small. */
  lemma ReadsName(p: Program, c: Config, d: Declaration, end: string) returns (r: Config)
    requires WellFormedDeclaration(d) && c.stack == []
    requires p.Recursive? ==> forall i | 0 <= i < |d.specifiers| :: d.specifiers[i] != "static"
    requires Comes(p, c.input, Words(d) + [end])
    ensures ReadName(p, c) == if |d.specifiers| + |Before(d.declarator)| > MAXTOKENS then Fail(StackOverflow) else Ok(r)
    ensures |d.specifiers| + |Before(d.declarator)| <= MAXTOKENS ==>
      && r.stack == Tokens(p, d.specifiers) + Tokens(p, Before(d.declarator))
      && r.out == c.out + Said(p, [Is(NameOf(d.declarator))])
      && Facing(p, r, After(d.declarator) + [end])
  {
    hide Comes, WellFormed, TokenOf, Before, After, IsName, NoNames, StackToName, NextToken, IsSpecifier;
    var before, after, name := d.specifiers + Before(d.declarator), After(d.declarator) + [end], NameOf(d.declarator);
    assert Words(d) + [end] == before + ([name] + after);
    Fetches(p, c, before + ([name] + after));
    NamedInside(d.declarator);
    KindOfName(p, name);
    NoNameSpecifiers(p, d.specifiers);
    NoNameBefore(p, d.declarator);
    NoNamesMore(p, d.specifiers, Before(d.declarator));
    NoNamesAre(p, before);
    var e := StacksWords(p, Advance(p, c), before, name, after);
    if |before| <= MAXTOKENS {
      var f := Print(e, name + " is ");
      Onward(p, f, name, after);
      r := Advance(p, f);
      TokensMore(p, d.specifiers, Before(d.declarator));
      assert [] + Tokens(p, before) == Tokens(p, before);
      assert Said(p, [Is(name)]) == [name + " is "];
    } else {
      r := c;
    }
  }

  lemma NoNamesAre(p: Program, words: seq<string>)
    requires NoNames(p, words)
    ensures forall i | 0 <= i < |words| :: TokenOf(p, words[i]).kind != Identifier
  {
  }

  // ---- the levels of a declarator ----------------------------------------------------------

  lemma NameLevel(d: Declarator, after: seq<string>)
    requires d.core.Name?
    ensures After(d) + after == SuffixWords(d.suffix) + after && Before(d) == PointerWords(d.pointers)
    ensures Phrases(d) == SuffixPhrases(d.suffix) + PointerPhrases(d.pointers)
  {
    hide SuffixWords, PointerWords, SuffixPhrases, PointerPhrases;
  }

  lemma ParenLevel(d: Declarator, after: seq<string>)
    requires d.core.Paren?
    ensures After(d) + after == After(d.core.inner) + ([")"] + (SuffixWords(d.suffix) + after))
    ensures Phrases(d) == Phrases(d.core.inner) + (SuffixPhrases(d.suffix) + PointerPhrases(d.pointers))
  {
    AfterParen(d);
    PhrasesParen(d);
    hide After, Phrases, SuffixWords, SuffixPhrases, PointerPhrases;
    var inner, suffix := After(d.core.inner), SuffixWords(d.suffix);
    Join(inner, [")"], suffix);
    Join(inner, [")"] + suffix, after);
    Join([")"], suffix, after);
    Join(Phrases(d.core.inner), SuffixPhrases(d.suffix), PointerPhrases(d.pointers));
  }

  lemma AfterParen(d: Declarator)
    requires d.core.Paren?
    ensures After(d) == After(d.core.inner) + [")"] + SuffixWords(d.suffix)
  {
    hide SuffixWords;
  }

  lemma PhrasesParen(d: Declarator)
    requires d.core.Paren?
    ensures Phrases(d) == Phrases(d.core.inner) + SuffixPhrases(d.suffix) + PointerPhrases(d.pointers)
  {
    hide SuffixPhrases, PointerPhrases;
  }

  lemma InnerFormed(d: Declarator)
    requires WellFormed(d) && d.core.Paren?
    ensures WellFormed(d.core.inner)
  {
    hide IsWord, IsQualifier, IsName;
  }

  // ---- stacks and phrases ------------------------------------------------------------

  /** The state after popping down to `stack` and printing the phrases. */
  function Popped(p: Program, c: Config, stack: seq<Token>, phrases: seq<Phrase>): Config {
    c.(stack := stack, out := c.out + Said(p, phrases))
  }

  lemma Then(p: Program, c: Config, s1: seq<Token>, a: seq<Phrase>, s2: seq<Token>, b: seq<Phrase>)
    ensures Popped(p, Popped(p, c, s1, a), s2, b) == Popped(p, c, s2, a + b)
  {
    SaidMore(p, a, b);
    assert c.out + Said(p, a) + Said(p, b) == c.out + (Said(p, a) + Said(p, b));
  }

  lemma Pushed(p: Program, stack: seq<Token>, w: string, more: seq<string>)
    ensures stack + Tokens(p, [w] + more) == stack + [TokenOf(p, w)] + Tokens(p, more)
  {
    hide TokenOf;
  }

  lemma PointerStack(p: Program, stack: seq<Token>, q: seq<string>, more: seq<seq<string>>)
    ensures stack + Tokens(p, ["*"] + q + PointerWords(more))
         == stack + [TokenOf(p, "*")] + Tokens(p, q) + Tokens(p, PointerWords(more))
  {
    hide TokenOf;
    TokensMore(p, ["*"] + q, PointerWords(more));
    TokensMore(p, ["*"], q);
    assert Tokens(p, ["*"]) == [TokenOf(p, "*")];
  }

  lemma OneToken(p: Program, w: string)
    ensures Tokens(p, [w]) == [TokenOf(p, w)]
  {
    hide TokenOf;
  }

  lemma BeforeParen(p: Program, stack: seq<Token>, d: Declarator)
    requires d.core.Paren?
    ensures stack + Tokens(p, Before(d))
         == stack + Tokens(p, PointerWords(d.pointers)) + [TokenOf(p, "(")] + Tokens(p, Before(d.core.inner))
  {
    hide TokenOf, Tokens, PointerWords;
    var pointers, inner := PointerWords(d.pointers), Before(d.core.inner);
    TokensMore(p, pointers, ["("] + inner);
    TokensMore(p, ["("], inner);
    OneToken(p, "(");
    Join(stack, Tokens(p, pointers), [TokenOf(p, "(")] + Tokens(p, inner));
    Join(stack + Tokens(p, pointers), [TokenOf(p, "(")], Tokens(p, inner));
  }

  lemma LastToken(p: Program, words: seq<string>)
    requires words != []
    ensures var n := |words| - 1; words == words[..n] + [words[n]]
    ensures var n := |words| - 1; Tokens(p, words) == Tokens(p, words[..n]) + [TokenOf(p, words[n])]
  {
    hide TokenOf;
  }

  lemma TopIs(p: Program, c: Config, words: seq<string>)
    requires c.stack == Tokens(p, words) && words != []
    ensures c.stack != [] && TopOf(c) == TokenOf(p, words[|words| - 1])
  {
    hide TokenOf;
  }

  lemma Join<T>(a: seq<T>, b: seq<T>, c: seq<T>)
    ensures (a + b) + c == a + (b + c)
  {
  }

  lemma Spoken(p: Program, name: string, a: seq<Phrase>, b: seq<Phrase>)
    ensures [] + Said(p, [Is(name)]) + Said(p, a) + Said(p, b + [EndLine]) == Said(p, [Is(name)] + (a + b) + [EndLine])
  {
    hide *;
    SaidMore(p, [Is(name)], a);
    SaidMore(p, [Is(name)] + a, b + [EndLine]);
    Join([Is(name)], a, b);
    Join([Is(name)] + a, b, [EndLine]);
    Join([], Said(p, [Is(name)]), Said(p, a));
    assert [] + Said(p, [Is(name)]) == Said(p, [Is(name)]);
  }

  lemma EmptyArrays()
    ensures ArrayWords([]) == [] && AllArrayPhrases([]) == []
  {
  }

  lemma ParenEnds()
    ensures Ender(")")
  {
  }
}
