/**
  Declarations with any identifiers of C (section 6.4.2 of ISO/IEC 9899:1999): names and
  specifiers may have underscores, and specifiers and qualifiers need not be keywords that
  the translators know.  gettoken takes letters and digits only (cdecl2.c:65), and any word
  that is not in the table for the declared name.  When the translators still say the type.
 */
module CdeclIdentifiers {
  import opened Common
  import opened Numerals
  import opened CdeclTokens
  import opened CdeclMeaning
  import opened CdeclReading
  import opened CdeclOutput
  import Cdecl
  import CdeclRecursive

  // ---- declarations with C's identifiers ---------------------------------------------------------------

  predicate IsIdentifier(w: string) {
    w != "" && !IsDigit(w[0]) && forall i | 0 <= i < |w| :: IsAlnum(w[i]) || w[i] == '_'
  }

  /** Keywords that no declaration can use as its name. */
  predicate Reserved(w: string) {
    IsTypeWord(w) || IsQualifier(w) || w == "static" || w == "restrict"
  }

  predicate DeclaratorInC(d: Declarator) {
    && (forall i, j | 0 <= i < |d.pointers| && 0 <= j < |d.pointers[i]| ::
          IsQualifier(d.pointers[i][j]) || d.pointers[i][j] == "restrict")
    && (d.suffix.Params? ==>
          forall i | 0 <= i < |d.suffix.words| :: IsWord(d.suffix.words[i]) && d.suffix.words[i] != ")")
    && match d.core
       case Name(id) => IsIdentifier(id) && !Reserved(id)
       case Paren(inner) => DeclaratorInC(inner)
  }

  predicate InC(d: Declaration) {
    (forall i | 0 <= i < |d.specifiers| :: IsIdentifier(d.specifiers[i])) && DeclaratorInC(d.declarator)
  }

  /** No letter or digit runs into the one before it. */
  predicate Parted(words: seq<string>, gaps: seq<nat>)
    requires |gaps| == |words|
  {
    forall i, j | 0 <= i < |words| && 0 <= j < |words| && j == i + 1 ::
      words[i] != "" && words[j] != "" && IsAlnum(words[i][|words[i]| - 1]) && IsAlnum(words[j][0]) ==> gaps[j] > 0
  }

  // ---- underscores ------------------------------------------------------------------------------------------

  lemma SameStart(a: string, b: string, end: string)
    requires a + end == b + end
    ensures a == b
  {
    assert (a + end)[..|a|] == a && (b + end)[..|b|] == b;
  }

  lemma SentenceFirst(p: Program, d: Declaration)
    ensures Said(p, Sentence(d))[0] == NameOf(d.declarator) + " is "
  {
    hide English, TypeOf;
    assert Sentence(d)[0] == Is(NameOf(d.declarator));
  }

  /** A sentence about a name with an underscore is never printed, whatever the input. */
  lemma NameWithUnderscore(p: Program, d: Declaration, input: string)
    requires '_' in NameOf(d.declarator)
    ensures Output(p, input) != Ok(Said(p, Sentence(d)))
  {
    hide Output, Sentence, GoodText, IsAlnum;
    var name := PrintsNoUnderscore(p, input);
    SentenceFirst(p, d);
    if Output(p, input) == Ok(Said(p, Sentence(d))) {
      SameStart(name, NameOf(d.declarator), " is ");
      NoAlnumUnderscore(name);
    }
  }

  lemma NoAlnumUnderscore(s: string)
    requires AllAlnum(s)
    ensures '_' !in s
  {
  }

  lemma {:induction false} BackwardsHas(words: seq<string>, k: nat)
    requires k < |words|
    ensures |Backwards(words)| == |words| && Backwards(words)[|words| - 1 - k] == Word(words[k])
  {
    if |words| == 1 {
      assert Backwards(words[1..]) == [];
    } else if k == 0 {
      BackwardsHas(words[1..], 0);
    } else {
      BackwardsHas(words[1..], k - 1);
    }
  }

  /** Where a sentence has a specifier. */
  lemma SentenceWord(d: Declaration, k: nat) returns (n: nat)
    requires k < |d.specifiers|
    ensures |Sentence(d)| == 2 + |Phrases(d.declarator)| + |d.specifiers|
    ensures n == |Phrases(d.declarator)| + |d.specifiers| - k && Sentence(d)[n] == Word(d.specifiers[k])
  {
    hide TypeOf, English, Phrases;
    EnglishOutward(d.declarator, Base(d.specifiers));
    BackwardsHas(d.specifiers, k);
    EnglishBase(d.specifiers);
    n := |Phrases(d.declarator)| + |d.specifiers| - k;
    var all := Phrases(d.declarator) + Backwards(d.specifiers);
    assert Sentence(d) == [Is(NameOf(d.declarator))] + all + [EndLine];
    assert all[n - 1] == Word(d.specifiers[k]);
  }

  lemma EnglishBase(specifiers: seq<string>)
    ensures English(Base(specifiers)) == Backwards(specifiers)
  {
  }

  /** Nor is a sentence with a specifier that has an underscore, unless that is all it has. */
  lemma SpecifierWithUnderscore(p: Program, d: Declaration, input: string, k: nat)
    requires k < |d.specifiers| && '_' in d.specifiers[k] && d.specifiers[k] != "_"
    ensures Output(p, input) != Ok(Said(p, Sentence(d)))
  {
    hide Output, Sentence, AllAlnum, Phrases, Gap;
    var name := PrintsNoUnderscore(p, input);
    var n := SentenceWord(d, k);
    if Output(p, input) == Ok(Said(p, Sentence(d))) {
      var w := d.specifiers[k];
      assert GoodText(p, Say(p, Word(w)));
      NotGood(p, w);
    }
  }

  lemma NotGood(p: Program, w: string)
    requires '_' in w && w != "_"
    ensures !GoodText(p, Say(p, Word(w)))
  {
    hide Gap;
    assert Rendered(w) == w;
    var k :| 0 <= k < |w| && w[k] == '_';
    assert (w + Gap(p))[k] == '_';
    if w + Gap(p) == "_" + Gap(p) {
      SameStart(w, "_", Gap(p));
    }
  }

  // ---- specifiers outside the table -----------------------------------------------------------------------

  /** The words the program takes for specifiers. */
  predicate Knows(p: Program, w: string) {
    IsSpecifier(w) && (p.Recursive? ==> w != "static")
  }

  lemma KnownOrName(p: Program, w: string)
    requires IsIdentifier(w) && ('_' in w ==> w == "_")
    ensures IsWord(w) && (Knows(p, w) || TokenOf(p, w) == Token(Identifier, w))
  {
    if w != "_" {
      assert forall i | 0 <= i < |w| :: IsAlnum(w[i]) by {
        forall i | 0 <= i < |w| ensures IsAlnum(w[i]) {
          assert w[i] in w;
        }
      }
    }
  }

  /** The name has been printed and something other than a `[` follows: the rest of the output is
      at most one more phrase, the stacked specifiers and the end of the line. */
  lemma ShortRest(p: Program, c: Config, pre: seq<string>)
    requires c.stack == Tokens(p, pre) && forall i | 0 <= i < |pre| :: Knows(p, pre[i])
    requires c.cur.kind != Symbol('[') && |c.out| == 1 && Rest(p, c).Ok?
    ensures var out := Rest(p, c).value;
      |out| <= |pre| + 3 && (|out| == |pre| + 3 ==> out[1] == Say(p, FunctionReturning))
  {
    hide TokenOf, IsSpecifier, SkipParams, Cdecl.Finish, CdeclRecursive.Deal, CdeclRecursive.Unwind;
    if p.StateMachine? {
      MachineRest(c, pre);
    } else {
      RecursiveRest(c, pre);
    }
  }

  lemma BackwardsLength(words: seq<string>)
    ensures |Backwards(words)| == |words|
  {
    if words != [] {
      BackwardsHas(words, 0);
    }
  }

  lemma MachineRest(c: Config, pre: seq<string>)
    requires c.stack == Tokens(StateMachine, pre) && forall i | 0 <= i < |pre| :: IsSpecifier(pre[i])
    requires c.cur.kind != Symbol('[') && |c.out| == 1 && Cdecl.Finish(Cdecl.ArrayPart, c).Ok?
    ensures var out := Cdecl.Finish(Cdecl.ArrayPart, c).value;
      |out| <= |pre| + 3 && (|out| == |pre| + 3 ==> out[1] == Say(StateMachine, FunctionReturning))
  {
    hide TokenOf, IsSpecifier, SkipParams, Cdecl.Finish, HasType, Backwards;
    Cdecl.Runs(Cdecl.ArrayPart, c);
    assert ReadArrays(StateMachine, c) == c;
    Cdecl.Runs(Cdecl.ParamPart, c);
    BackwardsLength(pre);
    if c.cur.kind == Symbol('(') {
      var d := SkipParams(StateMachine, c);
      if d.Ok? {
        Cdecl.FinishesSpecifiers(Print(d.value, "function returning  "), pre);
        assert "function returning " + " " == "function returning  ";
      } else {
        Cdecl.Stops(Cdecl.Crashed(d.fault), c);
      }
    } else {
      Cdecl.FinishesSpecifiers(c, pre);
    }
  }

  lemma RecursiveRest(c: Config, pre: seq<string>)
    requires c.stack == Tokens(Recursive, pre) && forall i | 0 <= i < |pre| :: IsSpecifier(pre[i]) && pre[i] != "static"
    requires c.cur.kind != Symbol('[') && |c.out| == 1 && CdeclRecursive.Deal(c).Ok?
    ensures var out := CdeclRecursive.Deal(c).value.out + ["\n"];
      |out| <= |pre| + 3 && (|out| == |pre| + 3 ==> out[1] == Say(Recursive, FunctionReturning))
  {
    hide TokenOf, IsSpecifier, SkipParams, CdeclRecursive.Deal, CdeclRecursive.Unwind, Backwards;
    BackwardsLength(pre);
    var d := CdeclRecursive.Suffixes(c);
    if d.Ok? {
      CdeclRecursive.DealsBy(c, d.value);
      CdeclRecursive.FinishesSpecifiers(d.value, pre);
      assert "function returning " + "" == "function returning ";
    } else {
      DealFails(c);
    }
  }

  lemma DealFails(c: Config)
    requires CdeclRecursive.Suffixes(c).Fail?
    ensures CdeclRecursive.Deal(c).Fail?
  {
  }

  // ---- the words of a declaration ---------------------------------------------------------------------------

  predicate AllWords(words: seq<string>) {
    forall i | 0 <= i < |words| :: IsWord(words[i])
  }

  lemma AllWordsMore(a: seq<string>, b: seq<string>)
    requires AllWords(a) && AllWords(b)
    ensures AllWords(a + b)
  {
    hide IsWord;
  }

  lemma Symbols()
    ensures IsWord("*") && IsWord("(") && IsWord(")") && IsWord("[") && IsWord("]")
  {
  }

  lemma SizeIsWord(n: nat)
    ensures IsWord(Decimal(n))
  {
    DecimalMeans(n);
    hide Decimal;
  }

  lemma {:induction false} ArraysAreWords(sizes: seq<Option<nat>>)
    ensures AllWords(ArrayWords(sizes))
  {
    hide IsWord, Decimal;
    Symbols();
    if sizes != [] {
      if sizes[0].Some? {
        SizeIsWord(sizes[0].value);
      }
      ArraysAreWords(sizes[1..]);
      AllWordsMore(SizeWords(sizes[0]), ArrayWords(sizes[1..]));
    }
  }

  lemma {:induction false} AfterIsWords(d: Declarator)
    requires DeclaratorInC(d)
    ensures AllWords(After(d))
    decreases d
  {
    hide IsWord, IsQualifier, IsIdentifier, Reserved, AllWords;
    SuffixIsWords(d);
    if d.core.Paren? {
      AfterIsWords(d.core.inner);
      OneWord(")");
      AllWordsMore(After(d.core.inner), [")"]);
      AllWordsMore(After(d.core.inner) + [")"], SuffixWords(d.suffix));
    } else {
      assert After(d) == SuffixWords(d.suffix);
    }
  }

  lemma OneWord(w: string)
    requires w == ")" || w == "(" || w == "*"
    ensures AllWords([w])
  {
  }

  lemma SuffixIsWords(d: Declarator)
    requires DeclaratorInC(d)
    ensures AllWords(SuffixWords(d.suffix))
  {
    hide IsWord, IsQualifier, IsIdentifier, Reserved, ArrayWords;
    Symbols();
    if d.suffix.Arrays? {
      ArraysAreWords(d.suffix.sizes);
    } else if d.suffix.Params? {
      AllWordsMore(["("], d.suffix.words);
      AllWordsMore(["("] + d.suffix.words, [")"]);
    }
  }

  /** What can stand before the name in its declarator. */
  predicate Marker(w: string) {
    w == "*" || w == "(" || IsQualifier(w) || w == "restrict"
  }

  predicate AllMarkers(words: seq<string>) {
    forall i | 0 <= i < |words| :: Marker(words[i])
  }

  lemma MarkersMore(a: seq<string>, b: seq<string>)
    requires AllMarkers(a) && AllMarkers(b)
    ensures AllMarkers(a + b)
  {
    hide Marker;
  }

  lemma {:induction false} PointersAreMarkers(pointers: seq<seq<string>>)
    requires forall i, j | 0 <= i < |pointers| && 0 <= j < |pointers[i]| ::
      IsQualifier(pointers[i][j]) || pointers[i][j] == "restrict"
    ensures AllMarkers(PointerWords(pointers))
    decreases |pointers|
  {
    hide IsQualifier;
    if pointers != [] {
      var q := pointers[0];
      assert AllMarkers(q) by {
        forall j | 0 <= j < |q| ensures Marker(q[j]) {
          assert IsQualifier(pointers[0][j]) || pointers[0][j] == "restrict";
        }
      }
      PointersAreMarkers(pointers[1..]);
      MarkersMore(["*"], q);
      MarkersMore(["*"] + q, PointerWords(pointers[1..]));
    }
  }

  lemma {:induction false} BeforeIsMarkers(d: Declarator)
    requires DeclaratorInC(d)
    ensures AllMarkers(Before(d))
    decreases d
  {
    hide IsWord, IsQualifier, IsIdentifier, Reserved, AllMarkers;
    PointersAreMarkers(d.pointers);
    if d.core.Paren? {
      BeforeIsMarkers(d.core.inner);
      OneMarker();
      MarkersMore(["("], Before(d.core.inner));
      MarkersMore(PointerWords(d.pointers), ["("] + Before(d.core.inner));
    } else {
      assert Before(d) == PointerWords(d.pointers);
    }
  }

  lemma OneMarker()
    ensures AllMarkers(["("])
  {
  }

  lemma {:induction false} NameInC(d: Declarator)
    requires DeclaratorInC(d)
    ensures IsIdentifier(NameOf(d)) && !Reserved(NameOf(d))
    decreases d
  {
    hide IsIdentifier, Reserved;
    if d.core.Paren? {
      NameInC(d.core.inner);
    }
  }

  lemma MarkerFacts(p: Program, w: string)
    requires Marker(w)
    ensures IsWord(w) && w != "[" && (w == "restrict" <==> TokenOf(p, w).kind == Identifier)
    ensures w == "restrict" ==> TokenOf(p, w) == Token(Identifier, w)
  {
  }

  lemma MarkerNotName(w: string, name: string)
    requires Marker(w) && IsIdentifier(name) && !Reserved(name)
    ensures w != name
  {
  }

  /** All words of a declaration whose underscores stand alone. */
  predicate Smooth(d: Declaration) {
    && '_' !in NameOf(d.declarator)
    && forall i | 0 <= i < |d.specifiers| :: '_' in d.specifiers[i] ==> d.specifiers[i] == "_"
  }

  lemma NameFacts(p: Program, name: string)
    requires IsIdentifier(name) && !Reserved(name) && '_' !in name
    ensures IsName(name) && IsWord(name) && name != "[" && TokenOf(p, name) == Token(Identifier, name)
  {
    KnownOrName(p, name);
    KnownOrName(StateMachine, name);
  }

  lemma BeforeIsWords(d: Declarator)
    requires DeclaratorInC(d)
    ensures AllWords(Before(d))
  {
    hide Marker, IsWord, Before;
    BeforeIsMarkers(d);
    forall i | 0 <= i < |Before(d)| ensures IsWord(Before(d)[i]) {
      MarkerFacts(StateMachine, Before(d)[i]);
    }
  }

  lemma DeclarationWords(d: Declaration, end: string)
    requires InC(d) && Smooth(d) && IsWord(end)
    ensures AllWords(Words(d) + [end])
  {
    hide IsWord, IsIdentifier, Before, After, Reserved, DeclaratorInC;
    forall i | 0 <= i < |d.specifiers| ensures IsWord(d.specifiers[i]) {
      KnownOrName(StateMachine, d.specifiers[i]);
    }
    NameInC(d.declarator);
    NameFacts(StateMachine, NameOf(d.declarator));
    BeforeIsWords(d.declarator);
    AfterIsWords(d.declarator);
    AllWordsMore(d.specifiers, Before(d.declarator));
    AllWordsMore(d.specifiers + Before(d.declarator), [NameOf(d.declarator)]);
    AllWordsMore(d.specifiers + Before(d.declarator) + [NameOf(d.declarator)], After(d.declarator));
    AllWordsMore(Words(d), [end]);
  }

  lemma PartedSeparated(words: seq<string>, gaps: seq<nat>)
    requires |gaps| == |words| && AllWords(words) && Parted(words, gaps)
    requires words != [] && !IsAlnumWord(words[|words| - 1])
    ensures Separated(words, gaps)
  {
  }

  lemma SmoothComes(p: Program, d: Declaration, end: string, gaps: seq<nat>, tail: string)
    requires InC(d) && Smooth(d) && Ender(end) && !IsAlnumWord(end)
    requires |gaps| == |Words(d) + [end]| && Parted(Words(d) + [end], gaps)
    ensures Comes(p, Layout(Words(d) + [end], gaps, tail), Words(d) + [end])
  {
    hide IsWord, InC, Smooth, Words, IsAlnumWord, Parted, Separated, AllWords, Comes, Layout;
    DeclarationWords(d, end);
    PartedSeparated(Words(d) + [end], gaps);
    LayoutComes(p, Words(d) + [end], gaps, tail);
  }

  // ---- another word is taken for the name ---------------------------------------------------------------------

  /** The first word before the declared name that is read as an identifier, if there is one. */
  lemma FirstName(p: Program, words: seq<string>) returns (k: nat)
    ensures k <= |words| && NoNames(p, words[..k])
    ensures k < |words| ==> TokenOf(p, words[k]).kind == Identifier
  {
    hide TokenOf;
    k := 0;
    while k < |words| && TokenOf(p, words[k]).kind != Identifier
      invariant k <= |words| && NoNames(p, words[..k])
    {
      k := k + 1;
    }
  }

  /** A word that can stand before the name is read as it is written. */
  lemma WordFacts(p: Program, d: Declaration, k: nat)
    requires InC(d) && Smooth(d) && k < |d.specifiers + Before(d.declarator)|
    ensures var w := (d.specifiers + Before(d.declarator))[k];
      && IsWord(w) && w != "[" && (TokenOf(p, w).kind == Identifier ==> TokenOf(p, w) == Token(Identifier, w))
      && (k < |d.specifiers| && TokenOf(p, w).kind != Identifier ==> Knows(p, w))
  {
    hide IsWord, IsIdentifier, Before, Reserved, DeclaratorInC, TokenOf, IsSpecifier;
    if k < |d.specifiers| {
      KnownOrName(p, d.specifiers[k]);
      NotBracket(d.specifiers[k]);
      if Knows(p, d.specifiers[k]) {
        KnownWord(p, d.specifiers[k]);
      }
    } else {
      BeforeIsMarkers(d.declarator);
      MarkerFacts(p, Before(d.declarator)[k - |d.specifiers|]);
    }
  }

  lemma NotBracket(w: string)
    requires IsIdentifier(w)
    ensures w != "["
  {
  }

  /** The program has printed w as the name, where w is the k-th word. */
  lemma NamesWord(p: Program, d: Declaration, end: string, input: string, k: nat) returns (c: Config)
    requires InC(d) && Smooth(d) && Comes(p, input, Words(d) + [end])
    requires k < |d.specifiers + Before(d.declarator)| && k <= MAXTOKENS
    requires NoNames(p, (d.specifiers + Before(d.declarator))[..k])
    requires TokenOf(p, (d.specifiers + Before(d.declarator))[k]).kind == Identifier
    ensures var before := d.specifiers + Before(d.declarator);
      && ReadName(p, Cdecl.Start(input)) == Ok(c) && c.out == [before[k] + " is "] && c.stack == Tokens(p, before[..k])
      && Facing(p, c, before[k + 1..] + [NameOf(d.declarator)] + After(d.declarator) + [end])
  {
    hide Comes, TokenOf, Before, After, NoNames, StackToName, NextToken, InC, Smooth, IsWord;
    var before := d.specifiers + Before(d.declarator);
    var w, after := before[k], before[k + 1..] + [NameOf(d.declarator)] + After(d.declarator) + [end];
    assert before == before[..k] + [w] + before[k + 1..];
    assert Words(d) + [end] == before[..k] + ([w] + after);
    Fetches(p, Cdecl.Start(input), before[..k] + ([w] + after));
    NoNamesAre(p, before[..k]);
    WordFacts(p, d, k);
    var e := StacksWords(p, Advance(p, Cdecl.Start(input)), before[..k], w, after);
    Onward(p, Print(e, w + " is "), w, after);
    c := Advance(p, Print(e, w + " is "));
    assert [] + Tokens(p, before[..k]) == Tokens(p, before[..k]);
  }

  lemma Overflows(p: Program, d: Declaration, end: string, input: string, k: nat)
    requires Comes(p, input, Words(d) + [end])
    requires k < |d.specifiers + Before(d.declarator)| && k > MAXTOKENS
    requires NoNames(p, (d.specifiers + Before(d.declarator))[..k])
    requires TokenOf(p, (d.specifiers + Before(d.declarator))[k]).kind == Identifier
    ensures Output(p, input).Fail?
  {
    hide Comes, TokenOf, Before, After, NoNames, StackToName, NextToken, Rest, Output;
    var before := d.specifiers + Before(d.declarator);
    var w, after := before[k], before[k + 1..] + [NameOf(d.declarator)] + After(d.declarator) + [end];
    assert before == before[..k] + [w] + before[k + 1..];
    assert Words(d) + [end] == before[..k] + ([w] + after);
    Fetches(p, Cdecl.Start(input), before[..k] + ([w] + after));
    NoNamesAre(p, before[..k]);
    var e := StacksWords(p, Advance(p, Cdecl.Start(input)), before[..k], w, after);
    OutputIs(p, input);
  }

  lemma NextNotBracket(p: Program, d: Declaration, end: string, c: Config, k: nat)
    requires InC(d) && Smooth(d) && k < |d.specifiers + Before(d.declarator)|
    requires var before := d.specifiers + Before(d.declarator);
      Facing(p, c, before[k + 1..] + [NameOf(d.declarator)] + After(d.declarator) + [end])
    ensures c.cur.kind != Symbol('[')
  {
    hide Comes, TokenOf, Before, After, Smooth, IsWord, IsIdentifier, Reserved;
    var before := d.specifiers + Before(d.declarator);
    if k + 1 < |before| {
      WordFacts(p, d, k + 1);
      KindOfSymbol(p, before[k + 1], '[');
    } else {
      NameInC(d.declarator);
      SmoothName(d);
      NameFacts(p, NameOf(d.declarator));
    }
  }

  lemma SmoothName(d: Declaration)
    requires Smooth(d)
    ensures '_' !in NameOf(d.declarator)
  {
  }

  lemma NoFunctionWord(p: Program, w: string)
    requires IsWord(w) && !Reserved(w)
    ensures Say(p, Word(w)) != Say(p, FunctionReturning)
  {
    hide Gap;
    NoBlankInside(w);
    assert "function returning "[8] == ' ' && |"function returning "| > 8;
    if w + Gap(p) == "function returning " + Gap(p) {
      SameStart(w, "function returning ", Gap(p));
    }
  }

  lemma NoBlankInside(w: string)
    requires IsWord(w)
    ensures |w| <= 8 || w[8] != ' '
  {
  }

  /** A specifier that is the declared name, too: then the output is too short, or says a function. */
  lemma NamesItself(p: Program, d: Declaration, end: string, input: string, k: nat)
    requires InC(d) && Smooth(d) && Comes(p, input, Words(d) + [end]) && k < |d.specifiers| && k <= MAXTOKENS
    requires NoNames(p, (d.specifiers + Before(d.declarator))[..k])
    requires TokenOf(p, d.specifiers[k]).kind == Identifier && d.specifiers[k] == NameOf(d.declarator)
    ensures Output(p, input) != Ok(Said(p, Sentence(d)))
  {
    hide Comes, TokenOf, Before, After, NoNames, InC, Smooth, IsWord, ReadName, Rest, Output, Sentence;
    hide Phrases, Reserved, IsSpecifier, Say, NextToken;
    var before := d.specifiers + Before(d.declarator);
    var c := NamesWord(p, d, end, input, k);
    NextNotBracket(p, d, end, c, k);
    OutputIs(p, input);
    assert before[..k] == d.specifiers[..k];
    NoNamesAre(p, before[..k]);
    forall i | 0 <= i < k ensures Knows(p, d.specifiers[..k][i]) {
      WordFacts(p, d, i);
      assert before[..k][i] == d.specifiers[i];
    }
    if Rest(p, c).Ok? {
      ShortRest(p, c, d.specifiers[..k]);
      var n := SentenceWord(d, k);
      WordFacts(p, d, k);
      NameReserved(d);
      NoFunctionWord(p, d.specifiers[k]);
    }
  }

  lemma NameReserved(d: Declaration)
    requires InC(d)
    ensures !Reserved(NameOf(d.declarator)) && IsIdentifier(NameOf(d.declarator)) && DeclaratorInC(d.declarator)
  {
    hide Reserved, IsIdentifier, DeclaratorInC;
    NameInC(d.declarator);
  }

  lemma NamesAnother(p: Program, d: Declaration, end: string, input: string, k: nat)
    requires InC(d) && Smooth(d) && Comes(p, input, Words(d) + [end])
    requires k < |d.specifiers + Before(d.declarator)| && k <= MAXTOKENS
    requires NoNames(p, (d.specifiers + Before(d.declarator))[..k])
    requires TokenOf(p, (d.specifiers + Before(d.declarator))[k]).kind == Identifier
    requires (d.specifiers + Before(d.declarator))[k] != NameOf(d.declarator)
    ensures Output(p, input) != Ok(Said(p, Sentence(d)))
  {
    hide Comes, TokenOf, Before, After, NoNames, InC, Smooth, IsWord, ReadName, Rest, Output, Sentence;
    hide GoodStack, GoodText, NextToken, AllAlnum;
    var w := (d.specifiers + Before(d.declarator))[k];
    var c := NamesWord(p, d, end, input, k);
    GoodName(p, input);
    GoodRest(p, w + " is ", c);
    OutputIs(p, input);
    SentenceFirst(p, d);
    if Output(p, input) == Ok(Said(p, Sentence(d))) {
      SameStart(w, NameOf(d.declarator), " is ");
    }
  }

  /** Whenever another word is read as an identifier before the name, the type is not said. */
  lemma WordBeforeName(p: Program, d: Declaration, end: string, input: string, k: nat)
    requires InC(d) && Smooth(d) && Comes(p, input, Words(d) + [end])
    requires k < |d.specifiers + Before(d.declarator)|
    requires NoNames(p, (d.specifiers + Before(d.declarator))[..k])
    requires TokenOf(p, (d.specifiers + Before(d.declarator))[k]).kind == Identifier
    ensures Output(p, input) != Ok(Said(p, Sentence(d)))
  {
    hide Comes, TokenOf, Before, NoNames, InC, Smooth, Output, Sentence, Reserved, IsIdentifier, DeclaratorInC, Words;
    var before := d.specifiers + Before(d.declarator);
    if k > MAXTOKENS {
      Overflows(p, d, end, input, k);
    } else if before[k] != NameOf(d.declarator) {
      NamesAnother(p, d, end, input, k);
    } else {
      NameReserved(d);
      if k >= |d.specifiers| {
        BeforeIsMarkers(d.declarator);
        MarkerNotName(before[k], NameOf(d.declarator));
      } else {
        NamesItself(p, d, end, input, k);
      }
    }
  }

  // ---- exactly when ----------------------------------------------------------------------------------------

  /** The name has no underscore, the program knows every specifier, and no star has `restrict`. */
  predicate Understood(p: Program, d: Declaration) {
    && '_' !in NameOf(d.declarator) && (forall i | 0 <= i < |d.specifiers| :: Knows(p, d.specifiers[i]))
    && "restrict" !in Before(d.declarator)
  }

  /** What is left on the stack at the end names a type; the recursive program takes a qualifier, too. */
  predicate Typed(p: Program, d: Declaration) {
    if p.StateMachine? then HasType(d.specifiers)
    else d.specifiers != [] || CdeclRecursive.Qualified(d.declarator.pointers)
  }

  predicate Fits(d: Declaration) {
    |d.specifiers| + |Before(d.declarator)| <= 100
  }

  lemma PointersFormed(d: Declarator)
    requires DeclaratorInC(d) && "restrict" !in Before(d)
    ensures forall i, j | 0 <= i < |d.pointers| && 0 <= j < |d.pointers[i]| :: IsQualifier(d.pointers[i][j])
  {
    hide IsQualifier, IsWord, IsIdentifier, Reserved;
    forall i, j | 0 <= i < |d.pointers| && 0 <= j < |d.pointers[i]| ensures IsQualifier(d.pointers[i][j]) {
      PointerWordIn(d.pointers, i, j);
    }
  }

  lemma {:induction false} PointerWordIn(pointers: seq<seq<string>>, i: nat, j: nat)
    requires i < |pointers| && j < |pointers[i]|
    ensures pointers[i][j] in PointerWords(pointers)
    decreases |pointers|
  {
    if i > 0 {
      PointerWordIn(pointers[1..], i - 1, j);
    }
  }

  lemma {:induction false} FormedInC(d: Declarator)
    requires DeclaratorInC(d) && "restrict" !in Before(d) && '_' !in NameOf(d)
    ensures WellFormed(d)
    decreases d
  {
    hide IsQualifier, IsWord, IsIdentifier, Reserved, IsName;
    PointersFormed(d);
    if d.core.Paren? {
      FormedInC(d.core.inner);
    } else {
      NameFacts(StateMachine, d.core.id);
    }
  }

  lemma UnderstoodFormed(p: Program, d: Declaration)
    requires InC(d) && Understood(p, d)
    ensures WellFormedDeclaration(d) && Smooth(d) && (p.Recursive? ==> "static" !in d.specifiers)
  {
    hide IsSpecifier, WellFormed, DeclaratorInC, IsIdentifier, Before;
    FormedInC(d.declarator);
    forall i | 0 <= i < |d.specifiers| ensures '_' in d.specifiers[i] ==> d.specifiers[i] == "_" {
      assert Knows(p, d.specifiers[i]);
      NoUnderscores(d.specifiers[i]);
    }
  }

  lemma NoUnderscores(w: string)
    requires IsSpecifier(w)
    ensures '_' in w ==> w == "_"
  {
  }

  lemma SaysUnderstood(p: Program, d: Declaration, end: string, input: string)
    requires InC(d) && Understood(p, d) && Ender(end) && Comes(p, input, Words(d) + [end])
    ensures Output(p, input) == Ok(Said(p, Sentence(d))) <==> Fits(d) && Typed(p, d)
  {
    hide InC, Understood, Ender, Comes, Words, WellFormed, IsSpecifier, Sentence, HasType, Before;
    hide CdeclRecursive.Qualified;
    UnderstoodFormed(p, d);
    if p.StateMachine? {
      Cdecl.SaysTheType(d, end, input);
    } else {
      CdeclRecursive.SaysTheType(d, end, input);
    }
  }

  /** Every word before the name of a smooth declaration is known, or one is read as an identifier. */
  lemma SmoothCases(p: Program, d: Declaration) returns (k: nat)
    requires InC(d) && Smooth(d)
    ensures k <= |d.specifiers + Before(d.declarator)| && NoNames(p, (d.specifiers + Before(d.declarator))[..k])
    ensures k < |d.specifiers + Before(d.declarator)| ==>
      TokenOf(p, (d.specifiers + Before(d.declarator))[k]).kind == Identifier
    ensures k == |d.specifiers + Before(d.declarator)| <==> Understood(p, d)
  {
    hide TokenOf, Before, InC, IsSpecifier, DeclaratorInC, Reserved, IsIdentifier, IsWord, NoNames;
    var before := d.specifiers + Before(d.declarator);
    k := FirstName(p, before);
    NoNamesAre(p, before[..k]);
    NameReserved(d);
    BeforeIsMarkers(d.declarator);
    if k == |before| {
      forall i | 0 <= i < |d.specifiers| ensures Knows(p, d.specifiers[i]) {
        WordFacts(p, d, i);
        assert before[..k][i] == d.specifiers[i];
      }
      forall j | 0 <= j < |Before(d.declarator)| ensures Before(d.declarator)[j] != "restrict" {
        MarkerFacts(p, Before(d.declarator)[j]);
        assert before[..k][|d.specifiers| + j] == Before(d.declarator)[j];
      }
    } else if k < |d.specifiers| {
      if Knows(p, before[k]) {
        KnownWord(p, before[k]);
      }
    } else {
      MarkerFacts(p, before[k]);
      assert before[k] == Before(d.declarator)[k - |d.specifiers|];
    }
  }

  lemma KnownWord(p: Program, w: string)
    requires Knows(p, w)
    ensures TokenOf(p, w).kind != Identifier
  {
  }

  /** A specifier has an underscore beside other characters, or the name has one. */
  lemma RoughSays(p: Program, d: Declaration, input: string)
    requires !Smooth(d)
    ensures Output(p, input) != Ok(Said(p, Sentence(d))) && !Understood(p, d)
  {
    hide Output, Sentence, IsSpecifier;
    if '_' in NameOf(d.declarator) {
      NameWithUnderscore(p, d, input);
    } else {
      var k :| 0 <= k < |d.specifiers| && '_' in d.specifiers[k] && d.specifiers[k] != "_";
      SpecifierWithUnderscore(p, d, input, k);
      if IsSpecifier(d.specifiers[k]) {
        NoUnderscores(d.specifiers[k]);
      }
    }
  }

  /**
    Of every declaration with C's identifiers, in any layout, each program says the declared type
    exactly when the name has no underscore, the program knows every specifier, no star has
    `restrict`, the words before the name fit the stack and one of them is left to name a type.
   */
  lemma SaysIff(p: Program, d: Declaration, end: string, gaps: seq<nat>, tail: string)
    requires InC(d) && Ender(end) && !IsAlnumWord(end)
    requires |gaps| == |Words(d) + [end]| && Parted(Words(d) + [end], gaps)
    ensures Output(p, Layout(Words(d) + [end], gaps, tail)) == Ok(Said(p, Sentence(d))) <==>
      Understood(p, d) && Fits(d) && Typed(p, d)
  {
    hide Output, InC, Ender, IsAlnumWord, Words, Parted, Sentence, Understood, Fits, Typed, Smooth, Comes;
    hide Layout, Before;
    var input := Layout(Words(d) + [end], gaps, tail);
    if Smooth(d) {
      SmoothComes(p, d, end, gaps, tail);
      var k := SmoothCases(p, d);
      if k < |d.specifiers + Before(d.declarator)| {
        WordBeforeName(p, d, end, input, k);
      } else {
        SaysUnderstood(p, d, end, input);
      }
    } else {
      RoughSays(p, d, input);
    }
  }

  lemma UnderscoreLayout()
    ensures Layout(["int", "a", "_"], [0, 1, 0], "b;") == "int a_b;"
  {
    assert Layout([], [], "b;") == "b;";
    assert Layout(["_"], [0], "b;") == Blanks(0) + "_" + "b;" == "_b;";
    assert Layout(["a", "_"], [1, 0], "b;") == Blanks(1) + "a" + "_b;" == " a_b;";
    assert ["int", "a", "_"][1..] == ["a", "_"] && [0, 1, 0][1..] == [1, 0];
    assert Blanks(0) + "int" == "int";
  }

  function PlainInt(): Declaration {
    Declaration(["int"], Declarator([], Name("a"), Nothing))
  }

  lemma PlainFormed()
    ensures WellFormedDeclaration(PlainInt()) && HasType(PlainInt().specifiers)
  {
    assert IsTypeName(PlainInt().specifiers[0]);
    assert IsAlnum('a');
    assert "a" != "static" && Classify(StateMachine, "a") == Token(Identifier, "a");
    hide Classify;
  }

  lemma PlainWords()
    ensures Words(PlainInt()) + ["_"] == ["int", "a", "_"] && Before(PlainInt().declarator) == [] && Ender("_")
  {
  }

  lemma PlainSeparated()
    ensures Separated(["int", "a", "_"], [0, 1, 0])
  {
    var words := ["int", "a", "_"];
    assert words[2][0] == '_' && !IsAlnum('_');
    assert IsAlnumWord(words[0]) && IsAlnumWord(words[1]) && IsWord(words[2]) && !IsAlnumWord(words[2]);
    hide IsAlnumWord, IsWord;
  }

  /** `int a_b;` is said as `int a` is. */
  lemma UnderscoreIsLost(p: Program)
    ensures Output(p, "int a_b;") == Ok(Said(p, Sentence(PlainInt())))
  {
    hide Layout, Separated, Comes, WellFormedDeclaration, Words, Ender, Sentence, HasType, Before;
    PlainFormed();
    PlainWords();
    PlainSeparated();
    UnderscoreLayout();
    LayoutComes(p, ["int", "a", "_"], [0, 1, 0], "b;");
    if p.StateMachine? {
      Cdecl.SaysTheType(PlainInt(), "_", "int a_b;");
    } else {
      CdeclRecursive.SaysTheType(PlainInt(), "_", "int a_b;");
    }
  }
}
