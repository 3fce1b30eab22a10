/** One declaration with everything in it, character by character as each translator prints it. */
module CdeclExamples {
  import opened Common
  import opened Numerals
  import opened CdeclTokens
  import opened CdeclMeaning
  import opened CdeclOutput
  import Cdecl
  import CdeclRecursive

  /** The declarator in `static const char *(*volatile a[10][])(int);`. */
  function Handlers(): Declarator {
    Declarator([[]], Paren(Declarator([["volatile"]], Name("a"), Arrays([Some(10), None]))), Params(["int"]))
  }

  const INNER := ["*", "volatile"]
  const NAMED := ["a", "[", "10", "]", "[", "]", ")", "(", "int", ")", ";"]

  lemma Ten()
    ensures Decimal(10) == "10" && Decimal(9) == "9"
  {
    assert Decimal(1) == "1" && Digit(0) == '0';
  }

  lemma HandlersSpelled()
    ensures Before(Handlers()) == ["*", "("] + INNER
    ensures [NameOf(Handlers())] + After(Handlers()) + [";"] == NAMED
  {
    Ten();
    hide Decimal;
    var inner := Handlers().core.inner;
    assert PointerWords([["volatile"]]) == ["*", "volatile"] + PointerWords([]);
    assert Before(inner) == INNER;
    assert PointerWords([[]]) == ["*"] + [] + PointerWords([]);
    assert ArrayWords([None]) == ["[", "]"] + ArrayWords([]);
    assert ArrayWords([Some(10), None]) == ["[", "10", "]"] + ArrayWords([Some(10), None][1..]);
    assert After(inner) == ["[", "10", "]", "[", "]"];
  }

  lemma HandlersFormed()
    ensures WellFormed(Handlers()) && Ender(";") && NameOf(Handlers()) == "a"
  {
    assert IsAlnum('a') && IsAlnumWord("a") && Classify(StateMachine, "a") == Token(Identifier, "a");
    assert IsAlnumWord("int");
    assert WellFormed(Handlers().core.inner);
    hide Classify, IsAlnumWord;
  }

  lemma ArraysSay()
    ensures AllArrayPhrases([Some(10), None]) == [ArrayWord, Bounds(9), Of, ArrayWord, Of]
  {
    var sizes: seq<Option<nat>>, open: seq<Option<nat>> := [Some(10), None], [None];
    assert sizes[1..] == open && sizes[0] == Some(10) && open[1..] == [];
    assert AllArrayPhrases([]) == [];
    assert AllArrayPhrases(open) == [ArrayWord, Of] + AllArrayPhrases(open[1..]);
    assert AllArrayPhrases(sizes) == [ArrayWord, Bounds(9), Of] + AllArrayPhrases(sizes[1..]);
  }

  lemma PointersSay()
    ensures PointerPhrases([["volatile"]]) == [Word("volatile"), PointerTo] && PointerPhrases([[]]) == [PointerTo]
  {
    assert Backwards([]) == [] && ["volatile"][1..] == [];
    assert Backwards(["volatile"]) == Backwards(["volatile"][1..]) + [Word("volatile")];
    var one: seq<seq<string>>, none: seq<seq<string>> := [["volatile"]], [[]];
    assert one[1..] == [] && none[1..] == [] && PointerPhrases([]) == [];
  }

  lemma HandlersSay()
    ensures Phrases(Handlers()) ==
      [ArrayWord, Bounds(9), Of, ArrayWord, Of, Word("volatile"), PointerTo, FunctionReturning, PointerTo]
  {
    ArraysSay();
    PointersSay();
    hide AllArrayPhrases, PointerPhrases;
    var inner := Handlers().core.inner;
    assert Phrases(inner) == [] + AllArrayPhrases([Some(10), None]) + PointerPhrases([["volatile"]]);
    assert Phrases(Handlers()) == Phrases(inner) + [FunctionReturning] + PointerPhrases([[]]);
  }

  lemma Spelled(specifiers: seq<string>)
    ensures Words(Declaration(specifiers, Handlers())) + [";"] == specifiers + (["*", "("] + INNER + NAMED)
  {
    hide Before, After;
    HandlersSpelled();
    var before, rest := Before(Handlers()), [NameOf(Handlers())] + After(Handlers()) + [";"];
    assert Words(Declaration(specifiers, Handlers())) + [";"] == specifiers + (before + rest);
  }

  lemma Sentences(specifiers: seq<string>)
    ensures Sentence(Declaration(specifiers, Handlers())) ==
      [Is("a"), ArrayWord, Bounds(9), Of, ArrayWord, Of, Word("volatile"), PointerTo, FunctionReturning, PointerTo] +
      Backwards(specifiers) + [EndLine]
  {
    hide Phrases, English, TypeOf, Backwards;
    HandlersFormed();
    EnglishOutward(Handlers(), Base(specifiers));
    HandlersSay();
    SpecifiersSay(specifiers);
  }

  lemma SpecifiersSay(specifiers: seq<string>)
    ensures English(Base(specifiers)) == Backwards(specifiers)
  {
  }

  lemma TwoBackwards()
    ensures Backwards(["const", "char"]) == [Word("char"), Word("const")]
    ensures Backwards(["static", "const", "char"]) == [Word("char"), Word("const"), Word("static")]
  {
    var three, two, one := ["static", "const", "char"], ["const", "char"], ["char"];
    assert three[1..] == two && two[1..] == one && one[1..] == [];
    assert Backwards(one) == Backwards([]) + [Word("char")];
    assert Backwards(two) == Backwards(one) + [Word("const")];
    assert Backwards(three) == Backwards(two) + [Word("static")];
  }

  lemma Strings(p: Program)
    ensures Say(p, Is("a")) == "a is " && Say(p, EndLine) == "\n" && IntText(9) == "9"
    ensures p.StateMachine? ==>
      && Say(p, ArrayWord) == "array " && Say(p, Bounds(9)) == "0..9 " && Say(p, Of) == "of "
      && Say(p, PointerTo) == "pointer to " && Say(p, FunctionReturning) == "function returning  "
      && Say(p, Word("volatile")) == "volatile " && Say(p, Word("char")) == "char "
      && Say(p, Word("const")) == " read-only " && Say(p, Word("static")) == " private  "
    ensures p.Recursive? ==>
      && Say(p, ArrayWord) == "array" && Say(p, Bounds(9)) == "0..9" && Say(p, Of) == "of"
      && Say(p, PointerTo) == "pointer to" && Say(p, FunctionReturning) == "function returning "
      && Say(p, Word("volatile")) == "volatile" && Say(p, Word("char")) == "char"
      && Say(p, Word("const")) == " read-only"
  {
    Ten();
  }

  lemma TypeNamed(specifiers: seq<string>)
    requires specifiers != [] && specifiers[|specifiers| - 1] == "char"
    ensures HasType(specifiers)
  {
    assert IsTypeName(specifiers[|specifiers| - 1]);
  }

  const MACHINE_PHRASES := [
    Is("a"), ArrayWord, Bounds(9), Of, ArrayWord, Of, Word("volatile"), PointerTo, FunctionReturning,
    PointerTo, Word("char"), Word("const"), Word("static"), EndLine]

  const RECURSIVE_PHRASES := [
    Is("a"), ArrayWord, Bounds(9), Of, ArrayWord, Of, Word("volatile"), PointerTo, FunctionReturning,
    PointerTo, Word("char"), Word("const"), EndLine]

  const MACHINE_TEXT := [
    "a is ", "array ", "0..9 ", "of ", "array ", "of ", "volatile ", "pointer to ", "function returning  ",
    "pointer to ", "char ", " read-only ", " private  ", "\n"]

  const RECURSIVE_TEXT := [
    "a is ", "array", "0..9", "of", "array", "of", "volatile", "pointer to", "function returning ",
    "pointer to", "char", " read-only", "\n"]

  lemma MachineText()
    ensures Said(StateMachine, MACHINE_PHRASES) == MACHINE_TEXT
  {
    hide Say;
    Strings(StateMachine);
    forall i | 0 <= i < 14 ensures Say(StateMachine, MACHINE_PHRASES[i]) == MACHINE_TEXT[i] {
    }
  }

  lemma RecursiveText()
    ensures Said(Recursive, RECURSIVE_PHRASES) == RECURSIVE_TEXT
  {
    hide Say;
    Strings(Recursive);
    forall i | 0 <= i < 13 ensures Say(Recursive, RECURSIVE_PHRASES[i]) == RECURSIVE_TEXT[i] {
    }
  }

  /** `static const char *(*volatile a[10][])(int);` by cdecl2.c. */
  lemma MachineSays(input: string)
    requires Comes(StateMachine, input, ["static", "const", "char"] + (["*", "("] + INNER + NAMED))
    ensures Output(StateMachine, input) == Ok(MACHINE_TEXT)
  {
    hide Comes, Sentence, Backwards, Say, HasType, WellFormed, Words, Before, Cdecl.Finish, Ender;
    var specifiers := ["static", "const", "char"];
    var d := Declaration(specifiers, Handlers());
    HandlersFormed();
    HandlersSpelled();
    Spelled(specifiers);
    TypeNamed(specifiers);
    Cdecl.SaysTheType(d, ";", input);
    Sentences(specifiers);
    TwoBackwards();
    MachineText();
    assert Sentence(d) == MACHINE_PHRASES;
    assert |Before(Handlers())| == 4;
  }

  /** `const char *(*volatile a[10][])(int);` by char3_analytype.c. */
  lemma RecursiveSays(input: string)
    requires Comes(Recursive, input, ["const", "char"] + (["*", "("] + INNER + NAMED))
    ensures Output(Recursive, input) == Ok(RECURSIVE_TEXT)
  {
    hide Comes, Sentence, Backwards, Say, HasType, WellFormed, Words, Before, CdeclRecursive.Run, Ender;
    var specifiers := ["const", "char"];
    var d := Declaration(specifiers, Handlers());
    HandlersFormed();
    HandlersSpelled();
    Spelled(specifiers);
    CdeclRecursive.SaysTheType(d, ";", input);
    Sentences(specifiers);
    TwoBackwards();
    RecursiveText();
    assert Sentence(d) == RECURSIVE_PHRASES;
    assert |Before(Handlers())| == 4;
  }
}
