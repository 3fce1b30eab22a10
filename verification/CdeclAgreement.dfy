/** When the two translators of C declarations say the same. */
module CdeclAgreement {
  import opened CdeclTokens
  import opened CdeclMeaning
  import opened CdeclReading
  import Cdecl
  import CdeclRecursive

  /** The string without its blanks. */
  function Squeeze(s: string): string {
    if s == "" then "" else (if s[0] == ' ' then "" else [s[0]]) + Squeeze(s[1..])
  }

  /** The same phrases up to spacing. */
  predicate SamePhrases(a: seq<string>, b: seq<string>) {
    |a| == |b| && forall i | 0 <= i < |a| :: Squeeze(a[i]) == Squeeze(b[i])
  }

  predicate Agree(a: Result<seq<string>>, b: Result<seq<string>>) {
    if a.Ok? && b.Ok? then SamePhrases(a.value, b.value) else a == b
  }

  lemma {:induction false} SqueezeMore(a: string, b: string)
    ensures Squeeze(a + b) == Squeeze(a) + Squeeze(b)
  {
    if a == "" {
      assert a + b == b;
    } else {
      assert (a + b)[1..] == a[1..] + b;
      SqueezeMore(a[1..], b);
    }
  }

  lemma {:induction false} SqueezeWord(w: string)
    requires forall i | 0 <= i < |w| :: w[i] != ' '
    ensures Squeeze(w) == w
  {
    if w != "" {
      SqueezeWord(w[1..]);
    }
  }

  lemma SaysAlike(phrase: Phrase)
    ensures Squeeze(Say(StateMachine, phrase)) == Squeeze(Say(Recursive, phrase))
  {
    hide Squeeze, IntText, Rendered;
    var s := match phrase
      case Is(id) => ""
      case ArrayWord => "array"
      case Bounds(last) => "0.." + IntText(last)
      case Of => "of"
      case FunctionReturning => "function returning "
      case PointerTo => "pointer to"
      case Word(w) => Rendered(w)
      case EndLine => "";
    assert s + "" == s;
    SqueezeMore(s, " ");
    BlankVanishes(s);
  }

  lemma BlankVanishes(s: string)
    ensures Squeeze(s) + Squeeze(" ") == Squeeze(s)
  {
    assert Squeeze(" ") == "" + Squeeze(" "[1..]);
  }

  lemma SaidAlike(phrases: seq<Phrase>)
    ensures SamePhrases(Said(StateMachine, phrases), Said(Recursive, phrases))
  {
    hide Say, Squeeze;
    forall i | 0 <= i < |phrases|
      ensures Squeeze(Say(StateMachine, phrases[i])) == Squeeze(Say(Recursive, phrases[i]))
    {
      SaysAlike(phrases[i]);
    }
  }

  /** Given a declaration as text with any blanks, ended by some word that is neither `[` nor `(`. */
  ghost predicate Spells(d: Declaration, end: string, input: string) {
    Ender(end) && Comes(StateMachine, input, Words(d) + [end]) && Comes(Recursive, input, Words(d) + [end])
  }

  lemma LayoutSpells(d: Declaration, end: string, gaps: seq<nat>, tail: string)
    requires Ender(end) && |gaps| == |Words(d) + [end]| && Separated(Words(d) + [end], gaps)
    ensures Spells(d, end, Layout(Words(d) + [end], gaps, tail))
  {
    LayoutComes(StateMachine, Words(d) + [end], gaps, tail);
    LayoutComes(Recursive, Words(d) + [end], gaps, tail);
  }

  lemma AgreeWithoutStatic(d: Declaration, end: string, input: string)
    requires WellFormedDeclaration(d) && HasType(d.specifiers) && Spells(d, end, input)
    requires "static" !in d.specifiers
    ensures Agree(Cdecl.Finish(Cdecl.Initial, Cdecl.Start(input)), CdeclRecursive.Run(input))
  {
    hide Comes, WellFormed, Before, After, TokenOf, Ender, IsSpecifier, Cdecl.Finish, CdeclRecursive.Run;
    Cdecl.SaysTheType(d, end, input);
    CdeclRecursive.SaysTheType(d, end, input);
    SaidAlike(Sentence(d));
  }

  /** The recursive program takes `static` for the declared name. */
  lemma StaticIsNamed(d: Declaration, end: string, input: string, k: nat)
    requires WellFormedDeclaration(d) && Comes(Recursive, input, Words(d) + [end])
    requires k < |d.specifiers| && k <= MAXTOKENS && d.specifiers[k] == "static"
    requires "static" !in d.specifiers[..k]
    ensures var r := CdeclRecursive.Run(input); r.Ok? ==> r.value != [] && r.value[0] == "static is "
  {
    hide Comes, WellFormed, TokenOf, Before, After, NoNames, StackToName, NextToken, IsSpecifier, CdeclRecursive.Deal;
    var p, c := Recursive, Cdecl.Start(input);
    var before := d.specifiers[..k];
    var after := d.specifiers[k + 1..] + Before(d.declarator) + [NameOf(d.declarator)] + After(d.declarator) + [end];
    assert d.specifiers == before + ["static"] + d.specifiers[k + 1..];
    assert Words(d) + [end] == before + (["static"] + after);
    Fetches(p, c, before + (["static"] + after));
    StaticToken();
    forall i | 0 <= i < |before| ensures IsSpecifier(before[i]) && before[i] != "static" {
      assert before[i] == d.specifiers[i];
    }
    NoNameSpecifiers(p, before);
    NoNamesAre(p, before);
    var e := StacksWords(p, Advance(p, c), before, "static", after);
    var f := Advance(p, Print(e, "static" + " is "));
    assert e.cur.text == "static" && "static" + " is " == "static is ";
    assert ReadName(p, c) == Ok(f) && f.out == ["static is "];
  }

  lemma StaticToken()
    ensures TokenOf(Recursive, "static") == Token(Identifier, "static")
  {
  }

  lemma NamesDiffer(name: string)
    requires IsName(name)
    ensures Squeeze(name + " is ") != Squeeze("static" + " is ")
  {
    hide Squeeze, Classify;
    SqueezeMore(name, " is ");
    SqueezeMore("static", " is ");
    SqueezeWord(name);
    SqueezeWord("static");
    SameEnding(name, "static", Squeeze(" is "));
  }

  lemma SameEnding(a: string, b: string, end: string)
    ensures a + end == b + end ==> a == b
  {
    assert (a + end)[..|a|] == a && (b + end)[..|b|] == b;
  }

  lemma FirstStatic(words: seq<string>) returns (k: nat)
    requires "static" in words
    ensures k < |words| && words[k] == "static" && "static" !in words[..k]
  {
    k := 0;
    while words[k] != "static"
      invariant k < |words| && "static" !in words[..k] && "static" in words[k..]
      decreases |words| - k
    {
      k := k + 1;
    }
  }

  lemma DisagreeOnStatic(d: Declaration, end: string, input: string)
    requires WellFormedDeclaration(d) && HasType(d.specifiers) && Spells(d, end, input)
    requires |d.specifiers| + |Before(d.declarator)| <= MAXTOKENS && "static" in d.specifiers
    ensures !Agree(Cdecl.Finish(Cdecl.Initial, Cdecl.Start(input)), CdeclRecursive.Run(input))
  {
    hide Comes, WellFormed, Before, After, TokenOf, Ender, IsSpecifier, Cdecl.Finish, CdeclRecursive.Run, Squeeze,
      IsName, English;
    Cdecl.SaysTheType(d, end, input);
    var k := FirstStatic(d.specifiers);
    StaticIsNamed(d, end, input, k);
    NamedInside(d.declarator);
    NamesDiffer(NameOf(d.declarator));
    assert Sentence(d)[0] == Is(NameOf(d.declarator));
    assert "static" + " is " == "static is ";
  }

  /** The translators agree on a declaration that fits the stack exactly when it has no `static`. */
  lemma AgreeIff(d: Declaration, end: string, input: string)
    requires WellFormedDeclaration(d) && HasType(d.specifiers) && Spells(d, end, input)
    requires |d.specifiers| + |Before(d.declarator)| <= MAXTOKENS
    ensures Agree(Cdecl.Finish(Cdecl.Initial, Cdecl.Start(input)), CdeclRecursive.Run(input)) <==>
      "static" !in d.specifiers
  {
    hide *;
    if "static" in d.specifiers {
      DisagreeOnStatic(d, end, input);
    } else {
      AgreeWithoutStatic(d, end, input);
    }
  }
}
