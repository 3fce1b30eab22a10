/** What either translator can print at all, whatever its input. */
module CdeclOutput {
  import opened Numerals
  import opened CdeclTokens
  import Cdecl
  import CdeclRecursive

  /** What either program prints for an input. */
  function Output(p: Program, input: string): Result<seq<string>> {
    if p.StateMachine? then Cdecl.Finish(Cdecl.Initial, Cdecl.Start(input)) else CdeclRecursive.Run(input)
  }

  predicate NoUnderscore(s: string) {
    '_' !in s
  }

  predicate AllAlnum(s: string) {
    forall i | 0 <= i < |s| :: IsAlnum(s[i])
  }

  /** The only token with an underscore is the underscore; names are letters and digits. */
  predicate GoodToken(t: Token) {
    (NoUnderscore(t.text) || t.text == "_") && (t.kind == Identifier ==> AllAlnum(t.text))
  }

  predicate GoodStack(stack: seq<Token>) {
    forall i | 0 <= i < |stack| :: GoodToken(stack[i])
  }

  predicate GoodText(p: Program, s: string) {
    NoUnderscore(s) || s == "_" + Gap(p)
  }

  /** The first string is kept, and those after it have no underscore but a lone one. */
  ghost predicate GoodOut(p: Program, first: string, out: seq<string>) {
    out != [] && out[0] == first && forall i | 1 <= i < |out| :: GoodText(p, out[i])
  }

  lemma GoodClassify(p: Program, w: string)
    requires AllAlnum(w)
    ensures GoodToken(Classify(p, w))
  {
  }

  lemma GoodSymbol(p: Program, c: char)
    ensures GoodToken(SymbolToken(p, c))
  {
    assert '_' in [c] ==> c == '_';
  }

  lemma GoodNext(p: Program, s: string)
    ensures GoodToken(NextToken(p, s).0)
  {
    hide Classify, SymbolToken, GoodToken;
    var t := SkipBlanks(s);
    if t == "" {
      assert GoodToken(EOF_TOKEN) by { GoodEnd(); }
    } else if IsAlnum(t[0]) {
      GoodClassify(p, t[..AlnumRun(t)]);
    } else {
      GoodSymbol(p, t[0]);
    }
  }

  lemma GoodEnd()
    ensures GoodToken(EOF_TOKEN)
  {
  }

  lemma {:induction false} GoodStacked(p: Program, c: Config)
    requires GoodStack(c.stack) && GoodToken(c.cur)
    ensures StackToName(p, c).Ok? ==>
      var d := StackToName(p, c).value;
      GoodStack(d.stack) && d.out == c.out && GoodToken(d.cur) && d.cur.kind == Identifier
    decreases MAXTOKENS - |c.stack|
  {
    hide GoodToken, NextToken;
    if c.cur.kind != Identifier && |c.stack| < MAXTOKENS {
      GoodNext(p, c.input);
      GoodStacked(p, Advance(p, c.(stack := c.stack + [c.cur])));
    }
  }

  lemma GoodName(p: Program, input: string)
    ensures ReadName(p, Cdecl.Start(input)).Ok? ==>
      var c := ReadName(p, Cdecl.Start(input)).value;
      GoodStack(c.stack) && exists name :: AllAlnum(name) && c.out == [name + " is "]
  {
    hide NextToken, StackToName;
    var c := Advance(p, Cdecl.Start(input));
    GoodNext(p, input);
    GoodStacked(p, c);
    var d := StackToName(p, c);
    if d.Ok? {
      assert AllAlnum(d.value.cur.text);
      assert ReadName(p, Cdecl.Start(input)).value.out == [d.value.cur.text + " is "];
    }
  }

  lemma GoodPrint(p: Program, first: string, out: seq<string>, s: string)
    requires GoodOut(p, first, out) && GoodText(p, s)
    ensures GoodOut(p, first, out + [s])
  {
    hide GoodText;
  }

  lemma NumberText(p: Program, n: int)
    ensures GoodText(p, "0.." + IntText(n) + Gap(p))
  {
    hide Decimal, Gap, GoodText, NoUnderscore;
    var m := if n < 0 then -n else n;
    DecimalMeans(m);
    DigitsText(Decimal(m));
    Plain(p);
    Joined("-", Decimal(m));
    Joined("0..", IntText(n));
    Joined("0.." + IntText(n), Gap(p));
    GoodIf(p, "0.." + IntText(n) + Gap(p));
  }

  lemma DigitsText(s: string)
    requires AllDigits(s)
    ensures NoUnderscore(s)
  {
  }

  lemma Plain(p: Program)
    ensures NoUnderscore("-") && NoUnderscore("0..") && NoUnderscore(Gap(p))
  {
  }

  lemma Joined(a: string, b: string)
    ensures NoUnderscore(a) && NoUnderscore(b) ==> NoUnderscore(a + b)
  {
  }

  lemma GoodIf(p: Program, s: string)
    ensures NoUnderscore(s) ==> GoodText(p, s)
  {
  }

  lemma WordTexts(p: Program)
    ensures GoodText(p, "array" + Gap(p)) && GoodText(p, "of" + Gap(p)) && GoodText(p, "\n")
    ensures GoodText(p, "function returning ") && GoodText(p, "function returning  ") && GoodText(p, "pointer to ")
  {
  }

  lemma TokenText(p: Program, t: Token)
    requires GoodToken(t)
    ensures GoodText(p, t.text + Gap(p))
  {
  }

  lemma GoodArray(p: Program, first: string, c: Config)
    requires GoodOut(p, first, c.out)
    ensures GoodOut(p, first, ReadArray(p, c).out)
  {
    hide GoodText, GoodOut, NextToken, IntText, Atoi, Gap;
    WordTexts(p);
    GoodPrint(p, first, c.out, "array" + Gap(p));
    var c1 := Advance(p, Print(c, "array" + Gap(p)));
    if StartsWithDigit(c1.cur.text) {
      var n := Atoi(c1.cur.text) - 1;
      NumberText(p, n);
      GoodPrint(p, first, c1.out, "0.." + IntText(n) + Gap(p));
      GoodPrint(p, first, c1.out + ["0.." + IntText(n) + Gap(p)], "of" + Gap(p));
    } else {
      GoodPrint(p, first, c1.out, "of" + Gap(p));
    }
  }

  lemma {:induction false} GoodArrays(p: Program, first: string, c: Config)
    requires GoodOut(p, first, c.out)
    ensures GoodOut(p, first, ReadArrays(p, c).out)
    decreases |c.input|, c.cur.kind == Symbol('[')
  {
    hide GoodOut, ReadArray;
    if c.cur.kind == Symbol('[') {
      GoodArray(p, first, c);
      GoodArrays(p, first, ReadArray(p, c));
    }
  }

  lemma PopGood(c: Config)
    requires GoodStack(c.stack) && c.stack != []
    ensures GoodStack(Pop(c).stack) && GoodToken(TopOf(c))
  {
  }

  // ---- the state machine ---------------------------------------------------------------------------------

  lemma {:induction false} GoodDrain(first: string, c: Config)
    requires GoodStack(c.stack) && GoodOut(StateMachine, first, c.out)
    ensures GoodOut(StateMachine, first, Cdecl.Drain(c).out)
    decreases |c.stack|
  {
    hide GoodStack, GoodOut, GoodToken, GoodText;
    if c.stack != [] {
      PopGood(c);
      TokenText(StateMachine, TopOf(c));
      GoodPrint(StateMachine, first, c.out, TopOf(c).text + " ");
      GoodDrain(first, Pop(Print(c, TopOf(c).text + " ")));
    }
  }

  lemma GoodStep(first: string, s: Cdecl.State, c: Config)
    requires !s.Done? && !s.Crashed? && !s.Initial? && GoodStack(c.stack) && GoodOut(StateMachine, first, c.out)
    ensures GoodStack(Cdecl.Step(s, c).1.stack) && GoodOut(StateMachine, first, Cdecl.Step(s, c).1.out)
  {
    hide GoodStack, GoodOut, GoodToken, GoodText, ReadArrays, SkipParams, Cdecl.Drain, NextToken;
    var p := StateMachine;
    WordTexts(p);
    match s
    case ArrayPart => GoodArrays(p, first, c);
    case ParamPart =>
      if SkipParams(p, c).Ok? {
        GoodPrint(p, first, c.out, "function returning  ");
      }
    case LparenPart =>
      if c.stack != [] {
        PopGood(c);
      }
    case PtrPart =>
      if c.stack != [] {
        PopGood(c);
        TokenText(p, TopOf(c));
        GoodPrint(p, first, c.out, "pointer to ");
        GoodPrint(p, first, c.out, TopOf(c).text + " ");
      }
    case TypePart =>
      GoodDrain(first, c);
      GoodPrint(p, first, Cdecl.Drain(c).out, "\n");
      assert GoodStack([]) by { NoTokens(); }
  }

  lemma NoTokens()
    ensures GoodStack([])
  {
  }

  lemma {:induction false} GoodFinish(first: string, s: Cdecl.State, c: Config)
    requires !s.Initial? && GoodStack(c.stack) && GoodOut(StateMachine, first, c.out)
    ensures Cdecl.Finish(s, c).Ok? ==> GoodOut(StateMachine, first, Cdecl.Finish(s, c).value)
    decreases |c.stack|, Cdecl.Rank(s)
  {
    hide GoodStack, GoodOut, Cdecl.Step, Cdecl.Finish;
    if s.Done? || s.Crashed? {
      Cdecl.Stops(s, c);
    } else {
      Cdecl.Runs(s, c);
      Cdecl.Shrinks(s, c);
      GoodStep(first, s, c);
      var (t, d) := Cdecl.Step(s, c);
      if t.Done? || t.Crashed? {
        Cdecl.Stops(t, d);
      } else {
        GoodFinish(first, t, d);
      }
    }
  }

  // ---- the recursive program -------------------------------------------------------------------------------

  lemma {:induction false} GoodStars(first: string, c: Config)
    requires GoodStack(c.stack) && GoodOut(Recursive, first, c.out)
    ensures CdeclRecursive.PopStars(c).Ok? ==>
      var d := CdeclRecursive.PopStars(c).value; GoodStack(d.stack) && GoodOut(Recursive, first, d.out)
    decreases |c.stack|
  {
    hide GoodStack, GoodOut, GoodToken, GoodText;
    if c.stack != [] && TopOf(c).kind == Symbol('*') {
      PopGood(c);
      TokenText(Recursive, TopOf(c));
      assert TopOf(c).text + "" == TopOf(c).text;
      GoodPrint(Recursive, first, c.out, TopOf(c).text);
      GoodStars(first, Pop(Print(c, TopOf(c).text)));
    }
  }

  lemma GoodSuffixes(first: string, c: Config)
    requires GoodOut(Recursive, first, c.out)
    ensures CdeclRecursive.Suffixes(c).Ok? ==> GoodOut(Recursive, first, CdeclRecursive.Suffixes(c).value.out)
  {
    hide GoodOut, GoodText, ReadArrays, SkipParams;
    WordTexts(Recursive);
    GoodArrays(Recursive, first, c);
    GoodPrint(Recursive, first, c.out, "function returning ");
  }

  lemma {:induction false} GoodDeal(first: string, c: Config)
    requires GoodStack(c.stack) && GoodOut(Recursive, first, c.out)
    ensures CdeclRecursive.Deal(c).Ok? ==> GoodOut(Recursive, first, CdeclRecursive.Deal(c).value.out)
    decreases |c.stack|, 1
  {
    hide GoodStack, GoodOut, CdeclRecursive.Suffixes, CdeclRecursive.PopStars, CdeclRecursive.Unwind;
    GoodSuffixes(first, c);
    var d := CdeclRecursive.Suffixes(c);
    if d.Ok? {
      GoodStars(first, d.value);
      var e := CdeclRecursive.PopStars(d.value);
      if e.Ok? {
        GoodUnwind(first, e.value);
      }
    }
  }

  lemma {:induction false} GoodUnwind(first: string, c: Config)
    requires GoodStack(c.stack) && GoodOut(Recursive, first, c.out)
    ensures CdeclRecursive.Unwind(c).Ok? ==> GoodOut(Recursive, first, CdeclRecursive.Unwind(c).value.out)
    decreases |c.stack|, 0
  {
    hide GoodStack, GoodOut, GoodToken, GoodText, CdeclRecursive.Deal, CdeclRecursive.Unwind, NextToken;
    CdeclRecursive.UnwindStep(c);
    if c.stack != [] {
      PopGood(c);
      if TopOf(c).kind == Symbol('(') {
        var d := Advance(Recursive, Pop(c));
        GoodDeal(first, d);
        if CdeclRecursive.Deal(d).Ok? {
          NoTokens();
          GoodUnwind(first, CdeclRecursive.Deal(d).value);
        }
      } else {
        TokenText(Recursive, TopOf(c));
        assert TopOf(c).text + "" == TopOf(c).text;
        GoodPrint(Recursive, first, c.out, TopOf(c).text);
        GoodUnwind(first, Pop(Print(c, TopOf(c).text)));
      }
    }
  }

  // ---- both ---------------------------------------------------------------------------------------------------

  /** After the name has been printed. */
  function Rest(p: Program, c: Config): Result<seq<string>> {
    if p.StateMachine? then Cdecl.Finish(Cdecl.ArrayPart, c)
    else
      match CdeclRecursive.Deal(c)
      case Ok(d) => Ok(d.out + ["\n"])
      case Fail(f) => Fail(f)
  }

  lemma OutputIs(p: Program, input: string)
    ensures Output(p, input) ==
      match ReadName(p, Cdecl.Start(input))
      case Ok(c) => Rest(p, c)
      case Fail(f) => Fail(f)
  {
    hide ReadName, CdeclRecursive.Deal;
    if p.StateMachine? {
      Cdecl.Runs(Cdecl.Initial, Cdecl.Start(input));
      hide Cdecl.Finish;
      var (s, c) := Cdecl.Step(Cdecl.Initial, Cdecl.Start(input));
      Cdecl.Stops(s, c);
    }
  }

  lemma GoodRest(p: Program, first: string, c: Config)
    requires GoodStack(c.stack) && GoodOut(p, first, c.out)
    ensures Rest(p, c).Ok? ==> GoodOut(p, first, Rest(p, c).value)
  {
    hide GoodStack, GoodOut, GoodText, Cdecl.Finish, CdeclRecursive.Deal;
    if p.StateMachine? {
      GoodFinish(first, Cdecl.ArrayPart, c);
    } else {
      GoodDeal(first, c);
      if CdeclRecursive.Deal(c).Ok? {
        WordTexts(p);
        GoodPrint(p, first, CdeclRecursive.Deal(c).value.out, "\n");
      }
    }
  }

  /** On any input at all, what is printed starts with a name of letters and digits, and no
      string after it has an underscore, but for the underscore alone. */
  lemma PrintsNoUnderscore(p: Program, input: string) returns (name: string)
    ensures Output(p, input).Ok? ==> AllAlnum(name) && GoodOut(p, name + " is ", Output(p, input).value)
  {
    hide GoodStack, GoodText, ReadName, Rest, AllAlnum, Output;
    OutputIs(p, input);
    GoodName(p, input);
    name := "";
    var r := ReadName(p, Cdecl.Start(input));
    if r.Ok? {
      name :| AllAlnum(name) && r.value.out == [name + " is "];
      GoodRest(p, name + " is ", r.value);
    }
  }
}
