/**
  The part that the two C-declaration translators share: gettoken and
  classify_string, and the global stack, current token, input and output
  (cdecl2.c:13-82, char3_analytype.c:13-76).
 */
module CdeclTokens {
  import opened Numerals

  const MAXTOKENS := 100

  /** cdecl2.c is the state machine, char3_analytype.c the recursive program. */
  datatype Program = StateMachine | Recursive

  datatype Kind = Identifier | Qualifier | TypeWord | Symbol(c: char) | EndOfFile
  datatype Token = Token(kind: Kind, text: string)

  /** How a run can go wrong: a push on a full stack, a look at stack[-1], a read that never ends. */
  datatype Fault = StackOverflow | BelowBottom | EndlessRead
  datatype Result<+T> = Ok(value: T) | Fail(fault: Fault)

  predicate IsAlnum(c: char) {
    IsDigit(c) || 'a' <= c <= 'z' || 'A' <= c <= 'Z'
  }

  /** isalnum in the C locale, by ASCII code. */
  lemma AlnumCodes(c: char)
    ensures IsAlnum(c) <==> 48 <= c as int <= 57 || 65 <= c as int <= 90 || 97 <= c as int <= 122
  {
  }

  predicate IsTypeWord(s: string) {
    || s == "void" || s == "char" || s == "signed" || s == "unsigned" || s == "short" || s == "int"
    || s == "long" || s == "float" || s == "double" || s == "struct" || s == "union" || s == "enum"
  }

  /** classify_string, with the text it leaves in this.string. */
  function Classify(p: Program, s: string): Token {
    if s == "const" then Token(Qualifier, " read-only")
    else if p.StateMachine? && s == "static" then Token(Qualifier, " private ")
    else if s == "volatile" then Token(Qualifier, s)
    else if IsTypeWord(s) then Token(TypeWord, s)
    else Token(Identifier, s)
  }

  /** The words that are not taken for names. */
  lemma Keywords(p: Program, s: string)
    ensures Classify(p, s).kind == TypeWord <==>
      s in {"void", "char", "signed", "unsigned", "short", "int", "long", "float", "double", "struct", "union", "enum"}
    ensures Classify(p, s).kind == Qualifier <==> s in {"const", "volatile"} || (p.StateMachine? && s == "static")
    ensures Classify(p, s).kind == Identifier || Classify(p, s).kind == TypeWord || Classify(p, s).kind == Qualifier
  {
  }

  /** A token of one character; characters 0, 1 and 2 coincide with the enum's codes. */
  function SymbolToken(p: Program, c: char): Token {
    if p.Recursive? && c == '*' then Token(Symbol('*'), "pointer to")
    else if c == 0 as char then Token(Identifier, "")
    else if c == 1 as char then Token(Qualifier, [c])
    else if c == 2 as char then Token(TypeWord, [c])
    else Token(Symbol(c), [c])
  }

  /** The token a word stands for; no word, no token. */
  function TokenOf(p: Program, w: string): Token {
    if w == "" then EOF_TOKEN else if IsAlnum(w[0]) then Classify(p, w) else SymbolToken(p, w[0])
  }

  function SkipBlanks(s: string): (t: string)
    ensures |t| <= |s| && (t != "" ==> t[0] != ' ')
  {
    if s != "" && s[0] == ' ' then SkipBlanks(s[1..]) else s
  }

  function AlnumRun(s: string): (n: nat)
    ensures n <= |s| && forall i | 0 <= i < n :: IsAlnum(s[i])
    ensures n < |s| ==> !IsAlnum(s[n])
  {
    if s != "" && IsAlnum(s[0]) then 1 + AlnumRun(s[1..]) else 0
  }

  lemma {:induction false} RunOf(w: string, rest: string)
    requires forall i | 0 <= i < |w| :: IsAlnum(w[i])
    requires rest == "" || !IsAlnum(rest[0])
    ensures AlnumRun(w + rest) == |w|
  {
    if w != "" {
      assert (w + rest)[1..] == w[1..] + rest;
      RunOf(w[1..], rest);
    }
  }

  const EOF_TOKEN := Token(EndOfFile, [255 as char])

  /** gettoken: the next token and the input after it. */
  function NextToken(p: Program, s: string): (r: (Token, string))
    ensures |r.1| <= |s| && (|r.1| == |s| ==> r.0 == EOF_TOKEN)
  {
    var t := SkipBlanks(s);
    if t == "" then (EOF_TOKEN, "")
    else
      var n := if IsAlnum(t[0]) then AlnumRun(t) else 1;
      (TokenOf(p, t[..n]), t[n..])
  }

  /** The global variables of a run. */
  datatype Config = Config(stack: seq<Token>, cur: Token, input: string, out: seq<string>)

  function Advance(p: Program, c: Config): (r: Config)
    ensures r.stack == c.stack && r.out == c.out && |r.input| <= |c.input|
    ensures |r.input| == |c.input| ==> r.cur == EOF_TOKEN
  {
    var (t, rest) := NextToken(p, c.input);
    c.(cur := t, input := rest)
  }

  function Print(c: Config, s: string): Config {
    c.(out := c.out + [s])
  }

  function Pop(c: Config): Config
    requires c.stack != []
  {
    c.(stack := c.stack[..|c.stack| - 1])
  }

  function TopOf(c: Config): Token
    requires c.stack != []
  {
    c.stack[|c.stack| - 1]
  }

  /** "%d" of atoi of a token that starts with a digit. */
  function Atoi(s: string): nat {
    Value(s[..DigitRun(s)])
  }

  function DigitRun(s: string): (n: nat)
    ensures n <= |s| && AllDigits(s[..n])
    ensures n < |s| ==> !IsDigit(s[n])
  {
    if s != "" && IsDigit(s[0]) then 1 + DigitRun(s[1..]) else 0
  }

  function IntText(n: int): string {
    if n < 0 then "-" + Decimal(-n) else Decimal(n)
  }

  /** "%d" writes the value, with a minus sign before a negative one and no needless zero. */
  lemma IntTextMeans(n: int)
    ensures IntText(n) != ""
    ensures n >= 0 ==> AllDigits(IntText(n)) && Value(IntText(n)) == n && (IntText(n) == "0" || IntText(n)[0] != '0')
    ensures n < 0 ==>
      && IntText(n)[0] == '-' && AllDigits(IntText(n)[1..]) && Value(IntText(n)[1..]) == -n
      && IntText(n)[1] != '0'
  {
    DecimalMeans(if n < 0 then -n else n);
    DecimalShortest(if n < 0 then -n else n);
    hide Decimal, Value;
    if n < 0 {
      assert IntText(n)[1..] == Decimal(-n);
    }
  }

  predicate StartsWithDigit(s: string) {
    s != "" && IsDigit(s[0])
  }

  /** The state machine puts a blank after each phrase. */
  function Gap(p: Program): string {
    if p.StateMachine? then " " else ""
  }

  /** One `[` with or without a size, and the token after its `]`. */
  function ReadArray(p: Program, c: Config): (r: Config)
    ensures r.stack == c.stack && |r.input| <= |c.input| && c.out <= r.out
    ensures |r.input| == |c.input| ==> r.cur == EOF_TOKEN
  {
    var c1 := Advance(p, Print(c, "array" + Gap(p)));
    var c2 := if StartsWithDigit(c1.cur.text)
              then Advance(p, Print(c1, "0.." + IntText(Atoi(c1.cur.text) - 1) + Gap(p))) else c1;
    Print(Advance(p, c2), "of" + Gap(p))
  }

  function ReadArrays(p: Program, c: Config): (r: Config)
    ensures r.stack == c.stack && r.cur.kind != Symbol('[') && c.out <= r.out
    decreases |c.input|, c.cur.kind == Symbol('[')
  {
    if c.cur.kind != Symbol('[') then c else ReadArrays(p, ReadArray(p, c))
  }

  /** Everything up to the first identifier is stacked. */
  function StackToName(p: Program, c: Config): Result<Config>
    decreases MAXTOKENS - |c.stack|
  {
    if c.cur.kind == Identifier then Ok(c)
    else if |c.stack| >= MAXTOKENS then Fail(StackOverflow)
    else StackToName(p, Advance(p, c.(stack := c.stack + [c.cur])))
  }

  /** Both programs begin alike: stack up to the name, print it, read on. */
  function ReadName(p: Program, c: Config): Result<Config> {
    match StackToName(p, Advance(p, c))
    case Ok(d) => Ok(Advance(p, Print(d, d.cur.text + " is ")))
    case Fail(f) => Fail(f)
  }

  /** From a '(' past the next ')'. */
  function SkipParams(p: Program, c: Config): (r: Result<Config>)
    ensures r.Ok? ==> r.value.stack == c.stack && r.value.out == c.out
    decreases |c.input|
  {
    if c.cur.kind == Symbol(')') then Ok(Advance(p, c))
    else
      var d := Advance(p, c);
      if d.cur.kind == EndOfFile then Fail(EndlessRead) else SkipParams(p, d)
  }

  class Machine {
    const program: Program
    const stack: array<Token>
    var top: int
    var cur: Token
    var input: string
    var out: seq<string>

    ghost predicate Valid()
      reads this
    {
      stack.Length == MAXTOKENS && -1 <= top < MAXTOKENS
    }

    ghost function State(): Config
      requires Valid()
      reads this, stack
    {
      Config(stack[..top + 1], cur, input, out)
    }

    constructor (program: Program, input: string)
      ensures Valid() && fresh(stack) && this.program == program
      ensures State() == Config([], EOF_TOKEN, input, [])
    {
      this.program := program;
      stack := new Token[MAXTOKENS](_ => EOF_TOKEN);
      top := -1;
      cur := EOF_TOKEN;
      this.input := input;
      out := [];
    }

    method GetToken()
      requires Valid()
      modifies this`cur, this`input
      ensures Valid() && State() == Advance(program, old(State()))
    {
      hide Classify;
      while input != "" && input[0] == ' '
        invariant SkipBlanks(input) == SkipBlanks(old(input))
        decreases |input|
      {
        input := input[1..];
      }
      if input == "" {
        cur := EOF_TOKEN;
        return;
      }
      if IsAlnum(input[0]) {
        ReadWord();
      } else {
        assert input[..1] == [input[0]];
        cur := SymbolToken(program, input[0]);
        input := input[1..];
      }
    }

    method ReadWord()
      requires Valid() && input != "" && IsAlnum(input[0])
      modifies this`cur, this`input
      ensures cur == Classify(program, old(input)[..AlnumRun(old(input))])
      ensures input == old(input)[AlnumRun(old(input))..]
    {
      hide Classify, AlnumRun;
      var word := "";
      while input != "" && IsAlnum(input[0])
        invariant old(input) == word + input && forall i | 0 <= i < |word| :: IsAlnum(word[i])
        decreases |input|
      {
        assert input == [input[0]] + input[1..];
        word := word + [input[0]];
        input := input[1..];
      }
      RunOf(word, input);
      cur := Classify(program, word);
    }

    method Push() returns (fault: bool)
      requires Valid()
      modifies this`top, stack
      ensures Valid() && fault == (old(top) == MAXTOKENS - 1)
      ensures State() == if fault then old(State()) else old(State()).(stack := old(State()).stack + [cur])
    {
      if top == MAXTOKENS - 1 {
        return true;
      }
      top := top + 1;
      stack[top] := cur;
      return false;
    }

    method PopTop() returns (t: Token)
      requires Valid() && top >= 0
      modifies this`top
      ensures Valid() && t == TopOf(old(State())) && State() == Pop(old(State()))
    {
      t := stack[top];
      top := top - 1;
    }

    method Write(s: string)
      requires Valid()
      modifies this`out
      ensures Valid() && State() == Print(old(State()), s)
    {
      out := out + [s];
    }

    /** initial, and read_to_first_identifer */
    method ReadToName() returns (r: Result<()>)
      requires Valid()
      modifies this, stack
      ensures Valid()
      ensures match ReadName(program, old(State()))
              case Ok(c) => r.Ok? && State() == c
              case Fail(f) => r == Fail(f)
    {
      GetToken();
      ghost var start := State();
      while cur.kind != Identifier
        invariant Valid() && StackToName(program, State()) == StackToName(program, start)
        decreases MAXTOKENS - top
      {
        var full := Push();
        if full {
          return Fail(StackOverflow);
        }
        GetToken();
      }
      Write(cur.text + " is ");
      GetToken();
      return Ok(());
    }

    /** The loop over array suffixes. */
    method ReadSizes() returns (some: bool)
      requires Valid()
      modifies this`cur, this`input, this`out
      ensures Valid() && State() == ReadArrays(program, old(State()))
      ensures some == (old(cur).kind == Symbol('['))
    {
      hide ReadArray;
      some := false;
      while cur.kind == Symbol('[')
        invariant Valid() && ReadArrays(program, State()) == ReadArrays(program, old(State()))
        invariant if some then old(cur).kind == Symbol('[') else State() == old(State())
        decreases |input|, cur.kind == Symbol('[')
      {
        ReadSize();
        some := true;
      }
    }

    method ReadSize()
      requires Valid()
      modifies this`cur, this`input, this`out
      ensures Valid() && State() == ReadArray(program, old(State()))
    {
      hide NextToken, Atoi, Gap, IntText, StartsWithDigit;
      Write("array" + Gap(program));
      GetToken();
      if StartsWithDigit(cur.text) {
        Write("0.." + IntText(Atoi(cur.text) - 1) + Gap(program));
        GetToken();
      }
      GetToken();
      Write("of" + Gap(program));
    }

    /** The loop over a parameter list, and the token after it. */
    method ReadParams() returns (r: Result<()>)
      requires Valid()
      modifies this`cur, this`input
      ensures Valid()
      ensures match SkipParams(program, old(State()))
              case Ok(c) => r.Ok? && State() == c
              case Fail(f) => r == Fail(f)
    {
      while cur.kind != Symbol(')')
        invariant Valid() && SkipParams(program, State()) == SkipParams(program, old(State()))
        decreases |input|
      {
        GetToken();
        if cur.kind == EndOfFile {
          return Fail(EndlessRead);
        }
      }
      GetToken();
      return Ok(());
    }
  }
}
