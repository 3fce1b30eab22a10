/**
  What a C declaration means (section 6.7.5 of ISO/IEC 9899:1999), how its meaning
  is said in English, and how the declaration is spelled.
 */
module CdeclMeaning {
  import opened Common
  import opened Numerals
  import opened CdeclTokens

  /** One level of a declarator: `*`s with their qualifiers, a name or a parenthesised level, a suffix. */
  datatype Declarator = Declarator(pointers: seq<seq<string>>, core: Core, suffix: Suffix)
  datatype Core = Name(id: string) | Paren(inner: Declarator)
  datatype Suffix = Nothing | Arrays(sizes: seq<Option<nat>>) | Params(words: seq<string>)

  datatype Declaration = Declaration(specifiers: seq<string>, declarator: Declarator)

  datatype CType =
    | Base(specifiers: seq<string>)
    | Pointer(qualifiers: seq<string>, to: CType)
    | Array(size: Option<nat>, of: CType)
    | Function(params: seq<string>, result: CType)

  // ---- the type of the declared name -----------------------------------------------

  function PointersTo(pointers: seq<seq<string>>, base: CType): CType {
    if pointers == [] then base else PointersTo(pointers[1..], Pointer(pointers[0], base))
  }

  function ArraysOf(sizes: seq<Option<nat>>, base: CType): CType {
    if sizes == [] then base else Array(sizes[0], ArraysOf(sizes[1..], base))
  }

  function SuffixOf(suffix: Suffix, base: CType): CType {
    match suffix
    case Nothing => base
    case Arrays(sizes) => ArraysOf(sizes, base)
    case Params(words) => Function(words, base)
  }

  /** The type of the name in `base d`: suffixes bind tighter than `*`. */
  function TypeOf(d: Declarator, base: CType): CType {
    var t := SuffixOf(d.suffix, PointersTo(d.pointers, base));
    match d.core
    case Name(_) => t
    case Paren(inner) => TypeOf(inner, t)
  }

  function NameOf(d: Declarator): string {
    match d.core
    case Name(id) => id
    case Paren(inner) => NameOf(inner)
  }

  // ---- the type in English ----------------------------------------------------------

  datatype Phrase =
    | Is(id: string) | ArrayWord | Bounds(last: int) | Of | FunctionReturning | PointerTo
    | Word(w: string) | EndLine

  /** Words are said last first. */
  function Backwards(words: seq<string>): seq<Phrase> {
    if words == [] then [] else Backwards(words[1..]) + [Word(words[0])]
  }

  function ArrayPhrases(size: Option<nat>): seq<Phrase> {
    match size
    case None => [ArrayWord, Of]
    case Some(n) => [ArrayWord, Bounds(n - 1), Of]
  }

  function English(t: CType): seq<Phrase> {
    match t
    case Base(specifiers) => Backwards(specifiers)
    case Pointer(qualifiers, to) => Backwards(qualifiers) + [PointerTo] + English(to)
    case Array(size, of) => ArrayPhrases(size) + English(of)
    case Function(_, result) => [FunctionReturning] + English(result)
  }

  function Sentence(d: Declaration): seq<Phrase> {
    [Is(NameOf(d.declarator))] + English(TypeOf(d.declarator, Base(d.specifiers))) + [EndLine]
  }

  function Rendered(w: string): string {
    if w == "const" then " read-only" else if w == "static" then " private " else w
  }

  /** The characters a program prints for a phrase. */
  function Say(p: Program, phrase: Phrase): string {
    var space := Gap(p);
    match phrase
    case Is(id) => id + " is "
    case ArrayWord => "array" + space
    case Bounds(last) => "0.." + IntText(last) + space
    case Of => "of" + space
    case FunctionReturning => "function returning " + space
    case PointerTo => "pointer to" + space
    case Word(w) => Rendered(w) + space
    case EndLine => "\n"
  }

  function Said(p: Program, phrases: seq<Phrase>): (r: seq<string>)
    ensures |r| == |phrases|
    ensures forall i | 0 <= i < |phrases| :: r[i] == Say(p, phrases[i])
  {
    seq(|phrases|, i requires 0 <= i < |phrases| => Say(p, phrases[i]))
  }

  lemma SaidMore(p: Program, a: seq<Phrase>, b: seq<Phrase>)
    ensures Said(p, a + b) == Said(p, a) + Said(p, b)
  {
  }

  /** The phrases for an array of n elements, as either program prints them. */
  lemma SaysBounds(p: Program, n: nat) returns (last: string)
    requires n >= 1
    ensures AllDigits(last) && Value(last) == n - 1 && last != "" && (last == "0" || last[0] != '0')
    ensures Said(p, ArrayPhrases(Some(n))) ==
      if p.StateMachine? then ["array ", "0.." + last + " ", "of "] else ["array", "0.." + last, "of"]
  {
    hide IntText;
    last := IntText(n - 1);
    IntTextMeans(n - 1);
    assert "array" + "" == "array" && "of" + "" == "of" && "0.." + last + "" == "0.." + last;
    assert "array" + " " == "array " && "of" + " " == "of ";
  }

  // ---- the spelling ------------------------------------------------------------------

  predicate IsAlnumWord(w: string) {
    w != "" && forall i | 0 <= i < |w| :: IsAlnum(w[i])
  }

  predicate IsWord(w: string) {
    IsAlnumWord(w) || (|w| == 1 && !IsAlnum(w[0]) && w[0] != ' ')
  }

  function PointerWords(pointers: seq<seq<string>>): seq<string> {
    if pointers == [] then [] else ["*"] + pointers[0] + PointerWords(pointers[1..])
  }

  function SizeWords(size: Option<nat>): seq<string> {
    match size
    case None => ["[", "]"]
    case Some(n) => ["[", Decimal(n), "]"]
  }

  function ArrayWords(sizes: seq<Option<nat>>): seq<string> {
    if sizes == [] then [] else SizeWords(sizes[0]) + ArrayWords(sizes[1..])
  }

  function SuffixWords(s: Suffix): seq<string> {
    match s
    case Nothing => []
    case Arrays(sizes) => ArrayWords(sizes)
    case Params(words) => ["("] + words + [")"]
  }

  /** The words before the name. */
  function Before(d: Declarator): seq<string> {
    PointerWords(d.pointers) + match d.core case Name(_) => [] case Paren(inner) => ["("] + Before(inner)
  }

  /** The words after the name. */
  function After(d: Declarator): seq<string> {
    (match d.core case Name(_) => [] case Paren(inner) => After(inner) + [")"]) + SuffixWords(d.suffix)
  }

  function Words(d: Declaration): seq<string> {
    d.specifiers + Before(d.declarator) + [NameOf(d.declarator)] + After(d.declarator)
  }

  predicate IsQualifier(w: string) {
    w == "const" || w == "volatile"
  }

  predicate IsName(w: string) {
    IsAlnumWord(w) && w != "static" && Classify(StateMachine, w) == Token(Identifier, w)
  }

  /** Qualifiers after a `*`, a name that is no keyword, and parameters without a `)`. */
  predicate WellFormed(d: Declarator) {
    && (forall i, j | 0 <= i < |d.pointers| && 0 <= j < |d.pointers[i]| :: IsQualifier(d.pointers[i][j]))
    && (d.suffix.Params? ==>
          forall i | 0 <= i < |d.suffix.words| :: IsWord(d.suffix.words[i]) && d.suffix.words[i] != ")")
    && match d.core
       case Name(id) => IsName(id)
       case Paren(inner) => WellFormed(inner)
  }

  /** A type keyword; or `_`, the one identifier with an underscore that is read as one token. */
  predicate IsTypeName(w: string) {
    IsTypeWord(w) || w == "_"
  }

  predicate IsSpecifier(w: string) {
    IsTypeName(w) || IsQualifier(w) || w == "static"
  }

  predicate WellFormedDeclaration(d: Declaration) {
    (forall i | 0 <= i < |d.specifiers| :: IsSpecifier(d.specifiers[i])) && WellFormed(d.declarator)
  }

  // ---- the phrases level by level, innermost first --------------------------------------

  function PointerPhrases(pointers: seq<seq<string>>): seq<Phrase> {
    if pointers == [] then [] else PointerPhrases(pointers[1..]) + Backwards(pointers[0]) + [PointerTo]
  }

  function AllArrayPhrases(sizes: seq<Option<nat>>): seq<Phrase> {
    if sizes == [] then [] else ArrayPhrases(sizes[0]) + AllArrayPhrases(sizes[1..])
  }

  function SuffixPhrases(s: Suffix): seq<Phrase> {
    match s
    case Nothing => []
    case Arrays(sizes) => AllArrayPhrases(sizes)
    case Params(_) => [FunctionReturning]
  }

  function Phrases(d: Declarator): seq<Phrase> {
    (match d.core case Name(_) => [] case Paren(inner) => Phrases(inner)) +
    SuffixPhrases(d.suffix) + PointerPhrases(d.pointers)
  }

  lemma {:induction false} EnglishPointers(pointers: seq<seq<string>>, base: CType)
    ensures English(PointersTo(pointers, base)) == PointerPhrases(pointers) + English(base)
  {
    if pointers != [] {
      EnglishPointers(pointers[1..], Pointer(pointers[0], base));
    }
  }

  lemma {:induction false} EnglishArrays(sizes: seq<Option<nat>>, base: CType)
    ensures English(ArraysOf(sizes, base)) == AllArrayPhrases(sizes) + English(base)
  {
    if sizes != [] {
      EnglishArrays(sizes[1..], base);
    }
  }

  lemma EnglishSuffix(suffix: Suffix, base: CType)
    ensures English(SuffixOf(suffix, base)) == SuffixPhrases(suffix) + English(base)
  {
    if suffix.Arrays? {
      EnglishArrays(suffix.sizes, base);
    }
  }

  lemma Regroup(a: seq<Phrase>, b: seq<Phrase>, c: seq<Phrase>, rest: seq<Phrase>)
    ensures a + (b + (c + rest)) == a + b + c + rest && [] + b == b
  {
  }

  /** The English of a declarator's type is its levels' phrases, read outward from the name. */
  lemma {:induction false} EnglishOutward(d: Declarator, base: CType)
    ensures English(TypeOf(d, base)) == Phrases(d) + English(base)
  {
    var pointed := PointersTo(d.pointers, base);
    EnglishPointers(d.pointers, base);
    EnglishSuffix(d.suffix, pointed);
    var inner := if d.core.Paren? then Phrases(d.core.inner) else [];
    Regroup(inner, SuffixPhrases(d.suffix), PointerPhrases(d.pointers), English(base));
    if d.core.Paren? {
      EnglishOutward(d.core.inner, SuffixOf(d.suffix, pointed));
    } else {
      Regroup([], SuffixPhrases(d.suffix), PointerPhrases(d.pointers), English(base));
    }
  }

  // ---- reading words --------------------------------------------------------------------

  /** The next tokens of the input are these words. */
  ghost predicate Comes(p: Program, input: string, words: seq<string>)
    decreases |words|
  {
    words != [] ==>
      && NextToken(p, input).0 == TokenOf(p, words[0])
      && Comes(p, NextToken(p, input).1, words[1..])
  }

  /** The current token and the ones to come are these words. */
  ghost predicate Facing(p: Program, c: Config, words: seq<string>) {
    words != [] && c.cur == TokenOf(p, words[0]) && Comes(p, c.input, words[1..])
  }

  lemma Onward(p: Program, c: Config, w: string, more: seq<string>)
    requires Facing(p, c, [w] + more) && more != []
    ensures Facing(p, Advance(p, c), more)
  {
    assert ([w] + more)[1..] == more;
  }

  function Blanks(n: nat): (s: string)
    ensures |s| == n
  {
    seq(n, _ => ' ')
  }

  /** Words with blanks before them, then anything. */
  function Layout(words: seq<string>, gaps: seq<nat>, tail: string): string
    requires |gaps| == |words|
  {
    if words == [] then tail else Blanks(gaps[0]) + words[0] + Layout(words[1..], gaps[1..], tail)
  }

  /** Neighbouring words do not run together; the last one does not run into the tail. */
  predicate Separated(words: seq<string>, gaps: seq<nat>)
    requires |gaps| == |words|
  {
    && (forall i | 0 <= i < |words| :: IsWord(words[i]))
    && (forall i, j | 0 <= i < |words| && 0 <= j < |words| && j == i + 1 ::
          IsAlnumWord(words[i]) && IsAlnumWord(words[j]) ==> gaps[j] > 0)
    && (words != [] ==> !IsAlnumWord(words[|words| - 1]))
  }

  lemma {:induction false} SkipsBlanks(n: nat, s: string)
    requires s != "" && s[0] != ' '
    ensures SkipBlanks(Blanks(n) + s) == s
  {
    if n == 0 {
      assert Blanks(0) + s == s;
    } else {
      assert (Blanks(n) + s)[1..] == Blanks(n - 1) + s;
      SkipsBlanks(n - 1, s);
    }
  }

  lemma ReadsWord(p: Program, gap: nat, w: string, rest: string)
    requires IsWord(w)
    requires IsAlnumWord(w) ==> rest == "" || !IsAlnum(rest[0])
    ensures NextToken(p, Blanks(gap) + w + rest) == (TokenOf(p, w), rest)
  {
    var t := w + rest;
    assert Blanks(gap) + w + rest == Blanks(gap) + t;
    SkipsBlanks(gap, t);
    if IsAlnumWord(w) {
      RunOf(w, rest);
    }
    assert t[..|w|] == w && t[|w|..] == rest;
  }

  /** gettoken recovers the words from any layout. */
  lemma {:induction false} LayoutComes(p: Program, words: seq<string>, gaps: seq<nat>, tail: string)
    requires |gaps| == |words| && Separated(words, gaps)
    ensures Comes(p, Layout(words, gaps, tail), words)
  {
    if words != [] {
      var rest := Layout(words[1..], gaps[1..], tail);
      assert IsAlnumWord(words[0]) ==> rest == "" || !IsAlnum(rest[0]) by {
        if |words| > 1 {
          var w := words[1];
          assert IsWord(w) && words[1..][0] == w && gaps[1..][0] == gaps[1];
          if gaps[1] == 0 {
            assert rest[0] == w[0];
          } else {
            assert rest[0] == ' ';
          }
        }
      }
      ReadsWord(p, gaps[0], words[0], rest);
      assert Separated(words[1..], gaps[1..]) by {
        forall i, j | 0 <= i && j == i + 1 && j < |words[1..]|
          ensures IsAlnumWord(words[1..][i]) && IsAlnumWord(words[1..][j]) ==> gaps[1..][j] > 0
        {
          assert words[1..][i] == words[i + 1] && words[1..][j] == words[j + 1] && gaps[1..][j] == gaps[j + 1];
        }
      }
      LayoutComes(p, words[1..], gaps[1..], tail);
    }
  }

  // ---- the tokens of words -----------------------------------------------------------------

  function Tokens(p: Program, words: seq<string>): (r: seq<Token>)
    ensures |r| == |words|
    ensures forall i | 0 <= i < |words| :: r[i] == TokenOf(p, words[i])
  {
    seq(|words|, i requires 0 <= i < |words| => TokenOf(p, words[i]))
  }

  lemma TokensMore(p: Program, a: seq<string>, b: seq<string>)
    ensures Tokens(p, a + b) == Tokens(p, a) + Tokens(p, b)
  {
  }

  /** A word that can follow a declarator. */
  predicate Ender(w: string) {
    IsWord(w) && w != "[" && w != "("
  }

  lemma KindOfSymbol(p: Program, w: string, c: char)
    requires IsWord(w) && c > 2 as char && !IsAlnum(c)
    ensures TokenOf(p, w).kind == Symbol(c) <==> w == [c]
    ensures TokenOf(p, w).kind != EndOfFile
  {
  }

  lemma BracketToken(p: Program)
    ensures !StartsWithDigit(TokenOf(p, "]").text)
  {
  }

  lemma KindOfQualifier(p: Program, w: string)
    requires IsQualifier(w) || (p.StateMachine? && w == "static")
    ensures TokenOf(p, w) == Token(Qualifier, Rendered(w))
  {
    assert IsAlnum(w[0]);
  }

  /** What neither program takes for a name, a qualifier, a star or a parenthesis. */
  predicate TypeLike(kind: Kind) {
    kind != Identifier && kind != Qualifier && kind != Symbol('*') && kind != Symbol('(')
  }

  lemma KindOfType(p: Program, w: string)
    requires IsTypeName(w)
    ensures TypeLike(TokenOf(p, w).kind) && TokenOf(p, w).text == Rendered(w)
  {
    assert w != "_" ==> IsAlnum(w[0]);
  }

  lemma KindOfName(p: Program, w: string)
    requires IsName(w)
    ensures TokenOf(p, w) == Token(Identifier, w)
  {
  }

  lemma DigitIdentifier(p: Program, w: string)
    requires StartsWithDigit(w)
    ensures TokenOf(p, w) == Token(Identifier, w)
  {
  }

  lemma {:induction false} AllDigitRun(s: string)
    requires AllDigits(s)
    ensures DigitRun(s) == |s|
  {
    if s != "" {
      AllDigitRun(s[1..]);
    }
  }

  /** A size is read as an identifier that atoi understands. */
  lemma NumberToken(p: Program, n: nat)
    ensures TokenOf(p, Decimal(n)) == Token(Identifier, Decimal(n))
    ensures StartsWithDigit(Decimal(n)) && Atoi(Decimal(n)) == n
  {
    hide TokenOf, Decimal, Value, DigitRun;
    DecimalMeans(n);
    var s := Decimal(n);
    DigitIdentifier(p, s);
    AllDigitRun(s);
    assert s[..|s|] == s;
  }

  /** Some specifier names a type. */
  predicate HasType(words: seq<string>) {
    exists i | 0 <= i < |words| :: IsTypeName(words[i])
  }

  lemma HasTypeLast(words: seq<string>, w: string)
    ensures HasType(words + [w]) == (HasType(words) || IsTypeName(w))
  {
    hide IsTypeName;
    var more := words + [w];
    assert more[|words|] == w && forall i | 0 <= i < |words| :: more[i] == words[i];
    if HasType(words) {
      var i :| 0 <= i < |words| && IsTypeName(words[i]);
      assert IsTypeName(more[i]);
    }
  }

  lemma {:induction false} BackwardsLast(words: seq<string>, w: string)
    ensures Backwards(words + [w]) == [Word(w)] + Backwards(words)
  {
    if words == [] {
      assert [] + [w] == [w];
      assert Backwards([w]) == Backwards([]) + [Word(w)];
    } else {
      assert (words + [w])[1..] == words[1..] + [w];
      BackwardsLast(words[1..], w);
    }
  }

  /** None of these words is read as an identifier. */
  predicate NoNames(p: Program, words: seq<string>) {
    forall i | 0 <= i < |words| :: TokenOf(p, words[i]).kind != Identifier
  }

  lemma NoNamesMore(p: Program, a: seq<string>, b: seq<string>)
    requires NoNames(p, a) && NoNames(p, b)
    ensures NoNames(p, a + b)
  {
    hide TokenOf;
  }

  lemma NoNameQualifiers(p: Program, words: seq<string>)
    requires forall i | 0 <= i < |words| :: IsQualifier(words[i])
    ensures NoNames(p, words)
  {
    forall i | 0 <= i < |words| ensures TokenOf(p, words[i]).kind != Identifier {
      KindOfQualifier(p, words[i]);
    }
  }

  lemma NoNameSymbol(p: Program, c: char)
    requires c > 2 as char && !IsAlnum(c) && c != ' '
    ensures NoNames(p, [[c]])
  {
    KindOfSymbol(p, [c], c);
  }

  lemma {:induction false} NoNamePointers(p: Program, pointers: seq<seq<string>>)
    requires forall i, j | 0 <= i < |pointers| && 0 <= j < |pointers[i]| :: IsQualifier(pointers[i][j])
    ensures NoNames(p, PointerWords(pointers))
    decreases |pointers|
  {
    hide TokenOf, IsQualifier, NoNames;
    if pointers == [] {
      NoNameQualifiers(p, []);
    } else {
      NoNameQualifiers(p, pointers[0]);
      NoNameSymbol(p, '*');
      NoNamePointers(p, pointers[1..]);
      NoNamesMore(p, ["*"], pointers[0]);
      NoNamesMore(p, ["*"] + pointers[0], PointerWords(pointers[1..]));
    }
  }

  /** The name is the first identifier of its declarator. */
  lemma {:induction false} NoNameBefore(p: Program, d: Declarator)
    requires WellFormed(d)
    ensures NoNames(p, Before(d))
    decreases d
  {
    hide TokenOf, IsQualifier, NoNames;
    NoNamePointers(p, d.pointers);
    if d.core.Paren? {
      var inner := Before(d.core.inner);
      NoNameBefore(p, d.core.inner);
      NoNameSymbol(p, '(');
      NoNamesMore(p, ["("], inner);
      NoNamesMore(p, PointerWords(d.pointers), ["("] + inner);
    } else {
      assert Before(d) == PointerWords(d.pointers);
    }
  }

  lemma NoNameSpecifiers(p: Program, words: seq<string>)
    requires forall i | 0 <= i < |words| :: IsSpecifier(words[i]) && (p.Recursive? ==> words[i] != "static")
    ensures NoNames(p, words)
  {
    hide TokenOf, IsTypeName, IsQualifier;
    forall i | 0 <= i < |words| ensures TokenOf(p, words[i]).kind != Identifier {
      if IsTypeName(words[i]) {
        KindOfType(p, words[i]);
      } else {
        KindOfQualifier(p, words[i]);
      }
    }
  }

  lemma {:induction false} NamedInside(d: Declarator)
    requires WellFormed(d)
    ensures IsName(NameOf(d))
    decreases d
  {
    hide IsName;
    if d.core.Paren? {
      NamedInside(d.core.inner);
    }
  }
}
