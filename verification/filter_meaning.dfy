/**
  A compiled filter means what the filter means: reading the string back with
  the standard precedence gives an expression with the filter's truth value
  under every valuation of the comparisons.
*/
module FilterMeaning {
  import opened Base
  import opened FilterModel

  // ------------------------------------------------- set membership spelled out

  /** A supported filter with set membership spelled out; `NoneOf` is one negated list of equalities. */
  datatype Node =
    | Leaf(field: string, op: ComparisonOp, value: Scalar)
    | All(children: seq<Node>)
    | Any(children: seq<Node>)
    | No(inner: Node)
    | NoneOf(children: seq<Node>)

  predicate Plain(f: Node) {
    match f
    case Leaf(field, _, value) => ValidField(field) && !value.Null?
    case All(children) => children != [] && forall c | c in children :: Plain(c)
    case Any(children) => children != [] && forall c | c in children :: Plain(c)
    case No(inner) => Plain(inner)
    case NoneOf(children) => children != [] && forall c | c in children :: Plain(c)
  }

  predicate Means(f: Node, holds: Valuation) {
    match f
    case Leaf(field, op, value) => holds(field, op, value)
    case All(children) => forall c | c in children :: Means(c, holds)
    case Any(children) => exists c | c in children :: Means(c, holds)
    case No(inner) => !Means(inner, holds)
    case NoneOf(children) => !exists c | c in children :: Means(c, holds)
  }

  function Equalities(field: string, values: seq<Scalar>): (fs: seq<Node>)
    ensures |fs| == |values| && forall i | 0 <= i < |values| :: fs[i] == Leaf(field, Eq, values[i])
  {
    if values == [] then [] else [Leaf(field, Eq, values[0])] + Equalities(field, values[1..])
  }

  function Core(f: Filter): Node
    requires Supported(f)
    decreases f, 0
  {
    match f
    case Compare(field, op, value) => Leaf(field, op, value)
    case InList(field, values) => Any(Equalities(field, values))
    case NotInList(field, values) => NoneOf(Equalities(field, values))
    case And(children) => All(CoreAll(children))
    case Or(children) => Any(CoreAll(children))
    case Not(inner) => No(Core(inner))
  }

  function CoreAll(fs: seq<Filter>): (r: seq<Node>)
    requires forall c | c in fs :: Supported(c)
    ensures |r| == |fs| && forall i | 0 <= i < |fs| :: r[i] == Core(fs[i])
    decreases fs
  {
    if fs == [] then [] else [Core(fs[0])] + CoreAll(fs[1..])
  }

  lemma {:induction false} CoreMeansTheSame(f: Filter, holds: Valuation)
    requires Supported(f)
    ensures Means(Core(f), holds) == Eval(f, holds)
  {
    if f.InList? || f.NotInList? {
      EqualitiesMean(f.field, f.values, holds);
    } else if f.And? || f.Or? {
      forall i | 0 <= i < |f.children|
        ensures Means(CoreAll(f.children)[i], holds) == Eval(f.children[i], holds)
      {
        CoreMeansTheSame(f.children[i], holds);
      }
    } else if f.Not? {
      CoreMeansTheSame(f.inner, holds);
    }
  }

  lemma EqualitiesMean(field: string, values: seq<Scalar>, holds: Valuation)
    ensures (exists c | c in Equalities(field, values) :: Means(c, holds))
            <==> exists v | v in values :: holds(field, Eq, v)
  {
    var fs := Equalities(field, values);
    if v :| v in values && holds(field, Eq, v) {
      var i :| 0 <= i < |values| && values[i] == v;
      assert fs[i] in fs && Means(fs[i], holds);
    }
    if c :| c in fs && Means(c, holds) {
      var i :| 0 <= i < |fs| && fs[i] == c;
      assert values[i] in values;
    }
  }

  // -------------------------------------------------------- the text and tokens

  function LiteralText(v: Scalar): string
    requires !v.Null?
  {
    ValueText(v).value
  }

  function Paren(s: string): string {
    "(" + s + ")"
  }

  function Text(f: Node): string
    requires Plain(f)
    decreases f, 0
  {
    match f
    case Leaf(field, op, value) => field + " " + OpText(op) + " " + LiteralText(value)
    case All(children) => ChainText(" and ", children)
    case Any(children) => Paren(ChainText(" or ", children))
    case No(inner) => "not " + Paren(Text(inner))
    case NoneOf(children) => "not " + Paren(ChainText(" or ", children))
  }

  function ChainText(separator: string, fs: seq<Node>): string
    requires fs != [] && forall c | c in fs :: Plain(c)
    decreases fs, 1
  {
    Text(fs[0]) + TailText(separator, fs[1..])
  }

  function TailText(separator: string, fs: seq<Node>): string
    requires forall c | c in fs :: Plain(c)
    decreases fs
  {
    if fs == [] then [] else separator + (Text(fs[0]) + TailText(separator, fs[1..]))
  }

  function LiteralToken(v: Scalar): Token
    requires !v.Null?
  {
    match v
    case Bool(flag) => Word(if flag then "true" else "false")
    case Int32(i) => Word(IntText(i))
    case Int64(i) => Word(IntText(i) + "L")
    case Float64(literal) => Word(literal)
    case Str(text) => Quoted("", text)
    case Binary(bytes) => Quoted("X", HexText(bytes))
    case Timestamp(stamp) => Quoted("datetime", stamp)
  }

  function Bracketed(ts: seq<Token>): seq<Token> {
    [Open] + ts + [Close]
  }

  function Tokens(f: Node): (ts: seq<Token>)
    requires Plain(f)
    decreases f, 0
  {
    match f
    case Leaf(field, op, value) => [Word(field), Word(OpText(op)), LiteralToken(value)]
    case All(children) => ChainTokens("and", children)
    case Any(children) => Bracketed(ChainTokens("or", children))
    case No(inner) => [Word("not")] + Bracketed(Tokens(inner))
    case NoneOf(children) => [Word("not")] + Bracketed(ChainTokens("or", children))
  }

  function ChainTokens(separator: string, fs: seq<Node>): seq<Token>
    requires fs != [] && forall c | c in fs :: Plain(c)
    decreases fs, 1
  {
    Tokens(fs[0]) + TailTokens(separator, fs[1..])
  }

  function TailTokens(separator: string, fs: seq<Node>): seq<Token>
    requires forall c | c in fs :: Plain(c)
    decreases fs
  {
    if fs == [] then [] else [Word(separator)] + (Tokens(fs[0]) + TailTokens(separator, fs[1..]))
  }

  // ------------------------------------------- the compiler writes that text

  function Texts(fs: seq<Node>): (parts: seq<string>)
    requires forall c | c in fs :: Plain(c)
    ensures |parts| == |fs|
  {
    if fs == [] then [] else [Text(fs[0])] + Texts(fs[1..])
  }

  lemma {:induction false} JoinIsTail(fs: seq<Node>, separator: string)
    requires fs != [] && forall c | c in fs :: Plain(c)
    ensures Join(Texts(fs), separator) == ChainText(separator, fs)
  {
    hide Text, Plain;
    var parts := Texts(fs);
    if |fs| > 1 {
      JoinIsTail(fs[1..], separator);
      assert parts[1..] == Texts(fs[1..]);
      assert Join(parts, separator) == Text(fs[0]) + separator + ChainText(separator, fs[1..]);
    } else {
      assert parts == [Text(fs[0])];
    }
  }

  lemma {:induction false} EqualPartsCompile(field: string, values: seq<Scalar>)
    requires ValidField(field)
    ensures Null in values <==> EqualParts(field, values).Err?
    ensures Null !in values ==> EqualParts(field, values) == Ok(Texts(Equalities(field, values)))
  {
    if values != [] {
      EqualPartsCompile(field, values[1..]);
      assert values == [values[0]] + values[1..];
    }
  }

  lemma NegatedText(s: string)
    ensures "not (" + s + ")" == "not " + Paren(s)
  {
  }

  /** A filter compiles exactly when it is supported, and then to its text. */
  lemma {:induction false} CompilesToText(f: Filter)
    ensures ToOdata(f).Ok? <==> Supported(f)
    ensures Supported(f) ==> Plain(Core(f)) && ToOdata(f) == Ok(Text(Core(f)))
    decreases f, 0
  {
    if f.InList? || f.NotInList? {
      ListCompiles(f.field, f.values, if f.InList? then "(" else "not (");
      if Supported(f) {
        NegatedText(ChainText(" or ", Equalities(f.field, f.values)));
      }
    } else if f.And? || f.Or? {
      AllCompile(f.children);
      if Supported(f) {
        JoinIsTail(CoreAll(f.children), if f.And? then " and " else " or ");
      }
    } else if f.Not? {
      CompilesToText(f.inner);
      if Supported(f) {
        NegatedText(Text(Core(f.inner)));
      }
    }
  }

  lemma ListCompiles(field: string, values: seq<Scalar>, opening: string)
    ensures ListText(field, values, opening).Ok? <==> ValidField(field) && values != [] && Null !in values
    ensures ValidField(field) && values != [] && Null !in values ==>
              var fs := Equalities(field, values);
              && (forall c | c in fs :: Plain(c))
              && ListText(field, values, opening) == Ok(opening + ChainText(" or ", fs) + ")")
  {
    if ValidField(field) && values != [] {
      EqualPartsCompile(field, values);
      if Null !in values {
        JoinIsTail(Equalities(field, values), " or ");
      }
    }
  }

  lemma AllCompileStep(first: Filter, others: seq<Filter>)
    requires ToOdata(first).Ok? <==> Supported(first)
    requires Supported(first) ==> Plain(Core(first)) && ToOdata(first) == Ok(Text(Core(first)))
    requires ToOdataAll(others).Ok? <==> forall c | c in others :: Supported(c)
    requires (forall c | c in others :: Supported(c)) ==>
               (forall c | c in CoreAll(others) :: Plain(c)) && ToOdataAll(others) == Ok(Texts(CoreAll(others)))
    ensures
      var fs := [first] + others;
      && (ToOdataAll(fs).Ok? <==> forall c | c in fs :: Supported(c))
      && ((forall c | c in fs :: Supported(c)) ==>
            (forall c | c in CoreAll(fs) :: Plain(c)) && ToOdataAll(fs) == Ok(Texts(CoreAll(fs))))
  {
    hide ToOdata, Supported, Core, Text, Plain;
    var fs := [first] + others;
    assert fs[1..] == others && fs[0] == first;
    if forall c | c in fs :: Supported(c) {
      assert Supported(fs[0]);
      assert CoreAll(fs) == [Core(first)] + CoreAll(others);
      assert CoreAll(fs)[1..] == CoreAll(others);
    }
  }

  lemma {:induction false} AllCompile(fs: seq<Filter>)
    ensures ToOdataAll(fs).Ok? <==> forall c | c in fs :: Supported(c)
    ensures (forall c | c in fs :: Supported(c)) ==>
              (forall c | c in CoreAll(fs) :: Plain(c)) && ToOdataAll(fs) == Ok(Texts(CoreAll(fs)))
    decreases fs
  {
    if fs != [] {
      hide ToOdata, ToOdataAll, Supported, Core, CoreAll, Text, Texts, Plain;
      CompilesToText(fs[0]);
      AllCompile(fs[1..]);
      AllCompileStep(fs[0], fs[1..]);
      assert fs == [fs[0]] + fs[1..];
    }
  }

  // ------------------------------------------------------------- lexing the text

  function Append(ts: seq<Token>, rest: Option<seq<Token>>): Option<seq<Token>> {
    if rest.Some? then Some(ts + rest.value) else None
  }

  lemma AppendAppend(a: seq<Token>, b: seq<Token>, rest: Option<seq<Token>>)
    ensures Append(a, Append(b, rest)) == Append(a + b, rest)
  {
    if rest.Some? {
      assert a + (b + rest.value) == (a + b) + rest.value;
    }
  }

  lemma AppendNone(rest: Option<seq<Token>>)
    ensures Append([], rest) == rest
  {
    if rest.Some? {
      assert [] + rest.value == rest.value;
    }
  }

  /** What may follow an expression: nothing, a blank or a closing parenthesis. */
  predicate Boundary(r: string) {
    r == [] || r[0] == ' ' || r[0] == ')'
  }

  predicate IsWord(w: string) {
    w != [] && forall i | 0 <= i < |w| :: WordChar(w[i])
  }

  lemma {:induction false} WordLengthIs(w: string, r: string)
    requires (forall i | 0 <= i < |w| :: WordChar(w[i])) && (r == [] || !WordChar(r[0]))
    ensures WordLength(w + r) == |w|
  {
    if w == [] {
      assert w + r == r;
    } else {
      assert (w + r)[1..] == w[1..] + r;
      WordLengthIs(w[1..], r);
    }
  }

  lemma LexWord(w: string, r: string)
    requires IsWord(w) && Boundary(r)
    ensures Lex(w + r) == Append([Word(w)], Lex(r))
  {
    WordLengthIs(w, r);
    assert (w + r)[0] == w[0] && (w + r)[..|w|] == w && (w + r)[|w|..] == r;
  }

  lemma LexBlank(r: string)
    ensures Lex(" " + r) == Lex(r)
  {
  }

  lemma LexOpen(r: string)
    ensures Lex("(" + r) == Append([Open], Lex(r))
  {
  }

  lemma LexClose(r: string)
    ensures Lex(")" + r) == Append([Close], Lex(r))
  {
  }

  lemma {:induction false} EscapedReads(s: string, r: string)
    requires r == [] || r[0] != '\''
    ensures ReadQuoted(Escape(s) + "'" + r) == Some((s, r))
  {
    var q := Escape(s) + "'" + r;
    if s == [] {
      assert q[0] == '\'' && q[1..] == r && (|q| > 1 ==> q[1] == r[0]);
    } else {
      EscapedReads(s[1..], r);
      var inner := Escape(s[1..]) + "'" + r;
      if s[0] == '\'' {
        assert q == "''" + inner;
        assert q[0] == '\'' && q[1] == '\'' && q[2..] == inner;
      } else {
        assert q == [s[0]] + inner;
        assert q[1..] == inner;
      }
      assert [s[0]] + s[1..] == s;
    }
  }

  lemma LexAtQuote(prefix: string, body: string, content: string, r: string)
    requires forall i | 0 <= i < |prefix| :: WordChar(prefix[i])
    requires ReadQuoted(body) == Some((content, r))
    ensures Lex(prefix + (['\''] + body)) == Append([Quoted(prefix, content)], Lex(r))
  {
    hide ReadQuoted, WordLength;
    var q := prefix + (['\''] + body);
    WordLengthIs(prefix, ['\''] + body);
    assert q[|prefix|] == '\'' && q[..|prefix|] == prefix && q[|prefix| + 1..] == body;
    assert q[0] != ' ' && q[0] != '(' && q[0] != ')';
  }

  lemma LexQuoted(prefix: string, content: string, escaped: string, r: string)
    requires prefix in {"", "X", "datetime"} && escaped == Escape(content) && Boundary(r)
    ensures Lex(prefix + "'" + escaped + "'" + r) == Append([Quoted(prefix, content)], Lex(r))
  {
    hide Lex, ReadQuoted, Escape;
    EscapedReads(content, r);
    LexAtQuote(prefix, escaped + "'" + r, content, r);
    assert prefix + "'" + escaped + "'" + r == prefix + (['\''] + (escaped + "'" + r));
  }

  lemma {:induction false} HexNeedsNoEscape(bytes: seq<Byte>)
    ensures Escape(HexText(bytes)) == HexText(bytes)
  {
    if bytes != [] {
      HexNeedsNoEscape(bytes[1..]);
      var h := HexText(bytes);
      assert h[1..][1..] == HexText(bytes[1..]);
      assert Escape(h) == [h[0]] + ([h[1]] + Escape(h[1..][1..]));
    }
  }

  lemma IntIsWord(i: int)
    ensures IsWord(IntText(i)) && IsWord(IntText(i) + "L")
  {
  }

  lemma BoolIsWord()
    ensures IsWord("true") && IsWord("false")
  {
  }

  lemma FloatIsWord(s: FloatText)
    ensures IsWord(s)
  {
  }

  lemma LexLiteral(v: Scalar, r: string)
    requires !v.Null? && Boundary(r)
    ensures Lex(LiteralText(v) + r) == Append([LiteralToken(v)], Lex(r))
  {
    hide Lex, Escape, HexText, IntText, IsWord, Append;
    match v
    case Bool(flag) => BoolIsWord(); LexWord(if flag then "true" else "false", r);
    case Int32(i) => IntIsWord(i); LexWord(IntText(i), r);
    case Int64(i) => IntIsWord(i); LexWord(IntText(i) + "L", r);
    case Float64(literal) => FloatIsWord(literal); LexWord(literal, r);
    case Str(text) =>
      LexQuoted("", text, Escape(text), r);
      assert LiteralText(v) + r == "" + "'" + Escape(text) + "'" + r;
    case Binary(bytes) =>
      HexNeedsNoEscape(bytes);
      LexQuoted("X", HexText(bytes), HexText(bytes), r);
      assert LiteralText(v) + r == "X" + "'" + HexText(bytes) + "'" + r;
    case Timestamp(stamp) =>
      LexQuoted("datetime", stamp, Escape(stamp), r);
      assert LiteralText(v) + r == "datetime" + "'" + Escape(stamp) + "'" + r;
  }

  lemma LexSpaced(w: string, r: string)
    requires IsWord(w)
    ensures Lex(w + " " + r) == Append([Word(w)], Lex(r))
  {
    LexWord(w, " " + r);
    LexBlank(r);
    assert w + " " + r == w + (" " + r);
  }

  lemma LexLeaf(field: string, op: ComparisonOp, value: Scalar, r: string)
    requires ValidField(field) && !value.Null? && Boundary(r)
    ensures Lex(Text(Leaf(field, op, value)) + r) == Append(Tokens(Leaf(field, op, value)), Lex(r))
  {
    hide Lex, Append, LiteralText, LiteralToken;
    var literal := LiteralText(value) + r;
    LexLiteral(value, r);
    LexSpaced(OpText(op), literal);
    LexSpaced(field, OpText(op) + " " + literal);
    AppendAppend([Word(OpText(op))], [LiteralToken(value)], Lex(r));
    AppendAppend([Word(field)], [Word(OpText(op))] + [LiteralToken(value)], Lex(r));
    assert [Word(field)] + ([Word(OpText(op))] + [LiteralToken(value)]) == Tokens(Leaf(field, op, value));
    assert Text(Leaf(field, op, value)) + r == field + " " + (OpText(op) + " " + literal);
  }

  lemma LexParen(s: string, ts: seq<Token>, r: string)
    requires Lex(s + (")" + r)) == Append(ts, Lex(")" + r))
    ensures Lex(Paren(s) + r) == Append(Bracketed(ts), Lex(r))
  {
    hide Lex, Append;
    LexClose(r);
    LexOpen(s + (")" + r));
    AppendAppend(ts, [Close], Lex(r));
    AppendAppend([Open], ts + [Close], Lex(r));
    assert [Open] + (ts + [Close]) == Bracketed(ts);
    assert Paren(s) + r == "(" + (s + (")" + r));
  }

  lemma LexNot(s: string, ts: seq<Token>, r: string)
    requires Lex(s + r) == Append(ts, Lex(r))
    ensures Lex("not " + s + r) == Append([Word("not")] + ts, Lex(r))
  {
    hide Lex, Append;
    LexSpaced("not", s + r);
    AppendAppend([Word("not")], ts, Lex(r));
    assert "not " + s + r == "not" + " " + (s + r);
  }

  /** Text up to a boundary is lexed to the filter's tokens, whatever follows. */
  lemma {:induction false} LexText(f: Node, r: string)
    requires Plain(f) && Boundary(r)
    ensures Lex(Text(f) + r) == Append(Tokens(f), Lex(r))
    decreases f, 0
  {
    hide Lex, Append, Paren, Bracketed, ChainText, ChainTokens;
    match f
    case Leaf(field, op, value) => LexLeaf(field, op, value, r);
    case All(children) => LexChain("and", " and ", children, r);
    case Any(children) =>
      LexChain("or", " or ", children, ")" + r);
      LexParen(ChainText(" or ", children), ChainTokens("or", children), r);
    case No(inner) =>
      LexText(inner, ")" + r);
      LexParen(Text(inner), Tokens(inner), r);
      LexNot(Paren(Text(inner)), Bracketed(Tokens(inner)), r);
    case NoneOf(children) =>
      LexChain("or", " or ", children, ")" + r);
      LexParen(ChainText(" or ", children), ChainTokens("or", children), r);
      LexNot(Paren(ChainText(" or ", children)), Bracketed(ChainTokens("or", children)), r);
  }

  lemma LexChain(word: string, separator: string, fs: seq<Node>, r: string)
    requires word in {"and", "or"} && separator == " " + word + " " && Boundary(r)
    requires fs != [] && forall c | c in fs :: Plain(c)
    ensures Lex(ChainText(separator, fs) + r) == Append(ChainTokens(word, fs), Lex(r))
    decreases fs, 1
  {
    hide Lex, Append, Text, Tokens, Plain, TailText, TailTokens;
    LexTail(word, separator, fs[1..], r);
    LexText(fs[0], TailText(separator, fs[1..]) + r);
    LexJoined(Text(fs[0]), TailText(separator, fs[1..]), Tokens(fs[0]), TailTokens(word, fs[1..]), r);
  }

  lemma {:induction false} LexTail(word: string, separator: string, fs: seq<Node>, r: string)
    requires word in {"and", "or"} && separator == " " + word + " " && Boundary(r) && forall c | c in fs :: Plain(c)
    ensures Boundary(TailText(separator, fs) + r)
    ensures Lex(TailText(separator, fs) + r) == Append(TailTokens(word, fs), Lex(r))
    decreases fs
  {
    hide Lex, Append, Text, Tokens, Plain, IsWord;
    if fs == [] {
      assert TailText(separator, fs) + r == r;
      AppendNone(Lex(r));
    } else {
      var s := Text(fs[0]) + TailText(separator, fs[1..]);
      LexTail(word, separator, fs[1..], r);
      LexText(fs[0], TailText(separator, fs[1..]) + r);
      LexJoined(Text(fs[0]), TailText(separator, fs[1..]), Tokens(fs[0]), TailTokens(word, fs[1..]), r);
      AreWords();
      LexSeparated(word, separator, s, Tokens(fs[0]) + TailTokens(word, fs[1..]), r);
    }
  }

  lemma AreWords()
    ensures IsWord("and") && IsWord("or")
  {
  }

  lemma LexJoined(s: string, t: string, ss: seq<Token>, ts: seq<Token>, r: string)
    requires Lex(s + (t + r)) == Append(ss, Lex(t + r)) && Lex(t + r) == Append(ts, Lex(r))
    ensures Lex(s + t + r) == Append(ss + ts, Lex(r))
  {
    hide Lex, Append;
    AppendAppend(ss, ts, Lex(r));
    assert s + t + r == s + (t + r);
  }

  lemma LexSeparated(word: string, separator: string, s: string, ts: seq<Token>, r: string)
    requires IsWord(word) && separator == " " + word + " " && Lex(s + r) == Append(ts, Lex(r))
    ensures Lex(separator + s + r) == Append([Word(word)] + ts, Lex(r))
    ensures Boundary(separator + s + r)
  {
    hide Lex, Append, IsWord;
    LexSpaced(word, s + r);
    LexBlank(word + " " + (s + r));
    AppendAppend([Word(word)], ts, Lex(r));
    assert separator + s + r == " " + (word + " " + (s + r));
  }

  // --------------------------------------------------------- reading a literal

  lemma {:induction false} NatReadsBack(n: nat)
    ensures Digits(NatText(n)) && ReadNat(NatText(n)) == n
  {
    if n >= 10 {
      NatReadsBack(n / 10);
      var s := NatText(n);
      assert s[..|s| - 1] == NatText(n / 10) && |s| > 1;
    }
  }

  lemma IntReadsBack(i: int)
    ensures ReadInt(IntText(i)) == Some(i)
  {
    hide NatText, ReadNat;
    if i < 0 {
      NatReadsBack(-i);
      assert IntText(i)[1..] == NatText(-i) && !IsDigit(IntText(i)[0]);
    } else {
      NatReadsBack(i);
    }
  }

  lemma {:induction false} HexReadsBack(bytes: seq<Byte>)
    ensures ReadHex(HexText(bytes)) == Some(bytes)
  {
    if bytes != [] {
      HexReadsBack(bytes[1..]);
      var h := HexText(bytes);
      assert h[2..] == HexText(bytes[1..]);
      assert [bytes[0]] + bytes[1..] == bytes;
    }
  }

  lemma IntHasNoSuffix(i: int)
    ensures IntText(i) != [] && (IntText(i)[0] == '-' || IsDigit(IntText(i)[0]))
    ensures ReadInt(IntText(i) + "L").None?
  {
  }

  lemma Int64ReadsBack(i: int)
    ensures ReadLiteral(Word(IntText(i) + "L")) == Some(Int64(i))
  {
    hide IntText, ReadInt;
    IntReadsBack(i);
    IntHasNoSuffix(i);
    var w := IntText(i) + "L";
    assert w[..|w| - 1] == IntText(i) && w[0] == IntText(i)[0];
  }

  lemma Int32ReadsBack(i: int)
    ensures ReadLiteral(Word(IntText(i))) == Some(Int32(i))
  {
    hide ReadInt;
    IntReadsBack(i);
    IntHasNoSuffix(i);
  }

  lemma FloatReadsBack(literal: FloatText)
    ensures ReadLiteral(Word(literal)) == if Infinite(Float64(literal)) then None else Some(Float64(literal))
  {
  }

  /** A literal is read back as the value it was written for, unless that is infinite; then it has no reading. */
  lemma LiteralReadsBack(v: Scalar)
    requires !v.Null?
    ensures ReadLiteral(LiteralToken(v)) == if Infinite(v) then None else Some(v)
  {
    match v
    case Bool(_) =>
    case Int32(i) => Int32ReadsBack(i);
    case Int64(i) => Int64ReadsBack(i);
    case Float64(literal) => FloatReadsBack(literal);
    case Str(_) =>
    case Binary(bytes) => HexReadsBack(bytes);
    case Timestamp(_) =>
  }

  // ------------------------------------------------------------- reading tokens

  /** No field is a word the reader keeps for itself, and no value infinite. */
  predicate Free(f: Node) {
    match f
    case Leaf(field, _, value) => field !in KEYWORDS && !Infinite(value)
    case All(children) => AllFree(children)
    case Any(children) => AllFree(children)
    case No(inner) => Free(inner)
    case NoneOf(children) => AllFree(children)
  }

  predicate AllFree(fs: seq<Node>) {
    forall c | c in fs :: Free(c)
  }

  /** The tree the reader builds: nested conjunctions fold into one chain. */
  function Tree(f: Node): Expr
    requires Plain(f)
    decreases f, 0
  {
    match f
    case Leaf(field, op, value) => Atom(field, op, value)
    case All(children) => GlueAll(Tree(children[0]), children[1..])
    case Any(children) => OrAll(Tree(children[0]), children[1..])
    case No(inner) => NotE(Tree(inner))
    case NoneOf(children) => NotE(OrAll(Tree(children[0]), children[1..]))
  }

  function Glue(acc: Expr, f: Node): Expr
    requires Plain(f)
    decreases f, 1
  {
    if f.All? then GlueAll(Glue(acc, f.children[0]), f.children[1..]) else AndE(acc, Tree(f))
  }

  function GlueAll(acc: Expr, fs: seq<Node>): Expr
    requires forall c | c in fs :: Plain(c)
    decreases fs
  {
    if fs == [] then acc else GlueAll(Glue(acc, fs[0]), fs[1..])
  }

  function OrAll(acc: Expr, fs: seq<Node>): Expr
    requires forall c | c in fs :: Plain(c)
    decreases fs
  {
    if fs == [] then acc else OrAll(OrE(acc, Tree(fs[0])), fs[1..])
  }

  predicate NoAnd(ts: seq<Token>) { ts != [] ==> ts[0] != Word("and") }
  predicate NoOr(ts: seq<Token>) { ts != [] ==> ts[0] != Word("or") }

  lemma OpReadsBack(op: ComparisonOp)
    ensures ReadOp(Word(OpText(op))) == Some(op)
    ensures OpText(op) in KEYWORDS && OpText(op) != "not" && "not" in KEYWORDS
  {
  }

  lemma CompareReads(field: string, op: ComparisonOp, value: Scalar, rest: seq<Token>)
    requires !value.Null?
    ensures ReadUnary([Word(field), Word(OpText(op)), LiteralToken(value)] + rest)
            == if field !in KEYWORDS && !Infinite(value) then Some((Atom(field, op, value), rest)) else None
  {
    var ts := [Word(field), Word(OpText(op)), LiteralToken(value)] + rest;
    LiteralReadsBack(value);
    OpReadsBack(op);
    hide LiteralToken, ReadLiteral, ReadOr, ReadAnd, LiteralText, ReadOp, OpText, Infinite;
    assert ts[0] == Word(field) && ts[1] == Word(OpText(op)) && ts[2] == LiteralToken(value) && ts[3..] == rest;
    if field == "not" {
      assert ts[1..][0] == Word(OpText(op));
      assert ReadUnary(ts[1..]).None?;
    }
  }

  lemma GroupReads(inner: seq<Token>, e: Option<Expr>, rest: seq<Token>)
    requires ReadOr(inner + ([Close] + rest)) == (if e.Some? then Some((e.value, [Close] + rest)) else None)
    ensures ReadUnary(Bracketed(inner) + rest) == if e.Some? then Some((e.value, rest)) else None
  {
    hide ReadOr;
    var ts := Bracketed(inner) + rest;
    assert ts[0] == Open && ts[1..] == inner + ([Close] + rest);
    assert ([Close] + rest)[1..] == rest;
  }

  lemma NotReads(ts: seq<Token>, e: Option<Expr>, rest: seq<Token>)
    requires ReadUnary(ts + rest) == (if e.Some? then Some((e.value, rest)) else None)
    ensures ReadUnary([Word("not")] + ts + rest) == if e.Some? then Some((NotE(e.value), rest)) else None
  {
    var all := [Word("not")] + ts + rest;
    assert all[0] == Word("not") && all[1..] == ts + rest;
  }

  function FreeTree(f: Node): Option<Expr>
    requires Plain(f)
  {
    if Free(f) then Some(Tree(f)) else None
  }

  function FreeOr(fs: seq<Node>): Option<Expr>
    requires fs != [] && forall c | c in fs :: Plain(c)
  {
    if AllFree(fs) then Some(OrAll(Tree(fs[0]), fs[1..])) else None
  }

  /** A parenthesised disjunction is read as one operand. */
  lemma AnyReads(fs: seq<Node>, rest: seq<Token>)
    requires fs != [] && forall c | c in fs :: Plain(c)
    ensures ReadUnary(Bracketed(ChainTokens("or", fs)) + rest)
            == if FreeOr(fs).Some? then Some((FreeOr(fs).value, rest)) else None
    decreases fs, 3
  {
    hide ReadUnary, ReadAnd, ReadOr, AndTail, Tokens, TailTokens, Plain, Bracketed, Free, OrAll, Tree;
    var closing, tail := [Close] + rest, TailTokens("or", fs[1..]);
    TailStarts("or", fs[1..], closing);
    OrReads(fs[0], tail + closing);
    OrTailReads(Tree(fs[0]), fs[1..], closing);
    assert ChainTokens("or", fs) + closing == Tokens(fs[0]) + (tail + closing);
    AllFreeSplit(fs);
    GroupReads(ChainTokens("or", fs), FreeOr(fs), rest);
  }

  lemma TailStarts(word: string, fs: seq<Node>, rest: seq<Token>)
    requires forall c | c in fs :: Plain(c)
    ensures (TailTokens(word, fs) + rest) == rest || (TailTokens(word, fs) + rest)[0] == Word(word)
  {
  }

  lemma AllFreeSplit(fs: seq<Node>)
    requires fs != []
    ensures AllFree(fs) <==> Free(fs[0]) && AllFree(fs[1..])
  {
  }

  /** A parenthesised filter is read as one operand. */
  lemma ParenReads(f: Node, rest: seq<Token>)
    requires Plain(f)
    ensures ReadUnary(Bracketed(Tokens(f)) + rest) == if Free(f) then Some((Tree(f), rest)) else None
    decreases f, 3
  {
    hide ReadUnary, ReadAnd, AndTail, Tokens, Plain, Free, Bracketed;
    OrReads(f, [Close] + rest);
    GroupReads(Tokens(f), FreeTree(f), rest);
  }

  /** A comparison, disjunction or negation is read as one operand; a reserved field stops the reader. */
  lemma {:induction false} UnaryReads(f: Node, rest: seq<Token>)
    requires Plain(f) && !f.All?
    ensures ReadUnary(Tokens(f) + rest) == if Free(f) then Some((Tree(f), rest)) else None
    decreases f, 0
  {
    hide ReadUnary, ReadOr, LiteralToken, Bracketed, ChainTokens;
    if f.Leaf? {
      CompareReads(f.field, f.op, f.value, rest);
    } else if f.No? {
      ParenReads(f.inner, rest);
      NotReads(Bracketed(Tokens(f.inner)), FreeTree(f.inner), rest);
    } else {
      AnyReads(f.children, rest);
      if f.NoneOf? {
        NotReads(Bracketed(ChainTokens("or", f.children)), FreeOr(f.children), rest);
      }
    }
  }

  /** Any filter is read as a chain of operands that goes on with whatever follows. */
  lemma {:induction false} AndReads(f: Node, rest: seq<Token>)
    requires Plain(f)
    ensures ReadAnd(Tokens(f) + rest) == if Free(f) then AndTail(Tree(f), rest) else None
    decreases f, 1
  {
    hide ReadUnary, AndTail, TailTokens;
    if f.All? {
      var fs := f.children;
      var tail := TailTokens("and", fs[1..]) + rest;
      AndReads(fs[0], tail);
      AndTailReads(Tree(fs[0]), fs[1..], rest);
      assert Tokens(f) + rest == Tokens(fs[0]) + tail;
      AllFreeSplit(fs);
    } else {
      UnaryReads(f, rest);
    }
  }

  lemma AndStep(acc: Expr, ts: seq<Token>, e: Option<Expr>, rest: seq<Token>)
    requires ReadUnary(ts) == (if e.Some? then Some((e.value, rest)) else None)
    ensures AndTail(acc, [Word("and")] + ts) == if e.Some? then AndTail(AndE(acc, e.value), rest) else None
  {
  }

  lemma {:induction false} GlueReads(acc: Expr, f: Node, rest: seq<Token>)
    requires Plain(f)
    ensures AndTail(acc, [Word("and")] + (Tokens(f) + rest)) == if Free(f) then AndTail(Glue(acc, f), rest) else None
    decreases f, 1
  {
    hide ReadUnary, AndTail, TailTokens;
    if f.All? {
      var fs := f.children;
      var tail := TailTokens("and", fs[1..]) + rest;
      GlueReads(acc, fs[0], tail);
      AndTailReads(Glue(acc, fs[0]), fs[1..], rest);
      assert Tokens(f) + rest == Tokens(fs[0]) + tail;
      AllFreeSplit(fs);
    } else {
      UnaryReads(f, rest);
      AndStep(acc, Tokens(f) + rest, FreeTree(f), rest);
    }
  }

  lemma TailAppends(word: string, fs: seq<Node>, rest: seq<Token>)
    requires (forall c | c in fs :: Plain(c)) && fs != []
    ensures TailTokens(word, fs) + rest == [Word(word)] + (Tokens(fs[0]) + (TailTokens(word, fs[1..]) + rest))
  {
    hide Tokens, Plain;
  }

  lemma {:induction false} AndTailReads(acc: Expr, fs: seq<Node>, rest: seq<Token>)
    requires forall c | c in fs :: Plain(c)
    ensures AndTail(acc, TailTokens("and", fs) + rest) == if AllFree(fs) then AndTail(GlueAll(acc, fs), rest) else None
    decreases fs
  {
    hide AndTail, Tokens, Plain, Free, Glue;
    if fs == [] {
      assert TailTokens("and", fs) + rest == rest;
    } else {
      hide TailTokens, AllFree;
      var tail := TailTokens("and", fs[1..]) + rest;
      GlueReads(acc, fs[0], tail);
      AndTailReads(Glue(acc, fs[0]), fs[1..], rest);
      TailAppends("and", fs, rest);
      AllFreeSplit(fs);
    }
  }

  lemma OrReads(f: Node, rest: seq<Token>)
    requires Plain(f) && NoAnd(rest)
    ensures ReadOr(Tokens(f) + rest) == if Free(f) then OrTail(Tree(f), rest) else None
    ensures ReadAnd(Tokens(f) + rest) == if Free(f) then Some((Tree(f), rest)) else None
    decreases f, 2
  {
    hide ReadAnd, Tokens, Plain, Free, Tree;
    AndReads(f, rest);
  }

  lemma OrStep(acc: Expr, ts: seq<Token>, e: Option<Expr>, rest: seq<Token>)
    requires ReadAnd(ts) == (if e.Some? then Some((e.value, rest)) else None)
    ensures OrTail(acc, [Word("or")] + ts) == if e.Some? then OrTail(OrE(acc, e.value), rest) else None
  {
  }

  lemma OrStops(acc: Expr, rest: seq<Token>)
    requires NoOr(rest)
    ensures OrTail(acc, rest) == Some((acc, rest))
  {
  }

  lemma {:induction false} OrTailReads(acc: Expr, fs: seq<Node>, rest: seq<Token>)
    requires (forall c | c in fs :: Plain(c)) && NoAnd(rest) && NoOr(rest)
    ensures OrTail(acc, TailTokens("or", fs) + rest) == if AllFree(fs) then Some((OrAll(acc, fs), rest)) else None
    decreases fs
  {
    hide OrTail, ReadAnd, ReadOr, Tokens, Plain, Free, Tree;
    if fs == [] {
      assert TailTokens("or", fs) + rest == rest;
      OrStops(acc, rest);
    } else {
      var tail := TailTokens("or", fs[1..]) + rest;
      TailStarts("or", fs[1..], rest);
      OrReads(fs[0], tail);
      OrStep(acc, Tokens(fs[0]) + tail, FreeTree(fs[0]), tail);
      OrTailReads(OrE(acc, Tree(fs[0])), fs[1..], rest);
      TailAppends("or", fs, rest);
      AllFreeSplit(fs);
    }
  }

  // ------------------------------------------------------ the tree's meaning

  lemma {:induction false} TreeMeans(f: Node, holds: Valuation)
    requires Plain(f)
    ensures Tree(f).Eval(holds) == Means(f, holds)
    decreases f, 0
  {
    match f
    case Leaf(_, _, _) =>
    case NoneOf(children) =>
      TreeMeans(children[0], holds);
      OrAllMeans(Tree(children[0]), children[1..], holds);
      assert children == [children[0]] + children[1..];
    case All(children) =>
      TreeMeans(children[0], holds);
      GlueAllMeans(Tree(children[0]), children[1..], holds);
      assert children == [children[0]] + children[1..];
    case Any(children) =>
      TreeMeans(children[0], holds);
      OrAllMeans(Tree(children[0]), children[1..], holds);
      assert children == [children[0]] + children[1..];
    case No(inner) => TreeMeans(inner, holds);
  }

  lemma {:induction false} GlueMeans(acc: Expr, f: Node, holds: Valuation)
    requires Plain(f)
    ensures Glue(acc, f).Eval(holds) == (acc.Eval(holds) && Means(f, holds))
    decreases f, 1
  {
    if f.All? {
      GlueMeans(acc, f.children[0], holds);
      GlueAllMeans(Glue(acc, f.children[0]), f.children[1..], holds);
      assert f.children == [f.children[0]] + f.children[1..];
    } else {
      TreeMeans(f, holds);
    }
  }

  lemma {:induction false} GlueAllMeans(acc: Expr, fs: seq<Node>, holds: Valuation)
    requires forall c | c in fs :: Plain(c)
    ensures GlueAll(acc, fs).Eval(holds) == (acc.Eval(holds) && forall c | c in fs :: Means(c, holds))
    decreases fs
  {
    if fs != [] {
      GlueMeans(acc, fs[0], holds);
      GlueAllMeans(Glue(acc, fs[0]), fs[1..], holds);
      assert fs == [fs[0]] + fs[1..];
    }
  }

  lemma {:induction false} OrAllMeans(acc: Expr, fs: seq<Node>, holds: Valuation)
    requires forall c | c in fs :: Plain(c)
    ensures OrAll(acc, fs).Eval(holds) == (acc.Eval(holds) || exists c | c in fs :: Means(c, holds))
    decreases fs
  {
    if fs != [] {
      TreeMeans(fs[0], holds);
      OrAllMeans(OrE(acc, Tree(fs[0])), fs[1..], holds);
      assert fs == [fs[0]] + fs[1..];
    }
  }

  // ---------------------------------------------------------------- theorems

  /** No field of the filter is a word the reader keeps for itself, and no value of it is infinite. */
  predicate Readable(f: Filter) {
    match f
    case Compare(field, _, value) => field !in KEYWORDS && !Infinite(value)
    case InList(field, values) => field !in KEYWORDS && forall v | v in values :: !Infinite(v)
    case NotInList(field, values) => field !in KEYWORDS && forall v | v in values :: !Infinite(v)
    case And(children) => forall c | c in children :: Readable(c)
    case Or(children) => forall c | c in children :: Readable(c)
    case Not(inner) => Readable(inner)
    case _ => true
  }

  lemma EqualitiesFree(field: string, values: seq<Scalar>)
    requires values != []
    ensures AllFree(Equalities(field, values)) <==> field !in KEYWORDS && forall v | v in values :: !Infinite(v)
  {
    hide Infinite;
    var fs := Equalities(field, values);
    forall i | 0 <= i < |values|
      ensures fs[i] in fs && (Free(fs[i]) <==> field !in KEYWORDS && !Infinite(values[i]))
    {
      assert fs[i] == Leaf(field, Eq, values[i]);
    }
    assert values[0] in values;
    assert AllFree(fs) <==> forall i | 0 <= i < |fs| :: Free(fs[i]);
    assert (forall v | v in values :: !Infinite(v)) <==> forall i | 0 <= i < |values| :: !Infinite(values[i]);
  }

  lemma {:induction false} CoreIsFree(f: Filter)
    requires Supported(f)
    ensures Free(Core(f)) == Readable(f)
  {
    if f.InList? || f.NotInList? {
      EqualitiesFree(f.field, f.values);
    } else if f.And? || f.Or? {
      forall i | 0 <= i < |f.children|
        ensures Free(CoreAll(f.children)[i]) == Readable(f.children[i])
      {
        CoreIsFree(f.children[i]);
      }
      var cores := CoreAll(f.children);
      assert AllFree(cores) <==> forall i | 0 <= i < |cores| :: Free(cores[i]);
    } else if f.Not? {
      CoreIsFree(f.inner);
    }
  }

  lemma PlainReads(f: Node)
    requires Plain(f)
    ensures Read(Text(f)) == if Free(f) then Some(Tree(f)) else None
  {
    LexText(f, "");
    assert Text(f) + "" == Text(f) && Tokens(f) + [] == Tokens(f);
    OrReads(f, []);
  }

  /**
    A supported filter's string is read back exactly when no field is a
    reserved word, and then as an expression with the filter's truth value
    under every valuation.
  */
  lemma CompiledFilterReadsBack(f: Filter)
    requires Supported(f)
    ensures ToOdata(f).Ok?
    ensures Read(ToOdata(f).value).Some? <==> Readable(f)
    ensures Readable(f) ==> forall holds: Valuation :: Read(ToOdata(f).value).value.Eval(holds) == Eval(f, holds)
  {
    CompilesToText(f);
    CoreIsFree(f);
    PlainReads(Core(f));
    forall holds: Valuation
      ensures Tree(Core(f)).Eval(holds) == Eval(f, holds)
    {
      TreeMeans(Core(f), holds);
      CoreMeansTheSame(f, holds);
    }
  }

  const NOT_IS_ONE := Compare("not", Eq, Int32(1))

  lemma NotIsOneText()
    ensures ToOdata(NOT_IS_ONE) == Ok("not eq 1")
    ensures Core(NOT_IS_ONE) == Leaf("not", Eq, Int32(1))
    ensures Plain(Core(NOT_IS_ONE)) && Text(Core(NOT_IS_ONE)) == "not eq 1"
    ensures Tokens(Core(NOT_IS_ONE)) == [Word("not"), Word("eq"), Word("1")]
  {
    assert NatText(1) == "1" && IntText(1) == "1";
    assert ValueText(Int32(1)) == Ok("1");
    assert "not" + " " + "eq" + " " + "1" == "not eq 1";
    CompilesToText(NOT_IS_ONE);
  }

  lemma EqIsNoOperand()
    ensures ReadUnary([Word("not"), Word("eq"), Word("1")]).None?
  {
    var ts := [Word("not"), Word("eq"), Word("1")];
    assert ts[1..] == [Word("eq"), Word("1")];
    assert ReadUnary(ts[1..]).None?;
  }

  /**
    A field that spells `not` passes for a field, and what it compiles to has
    no reading: an operand must follow the `not`, and `eq` is none. The
    reader's list of words has no part in this.
  */
  lemma ReservedFieldIsLost()
    ensures ValidField("not") && ToOdata(NOT_IS_ONE) == Ok("not eq 1") && Read("not eq 1").None?
  {
    NotIsOneText();
    EqIsNoOperand();
    hide ReadUnary, Text, Tokens, Core, ToOdata;
    LexText(Core(NOT_IS_ONE), "");
    assert "not eq 1" + "" == "not eq 1";
    assert [Word("not"), Word("eq"), Word("1")] + [] == [Word("not"), Word("eq"), Word("1")];
  }

  /** A letter or `_`, then letters, digits and `_`, is a field: it compiles in a comparison with any value but null. */
  lemma FieldsCompile(first: char, more: string, op: ComparisonOp, value: Scalar)
    requires 'a' <= first <= 'z' || 'A' <= first <= 'Z' || first == '_'
    requires forall c | c in more :: 'a' <= c <= 'z' || 'A' <= c <= 'Z' || '0' <= c <= '9' || c == '_'
    requires !value.Null?
    ensures ToOdata(Compare([first] + more, op, value)).Ok?
  {
    var field := [first] + more;
    assert field[0] == first && forall i | 0 < i < |field| :: field[i] == more[i - 1] && field[i] in more;
    assert ValidField(field);
    CompilesToText(Compare(field, op, value));
  }

  /** Nothing else is a field, and a comparison with null or with such a name is an error. */
  lemma OtherNamesAreRefused(field: string, op: ComparisonOp, value: Scalar)
    requires
      || field == ""
      || '0' <= field[0] <= '9'
      || value.Null?
      || exists i :: 0 <= i < |field| && field[i] in " '()\"-./,;=$%&\t\n"
    ensures ToOdata(Compare(field, op, value)).Err?
  {
    if i :| 0 <= i < |field| && field[i] in " '()\"-./,;=$%&\t\n" {
      NoneIsPlain(field[i]);
    }
    hide OpText, IntText, Escape, HexText;
  }

  lemma NoneIsPlain(c: char)
    requires c in " '()\"-./,;=$%&\t\n"
    ensures !IsLetter(c) && !IsDigit(c) && c != '_'
  {
  }

  /** The clause or the filter alone is the whole string; with neither there is none. */
  lemma PartsAlone(partition: string, compiled: string)
    ensures BuildFilter(None, None) == None && BuildFilter(None, Some(compiled)) == Some(compiled)
    ensures BuildFilter(Some(partition), None).Some?
    ensures var read := Read(BuildFilter(Some(partition), None).value);
            read.Some? && forall holds: Valuation :: read.value.Eval(holds) == holds("PartitionKey", Eq, Str(partition))
  {
    ClauseText(partition);
    ClauseIsPlain(partition);
    PlainReads(PartitionClause(partition));
    hide Escape;
    assert BuildFilter(Some(partition), None) == Some(Text(PartitionClause(partition)));
  }

  /** An infinite double compiles, and its spelling is no literal. */
  lemma InfinityIsLost()
    ensures ToOdata(Compare("size", Lt, Float64("inf"))) == Ok("size lt inf") && Read("size lt inf").None?
  {
    var f := Compare("size", Lt, Float64("inf"));
    CompiledFilterReadsBack(f);
    assert "size" + " " + "lt" + " " + "inf" == "size lt inf";
  }

  function PartitionClause(partition: string): Node {
    Leaf("PartitionKey", Eq, Str(partition))
  }

  lemma BothMean(a: Node, b: Node)
    ensures forall holds: Valuation :: Means(All([a, b]), holds) == (Means(a, holds) && Means(b, holds))
    ensures Free(All([a, b])) == (Free(a) && Free(b))
    ensures Plain(All([a, b])) == (Plain(a) && Plain(b))
  {
  }

  lemma ClauseText(partition: string)
    ensures Text(PartitionClause(partition)) == "PartitionKey eq '" + Escape(partition) + "'"
  {
    hide Escape;
  }

  lemma ClauseIsPlain(partition: string)
    ensures Plain(PartitionClause(partition)) && Free(PartitionClause(partition))
  {
  }

  /** The joined string is the conjunction's own text. */
  lemma JoinedText(partition: string, f: Filter)
    requires Supported(f) && ToOdata(f).Ok?
    ensures var both := All([PartitionClause(partition), Core(f)]);
            && Plain(both) && Free(both) == Readable(f)
            && BuildFilter(Some(partition), Some(ToOdata(f).value)) == Some(Text(both))
  {
    hide ToOdata, Core, Escape, Text, Plain, Free, Readable, BuildFilter, PartitionClause, Supported;
    var clause, core := PartitionClause(partition), Core(f);
    CompilesToText(f);
    CoreIsFree(f);
    BothMean(clause, core);
    ClauseText(partition);
    ClauseIsPlain(partition);
    JoinedTwo(partition, clause, core);
  }

  lemma JoinedTwo(partition: string, clause: Node, core: Node)
    requires Plain(clause) && Plain(core) && Plain(All([clause, core]))
    requires Text(clause) == "PartitionKey eq '" + Escape(partition) + "'"
    ensures BuildFilter(Some(partition), Some(Text(core))) == Some(Text(All([clause, core])))
  {
    hide Escape, Plain;
    var fs := [clause, core];
    JoinIsTail(fs, " and ");
    assert Text(All(fs)) == ChainText(" and ", fs);
    hide Text;
    assert fs[1..] == [core] && fs[1..][1..] == [];
    assert Texts(fs[1..]) == [Text(core)];
    assert Texts(fs) == [Text(clause), Text(core)];
  }

  /** Joined to a partition clause, the filter still means its own truth value and the clause's. */
  lemma PartitionedFilterReadsBack(partition: string, f: Filter)
    requires Supported(f)
    ensures ToOdata(f).Ok? && BuildFilter(Some(partition), Some(ToOdata(f).value)).Some?
    ensures var read := Read(BuildFilter(Some(partition), Some(ToOdata(f).value)).value);
            && (read.Some? <==> Readable(f))
            && (Readable(f) ==> forall holds: Valuation ::
                  read.value.Eval(holds) == (holds("PartitionKey", Eq, Str(partition)) && Eval(f, holds)))
  {
    CompilesToText(f);
    var both := All([PartitionClause(partition), Core(f)]);
    JoinedText(partition, f);
    PlainReads(both);
    BothMean(PartitionClause(partition), Core(f));
    forall holds: Valuation
      ensures Tree(both).Eval(holds) == (holds("PartitionKey", Eq, Str(partition)) && Eval(f, holds))
    {
      TreeMeans(both, holds);
      CoreMeansTheSame(f, holds);
    }
  }
}
