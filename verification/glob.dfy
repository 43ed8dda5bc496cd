/**
  Merge-policy globs over root-relative paths. A pattern is read as a list of
  tokens; each token stands for a language of byte strings and the list for
  their concatenation. The working form folds adjacent wildcards while it reads
  and fills a two-row table.
*/
module GlobModel {
  import opened Base

  type Bytes = seq<bv8>

  const SLASH: bv8 := 0x2F
  const STAR: bv8 := 0x2A
  const MARK: bv8 := 0x3F

  datatype Token = Byte(want: bv8) | One | Star | Dirs | All {
    predicate Wild() { Star? || Dirs? || All? }
    predicate NeedsByte() { Byte? || One? }
  }

  // ---------------------------------------------------------------- the meaning

  /** `?` one non-slash byte, `*` a slash-free run, `**` + slash empty or a run ending in one, else anything. */
  predicate Accepts(token: Token, s: Bytes) {
    match token
    case Byte(want) => s == [want]
    case One => |s| == 1 && s[0] != SLASH
    case Star => SLASH !in s
    case Dirs => s == [] || s[|s| - 1] == SLASH
    case All => true
  }

  function Concat(pieces: seq<Bytes>): Bytes {
    if pieces == [] then [] else Concat(pieces[..|pieces| - 1]) + pieces[|pieces| - 1]
  }

  /** `pieces` cuts `text` into one accepted piece for each token. */
  ghost predicate Cuts(tokens: seq<Token>, text: Bytes, pieces: seq<Bytes>) {
    && |pieces| == |tokens| && Concat(pieces) == text
    && forall i | 0 <= i < |tokens| :: Accepts(tokens[i], pieces[i])
  }

  ghost predicate Language(tokens: seq<Token>, text: Bytes) {
    exists pieces :: Cuts(tokens, text, pieces)
  }

  // ------------------------------------------------------------------- reading

  /** The token at the front of a pattern, and how many bytes spell it. */
  function FirstToken(pattern: Bytes): (r: (Token, nat))
    requires pattern != []
    ensures 1 <= r.1 <= |pattern|
  {
    if pattern[0] == STAR && |pattern| > 1 && pattern[1] == STAR then
      if |pattern| > 2 && pattern[2] == SLASH then (Dirs, 3) else (All, 2)
    else if pattern[0] == STAR then (Star, 1)
    else if pattern[0] == MARK then (One, 1)
    else (Byte(pattern[0]), 1)
  }

  /** Every token of a pattern, none folded. */
  function Lex(pattern: Bytes): seq<Token> {
    if pattern == [] then []
    else
      var (token, size) := FirstToken(pattern);
      [token] + Lex(pattern[size..])
  }

  function Pushed(tokens: seq<Token>, token: Token): seq<Token> {
    if tokens != [] && tokens[|tokens| - 1].Wild() && token.Wild() then
      var init, last := tokens[..|tokens| - 1], tokens[|tokens| - 1];
      if last.All? || token.All? then init + [All]
      else if last != token then tokens + [token]
      else tokens
    else tokens + [token]
  }

  // --------------------------------------------------- the language, by its end

  lemma TailAccepted(tokens: seq<Token>, token: Token, text: Bytes) returns (j: nat)
    requires Language(tokens + [token], text)
    ensures j <= |text| && Language(tokens, text[..j]) && Accepts(token, text[j..])
  {
    hide Accepts;
    var longer, n := tokens + [token], |tokens|;
    var pieces :| Cuts(longer, text, pieces);
    j := |Concat(pieces[..n])|;
    assert text[..j] == Concat(pieces[..n]) && text[j..] == pieces[n];
    forall i | 0 <= i < n
      ensures Accepts(tokens[i], pieces[..n][i])
    {
      assert Accepts(longer[i], pieces[i]);
    }
    assert Cuts(tokens, text[..j], pieces[..n]) && longer[n] == token;
  }

  lemma TailJoins(tokens: seq<Token>, token: Token, text: Bytes, j: nat)
    requires j <= |text| && Language(tokens, text[..j]) && Accepts(token, text[j..])
    ensures Language(tokens + [token], text)
  {
    hide Accepts;
    var pieces :| Cuts(tokens, text[..j], pieces);
    var more := pieces + [text[j..]];
    assert more[..|pieces|] == pieces;
    assert text[..j] + text[j..] == text;
    assert Cuts(tokens + [token], text, more);
  }

  /** A list ending in `token` accepts the texts with a tail the token accepts. */
  lemma LanguageSnoc(tokens: seq<Token>, token: Token, text: Bytes)
    ensures Language(tokens + [token], text) <==>
            exists j :: 0 <= j <= |text| && Language(tokens, text[..j]) && Accepts(token, text[j..])
  {
    hide Language, Accepts;
    if Language(tokens + [token], text) {
      var j := TailAccepted(tokens, token, text);
    }
    if j :| 0 <= j <= |text| && Language(tokens, text[..j]) && Accepts(token, text[j..]) {
      TailJoins(tokens, token, text, j);
    }
  }

  lemma LanguageEmpty(text: Bytes)
    ensures Language([], text) <==> text == []
  {
    assert Concat([]) == [];
    assert text == [] ==> Cuts([], text, []);
  }

  /** Two token lists with the same language keep it under the same tail. */
  lemma {:induction false} SameTail(a: seq<Token>, b: seq<Token>, tail: seq<Token>, text: Bytes)
    requires forall t: Bytes :: Language(a, t) == Language(b, t)
    ensures Language(a + tail, text) == Language(b + tail, text)
  {
    if tail == [] {
      assert a + tail == a && b + tail == b;
    } else {
      var init, last := tail[..|tail| - 1], tail[|tail| - 1];
      assert a + tail == (a + init) + [last] && b + tail == (b + init) + [last];
      LanguageSnoc(a + init, last, text);
      LanguageSnoc(b + init, last, text);
      forall j | 0 <= j <= |text|
        ensures Language(a + init, text[..j]) == Language(b + init, text[..j])
      {
        SameTail(a, b, init, text[..j]);
      }
    }
  }

  // --------------------------------------------------- the language, by its front

  lemma {:induction false} ConcatCons(piece: Bytes, pieces: seq<Bytes>)
    ensures Concat([piece] + pieces) == piece + Concat(pieces)
  {
    var all := [piece] + pieces;
    if pieces == [] {
      assert all[..0] == [] && Concat(all) == Concat([]) + piece;
    } else {
      var n := |pieces| - 1;
      assert all[..n + 1] == [piece] + pieces[..n];
      ConcatCons(piece, pieces[..n]);
      assert piece + (Concat(pieces[..n]) + pieces[n]) == piece + Concat(pieces[..n]) + pieces[n];
    }
  }

  lemma HeadAccepted(token: Token, tokens: seq<Token>, text: Bytes) returns (j: nat)
    requires Language([token] + tokens, text)
    ensures j <= |text| && Accepts(token, text[..j]) && Language(tokens, text[j..])
  {
    hide Accepts;
    var longer := [token] + tokens;
    var pieces :| Cuts(longer, text, pieces);
    j := |pieces[0]|;
    var others := pieces[1..];
    assert pieces == [pieces[0]] + others;
    ConcatCons(pieces[0], others);
    assert text[..j] == pieces[0] && text[j..] == Concat(others);
    forall i | 0 <= i < |tokens|
      ensures Accepts(tokens[i], others[i])
    {
      assert Accepts(longer[i + 1], pieces[i + 1]);
    }
    assert Cuts(tokens, text[j..], others) && Accepts(longer[0], pieces[0]);
  }

  lemma HeadJoins(token: Token, tokens: seq<Token>, text: Bytes, j: nat)
    requires j <= |text| && Accepts(token, text[..j]) && Language(tokens, text[j..])
    ensures Language([token] + tokens, text)
  {
    hide Accepts;
    var pieces :| Cuts(tokens, text[j..], pieces);
    ConcatCons(text[..j], pieces);
    assert text[..j] + text[j..] == text;
    assert Cuts([token] + tokens, text, [text[..j]] + pieces);
  }

  /** A list beginning with `token` accepts the texts with a head the token accepts. */
  lemma LanguageCons(token: Token, tokens: seq<Token>, text: Bytes)
    ensures Language([token] + tokens, text) <==>
            exists j :: 0 <= j <= |text| && Accepts(token, text[..j]) && Language(tokens, text[j..])
  {
    hide Language, Accepts;
    if Language([token] + tokens, text) {
      var j := HeadAccepted(token, tokens, text);
    }
    if j :| 0 <= j <= |text| && Accepts(token, text[..j]) && Language(tokens, text[j..]) {
      HeadJoins(token, tokens, text, j);
    }
  }

  // ------------------------------------------------------- what a pattern spells

  /** The pattern, read token by token, stands for the text. */
  ghost predicate Spells(pattern: Bytes, text: Bytes) {
    Language(Lex(pattern), text)
  }

  lemma NothingSpells(text: Bytes)
    ensures Spells([], text) <==> text == []
  {
    LanguageEmpty(text);
  }

  /** `**` and a slash: from the text's beginning, or from behind any slash of it. */
  lemma DirsSpells(p: Bytes, text: Bytes)
    ensures Spells([42, 42, 47] + p, text) <==>
            exists j :: 0 <= j <= |text| && (j == 0 || text[j - 1] == 47) && Spells(p, text[j..])
  {
    var whole: Bytes := [42, 42, 47] + p;
    assert whole[3..] == p && Lex(whole) == [Dirs] + Lex(p);
    LanguageCons(Dirs, Lex(p), text);
    assert forall j | 0 <= j <= |text| :: Accepts(Dirs, text[..j]) <==> j == 0 || text[j - 1] == 47;
  }

  /** A question mark: one byte that is no slash. */
  lemma MarkSpells(p: Bytes, text: Bytes)
    ensures Spells([63] + p, text) <==> text != [] && text[0] != 47 && Spells(p, text[1..])
  {
    var whole: Bytes := [63] + p;
    assert whole[1..] == p && Lex(whole) == [One] + Lex(p);
    LanguageCons(One, Lex(p), text);
    assert forall j | 0 <= j <= |text| :: Accepts(One, text[..j]) <==> j == 1 && text[0] != 47;
  }

  /** A star with no other behind it: a run without a slash. */
  lemma StarSpells(p: Bytes, text: Bytes)
    requires p == [] || p[0] != 42
    ensures Spells([42] + p, text) <==> exists j :: 0 <= j <= |text| && 47 !in text[..j] && Spells(p, text[j..])
  {
    var whole: Bytes := [42] + p;
    assert whole[1..] == p && Lex(whole) == [Star] + Lex(p);
    LanguageCons(Star, Lex(p), text);
    assert forall j | 0 <= j <= |text| :: Accepts(Star, text[..j]) <==> 47 !in text[..j];
  }

  /** Two stars with no slash behind them: any run. */
  lemma AllSpells(p: Bytes, text: Bytes)
    requires p == [] || p[0] != 47
    ensures Spells([42, 42] + p, text) <==> exists j :: 0 <= j <= |text| && Spells(p, text[j..])
  {
    var whole: Bytes := [42, 42] + p;
    assert whole[2..] == p && Lex(whole) == [All] + Lex(p);
    LanguageCons(All, Lex(p), text);
    assert forall j | 0 <= j <= |text| :: Accepts(All, text[..j]);
  }

  /** Any other byte: itself. */
  lemma ByteSpells(c: bv8, p: Bytes, text: Bytes)
    requires c != 42 && c != 63
    ensures Spells([c] + p, text) <==> text != [] && text[0] == c && Spells(p, text[1..])
  {
    var whole: Bytes := [c] + p;
    assert whole[1..] == p && Lex(whole) == [Byte(c)] + Lex(p);
    LanguageCons(Byte(c), Lex(p), text);
    assert forall j | 0 <= j <= |text| :: Accepts(Byte(c), text[..j]) <==> j == 1 && text[0] == c;
  }

  // -------------------------------------------------------------------- folding

  /** Two adjacent wildcards that fold stand for one wildcard's language. */
  predicate FoldsTo(first: Token, second: Token, folded: Token) {
    first.Wild() && second.Wild() &&
    if first.All? || second.All? then folded.All? else first == second && folded == first
  }

  lemma FoldedAccepts(first: Token, second: Token, folded: Token, s: Bytes)
    requires FoldsTo(first, second, folded)
    ensures Accepts(folded, s) <==> exists j :: 0 <= j <= |s| && Accepts(first, s[..j]) && Accepts(second, s[j..])
  {
    assert s[..0] == [] && s[|s|..] == [] && s[..|s|] == s && s[0..] == s;
    if Accepts(folded, s) {
      var j := if first.All? then |s| else 0;
      assert Accepts(first, s[..j]) && Accepts(second, s[j..]);
    }
    forall j | 0 <= j <= |s| && Accepts(first, s[..j]) && Accepts(second, s[j..])
      ensures Accepts(folded, s)
    {
      assert s == s[..j] + s[j..];
    }
  }

  /** A text cut for the pair is cut for the token it folds to. */
  lemma PairFolds(tokens: seq<Token>, first: Token, second: Token, folded: Token, text: Bytes)
    requires FoldsTo(first, second, folded) && Language(tokens + [first] + [second], text)
    ensures Language(tokens + [folded], text)
  {
    hide Language, Accepts, FoldsTo;
    LanguageSnoc(tokens + [first], second, text);
    var j :| 0 <= j <= |text| && Language(tokens + [first], text[..j]) && Accepts(second, text[j..]);
    LanguageSnoc(tokens, first, text[..j]);
    var i :| 0 <= i <= j && Language(tokens, text[..j][..i]) && Accepts(first, text[..j][i..]);
    CutTwice(text, i, j);
    FoldedAccepts(first, second, folded, text[i..]);
    LanguageSnoc(tokens, folded, text);
  }

  /** A text cut for the folded token is cut for the pair. */
  lemma FoldedUnfolds(tokens: seq<Token>, first: Token, second: Token, folded: Token, text: Bytes)
    requires FoldsTo(first, second, folded) && Language(tokens + [folded], text)
    ensures Language(tokens + [first] + [second], text)
  {
    hide Language, Accepts, FoldsTo;
    LanguageSnoc(tokens, folded, text);
    var i :| 0 <= i <= |text| && Language(tokens, text[..i]) && Accepts(folded, text[i..]);
    FoldedAccepts(first, second, folded, text[i..]);
    var k :| 0 <= k <= |text[i..]| && Accepts(first, text[i..][..k]) && Accepts(second, text[i..][k..]);
    CutTwice(text, i, i + k);
    LanguageSnoc(tokens, first, text[..i + k]);
    LanguageSnoc(tokens + [first], second, text);
  }

  lemma CutTwice(text: Bytes, i: nat, j: nat)
    requires i <= j <= |text|
    ensures text[..j][..i] == text[..i] && text[..j][i..] == text[i..][..j - i] && text[j..] == text[i..][j - i..]
  {
  }

  lemma FoldPair(tokens: seq<Token>, first: Token, second: Token, folded: Token, text: Bytes)
    requires FoldsTo(first, second, folded)
    ensures Language(tokens + [first] + [second], text) == Language(tokens + [folded], text)
  {
    hide Language, FoldsTo;
    if Language(tokens + [first] + [second], text) {
      PairFolds(tokens, first, second, folded, text);
    }
    if Language(tokens + [folded], text) {
      FoldedUnfolds(tokens, first, second, folded, text);
    }
  }

  /** Pushing a token with folding keeps the language of pushing it plainly. */
  lemma PushedKeepsLanguage(tokens: seq<Token>, token: Token, text: Bytes)
    ensures Language(Pushed(tokens, token), text) == Language(tokens + [token], text)
  {
    if tokens != [] && tokens[|tokens| - 1].Wild() && token.Wild() {
      var init, last := tokens[..|tokens| - 1], tokens[|tokens| - 1];
      assert init + [last] == tokens;
      if last.All? || token.All? {
        FoldPair(init, last, token, All, text);
      } else if last == token {
        FoldPair(init, last, token, last, text);
      }
    }
  }

  // ------------------------------------------------------------- the token bound

  /** Two wildcards stand side by side only as `**` + slash and then `*`. */
  predicate ShortRuns(tokens: seq<Token>) {
    forall i | 0 < i < |tokens| && tokens[i - 1].Wild() && tokens[i].Wild() :: tokens[i - 1].Dirs? && tokens[i].Star?
  }

  function Needed(tokens: seq<Token>): (n: nat)
    ensures n <= |tokens|
  {
    if tokens == [] then 0
    else Needed(tokens[..|tokens| - 1]) + if tokens[|tokens| - 1].NeedsByte() then 1 else 0
  }

  /** How many wildcards end the list. */
  function TrailingWild(tokens: seq<Token>): nat {
    if tokens == [] || tokens[|tokens| - 1].NeedsByte() then 0 else 1 + TrailingWild(tokens[..|tokens| - 1])
  }

  lemma {:induction false} TokensBounded(tokens: seq<Token>)
    requires ShortRuns(tokens)
    ensures TrailingWild(tokens) <= 2 && (TrailingWild(tokens) == 2 ==> tokens[|tokens| - 1].Star?)
    ensures |tokens| <= 3 * Needed(tokens) + TrailingWild(tokens)
  {
    if tokens != [] {
      var init := tokens[..|tokens| - 1];
      TokensBounded(init);
    }
  }

  /** A match takes at least one byte of text for each token that needs one. */
  lemma {:induction false} NeedsBytes(tokens: seq<Token>, text: Bytes)
    requires Language(tokens, text)
    ensures Needed(tokens) <= |text|
  {
    if tokens == [] {
    } else {
      var init, last := tokens[..|tokens| - 1], tokens[|tokens| - 1];
      assert init + [last] == tokens;
      LanguageSnoc(init, last, text);
      var j :| 0 <= j <= |text| && Language(init, text[..j]) && Accepts(last, text[j..]);
      NeedsBytes(init, text[..j]);
    }
  }

  // ------------------------------------------------------------ the working form

  /** After a lone `*` the rest of the pattern does not begin with another. */
  predicate StarEnds(tokens: seq<Token>, rest: Bytes) {
    tokens != [] && tokens[|tokens| - 1].Star? ==> rest == [] || rest[0] != STAR
  }

  lemma PushedKeepsShort(tokens: seq<Token>, pattern: Bytes)
    requires pattern != [] && ShortRuns(tokens) && StarEnds(tokens, pattern)
    ensures var (token, size) := FirstToken(pattern);
            ShortRuns(Pushed(tokens, token)) && StarEnds(Pushed(tokens, token), pattern[size..])
  {
  }

  /** Reading one token with folding keeps the language of the whole pattern. */
  lemma ReadKeepsLanguage(tokens: seq<Token>, rest: Bytes)
    requires rest != []
    ensures var (token, size) := FirstToken(rest);
            forall text ::
              Language(Pushed(tokens, token) + Lex(rest[size..]), text) == Language(tokens + Lex(rest), text)
  {
    var (token, size) := FirstToken(rest);
    forall t: Bytes
      ensures Language(Pushed(tokens, token), t) == Language(tokens + [token], t)
    {
      PushedKeepsLanguage(tokens, token, t);
    }
    assert tokens + [token] + Lex(rest[size..]) == tokens + Lex(rest);
    forall text
      ensures Language(Pushed(tokens, token) + Lex(rest[size..]), text) == Language(tokens + Lex(rest), text)
    {
      SameTail(Pushed(tokens, token), tokens + [token], Lex(rest[size..]), text);
    }
  }

  method ReadToken(rest: Bytes) returns (token: Token, after: Bytes)
    requires rest != []
    ensures token == FirstToken(rest).0 && after == rest[FirstToken(rest).1..]
  {
    after := rest[1..];
    if rest[0] == STAR && |after| > 0 && after[0] == STAR {
      if |after| > 1 && after[1] == SLASH {
        token, after := Dirs, after[2..];
      } else {
        token, after := All, after[1..];
      }
    } else if rest[0] == STAR {
      token := Star;
    } else if rest[0] == MARK {
      token := One;
    } else {
      token := Byte(rest[0]);
    }
  }

  /**
    The pattern as tokens, adjacent wildcards folded: the language of the plain
    reading, in at most three tokens for each byte the text must supply and two.
  */
  method Tokens(pattern: Bytes) returns (tokens: seq<Token>)
    ensures forall text :: Language(tokens, text) == Language(Lex(pattern), text)
    ensures ShortRuns(tokens)
    ensures |tokens| <= 3 * Needed(tokens) + 2
  {
    hide Language, Lex;
    tokens := [];
    var rest := pattern;
    assert tokens + Lex(rest) == Lex(pattern);
    while rest != []
      invariant forall text :: Language(tokens + Lex(rest), text) == Language(Lex(pattern), text)
      invariant ShortRuns(tokens) && StarEnds(tokens, rest)
      decreases |rest|
    {
      var token, after := ReadToken(rest);
      PushedKeepsShort(tokens, rest);
      ReadKeepsLanguage(tokens, rest);
      ghost var longer := Pushed(tokens, token);
      if tokens != [] && tokens[|tokens| - 1].Wild() && token.Wild() {
        if tokens[|tokens| - 1].All? || token.All? {
          tokens := tokens[|tokens| - 1 := All];
        } else if tokens[|tokens| - 1] != token {
          tokens := tokens + [token];
        }
      } else {
        tokens := tokens + [token];
      }
      assert tokens == longer;
      rest := after;
    }
    LexEmpty();
    assert tokens + Lex(rest) == tokens;
    TokensBounded(tokens);
  }

  lemma LexEmpty()
    ensures Lex([]) == []
  {
  }

  /** Whether `row[..j]` of the table, extended by `token`, reaches cut `j`. */
  ghost predicate Extends(row: seq<bool>, token: Token, text: Bytes, j: nat)
    requires |row| == |text| + 1 && j <= |text|
  {
    exists i :: 0 <= i <= j && row[i] && Accepts(token, text[i..j])
  }

  /** A token that needs a byte never reaches the first cut. */
  function CellsOf(token: Token, text: Bytes): nat {
    if token.NeedsByte() then |text| else |text| + 1
  }

  /**
    One row of the table: every cut the next token reaches from a cut already
    reached. `cells` counts the cells its rule decides, the clearing aside.
  */
  method FillRow(token: Token, text: Bytes, row: array<bool>, next: array<bool>) returns (ghost cells: nat)
    requires row != next && row.Length == next.Length == |text| + 1
    modifies next
    ensures cells == CellsOf(token, text)
    ensures forall j | 0 <= j <= |text| :: next[j] == Extends(row[..], token, text, j)
  {
    for j := 0 to next.Length
      invariant forall k | 0 <= k < j :: !next[k]
    {
      next[j] := false;
    }
    match token
    case Byte(want) => cells := FillByte(want, text, row, next);
    case One => cells := FillOne(text, row, next);
    case Star => cells := FillStar(text, row, next);
    case All => cells := FillAll(text, row, next);
    case Dirs => cells := FillDirs(text, row, next);
  }

  lemma UnitExtends(row: seq<bool>, token: Token, text: Bytes, j: nat)
    requires |row| == |text| + 1 && j <= |text| && token.NeedsByte()
    ensures Extends(row, token, text, j) <==> j > 0 && row[j - 1] && Accepts(token, [text[j - 1]])
  {
  }

  method FillByte(want: bv8, text: Bytes, row: array<bool>, next: array<bool>) returns (ghost cells: nat)
    requires row != next && row.Length == next.Length == |text| + 1 && !next[0]
    modifies next
    ensures cells == |text|
    ensures forall j | 0 <= j <= |text| :: next[j] == Extends(row[..], Byte(want), text, j)
  {
    cells := 0;
    for j := 0 to |text|
      invariant cells == j
      invariant !next[0] && forall k | 0 < k <= j :: next[k] == (row[k - 1] && text[k - 1] == want)
    {
      next[j + 1] := row[j] && text[j] == want;
      cells := cells + 1;
    }
    forall j | 0 <= j <= |text|
      ensures next[j] == Extends(row[..], Byte(want), text, j)
    {
      UnitExtends(row[..], Byte(want), text, j);
    }
  }

  method FillOne(text: Bytes, row: array<bool>, next: array<bool>) returns (ghost cells: nat)
    requires row != next && row.Length == next.Length == |text| + 1 && !next[0]
    modifies next
    ensures cells == |text|
    ensures forall j | 0 <= j <= |text| :: next[j] == Extends(row[..], One, text, j)
  {
    cells := 0;
    for j := 0 to |text|
      invariant cells == j
      invariant !next[0] && forall k | 0 < k <= j :: next[k] == (row[k - 1] && text[k - 1] != SLASH)
    {
      next[j + 1] := row[j] && text[j] != SLASH;
      cells := cells + 1;
    }
    forall j | 0 <= j <= |text|
      ensures next[j] == Extends(row[..], One, text, j)
    {
      UnitExtends(row[..], One, text, j);
    }
  }

  /** A wildcard reaches the first cut only from itself. */
  lemma WildAtStart(row: seq<bool>, token: Token, text: Bytes)
    requires |row| == |text| + 1 && token.Wild()
    ensures Extends(row, token, text, 0) <==> row[0]
  {
  }

  /** A run reaches the next cut from that cut, or by one more byte the run may hold. */
  lemma RunExtends(row: seq<bool>, token: Token, text: Bytes, j: nat)
    requires |row| == |text| + 1 && j < |text| && (token.Star? || token.All?)
    ensures Extends(row, token, text, j + 1) <==>
            row[j + 1] || (Extends(row, token, text, j) && (token.All? || text[j] != SLASH))
  {
  }

  method FillStar(text: Bytes, row: array<bool>, next: array<bool>) returns (ghost cells: nat)
    requires row != next && row.Length == next.Length == |text| + 1
    modifies next
    ensures cells == |text| + 1
    ensures forall j | 0 <= j <= |text| :: next[j] == Extends(row[..], Star, text, j)
  {
    WildAtStart(row[..], Star, text);
    next[0] := row[0];
    cells := 1;
    for j := 0 to |text|
      invariant cells == j + 1
      invariant forall k | 0 <= k <= j :: next[k] == Extends(row[..], Star, text, k)
    {
      RunExtends(row[..], Star, text, j);
      next[j + 1] := row[j + 1] || (next[j] && text[j] != SLASH);
      cells := cells + 1;
    }
  }

  method FillAll(text: Bytes, row: array<bool>, next: array<bool>) returns (ghost cells: nat)
    requires row != next && row.Length == next.Length == |text| + 1
    modifies next
    ensures cells == |text| + 1
    ensures forall j | 0 <= j <= |text| :: next[j] == Extends(row[..], All, text, j)
  {
    WildAtStart(row[..], All, text);
    next[0] := row[0];
    cells := 1;
    for j := 0 to |text|
      invariant cells == j + 1
      invariant forall k | 0 <= k <= j :: next[k] == Extends(row[..], All, text, k)
    {
      RunExtends(row[..], All, text, j);
      next[j + 1] := row[j + 1] || next[j];
      cells := cells + 1;
    }
  }

  lemma DirsExtends(row: seq<bool>, text: Bytes, j: nat)
    requires |row| == |text| + 1 && j < |text|
    ensures Extends(row, Dirs, text, j + 1) <==>
            row[j + 1] || ((exists i :: 0 <= i <= j && row[i]) && text[j] == SLASH)
  {
  }

  method FillDirs(text: Bytes, row: array<bool>, next: array<bool>) returns (ghost cells: nat)
    requires row != next && row.Length == next.Length == |text| + 1
    modifies next
    ensures cells == |text| + 1
    ensures forall j | 0 <= j <= |text| :: next[j] == Extends(row[..], Dirs, text, j)
  {
    WildAtStart(row[..], Dirs, text);
    var open := row[0];
    next[0] := row[0];
    cells := 1;
    for j := 0 to |text|
      invariant cells == j + 1
      invariant open == exists i :: 0 <= i <= j && row[i]
      invariant forall k | 0 <= k <= j :: next[k] == Extends(row[..], Dirs, text, k)
    {
      DirsExtends(row[..], text, j);
      next[j + 1] := row[j + 1] || (open && text[j] == SLASH);
      cells := cells + 1;
      open := open || row[j + 1];
    }
  }

  /** The row for a longer token list is the shorter list's row extended by the last token. */
  lemma RowExtends(tokens: seq<Token>, token: Token, text: Bytes, row: seq<bool>, j: nat)
    requires |row| == |text| + 1 && j <= |text|
    requires forall i | 0 <= i <= |text| :: row[i] == Language(tokens, text[..i])
    ensures Extends(row, token, text, j) == Language(tokens + [token], text[..j])
  {
    LanguageSnoc(tokens, token, text[..j]);
    forall i | 0 <= i <= j
      ensures text[..j][..i] == text[..i] && text[..j][i..] == text[i..j]
    {
    }
  }

  method CountNeeded(tokens: seq<Token>) returns (needed: nat)
    ensures needed == Needed(tokens)
  {
    needed := 0;
    for i := 0 to |tokens|
      invariant needed == Needed(tokens[..i])
    {
      assert tokens[..i + 1][..i] == tokens[..i];
      needed := needed + if tokens[i].NeedsByte() then 1 else 0;
    }
    assert tokens[..|tokens|] == tokens;
  }

  ghost predicate RowFor(tokens: seq<Token>, text: Bytes, row: seq<bool>) {
    |row| == |text| + 1 && forall j | 0 <= j <= |text| :: row[j] == Language(tokens, text[..j])
  }

  method FillNext(tokens: seq<Token>, token: Token, text: Bytes, row: array<bool>, next: array<bool>)
    returns (ghost cells: nat)
    requires row != next && row.Length == next.Length == |text| + 1
    requires RowFor(tokens, text, row[..])
    modifies next
    ensures RowFor(tokens + [token], text, next[..]) && cells == CellsOf(token, text)
  {
    cells := FillRow(token, text, row, next);
    forall j | 0 <= j <= |text|
      ensures next[j] == Language(tokens + [token], text[..j])
    {
      RowExtends(tokens, token, text, row[..], j);
    }
  }

  lemma NoCells()
    ensures Needed([]) == 0
  {
  }

  lemma OneMoreRow(tokens: seq<Token>, i: nat, text: Bytes)
    requires i < |tokens|
    ensures (i + 1) * (|text| + 1) - Needed(tokens[..i + 1])
            == i * (|text| + 1) - Needed(tokens[..i]) + CellsOf(tokens[i], text)
  {
    assert tokens[..i + 1][..i] == tokens[..i];
  }

  /** One row per token over every cut of the text but the first, where the token needs a byte. */
  method Table(tokens: seq<Token>, text: Bytes) returns (reached: bool, ghost cells: nat)
    ensures reached == Language(tokens, text)
    ensures cells == |tokens| * (|text| + 1) - Needed(tokens)
  {
    hide Language, Needed, CellsOf;
    var row := new bool[|text| + 1](_ => false);
    var next := new bool[|text| + 1](_ => false);
    row[0] := true;
    forall j | 0 <= j <= |text|
      ensures row[j] == Language([], text[..j])
    {
      LanguageEmpty(text[..j]);
    }
    assert tokens[..0] == [];
    NoCells();
    cells := 0;
    for i := 0 to |tokens|
      invariant row != next && row.Length == next.Length == |text| + 1
      invariant fresh(row) && fresh(next)
      invariant RowFor(tokens[..i], text, row[..])
      invariant cells == i * (|text| + 1) - Needed(tokens[..i])
    {
      ghost var more := FillNext(tokens[..i], tokens[i], text, row, next);
      assert tokens[..i + 1] == tokens[..i] + [tokens[i]];
      OneMoreRow(tokens, i, text);
      row, next := next, row;
      cells := cells + more;
    }
    assert text[..|text|] == text && tokens[..|tokens|] == tokens;
    reached := row[|text|];
    assert row[..][|text|] == Language(tokens, text[..|text|]);
  }

  /**
    Whether `pattern` matches `text` whole. `cells` is what the table for the
    folded `tokens` takes, or nothing where they need more bytes than the text
    has; so it stays within three rows for each byte and two more.
  */
  method Glob(pattern: Bytes, text: Bytes) returns (matched: bool, ghost cells: nat, ghost tokens: seq<Token>)
    ensures matched == Language(Lex(pattern), text)
    ensures ShortRuns(tokens) && forall t :: Language(tokens, t) == Language(Lex(pattern), t)
    ensures cells == if Needed(tokens) > |text| then 0 else |tokens| * (|text| + 1) - Needed(tokens)
    ensures cells <= (3 * |text| + 2) * (|text| + 1)
  {
    hide Language, Lex, Extends, Accepts;
    var folded := Tokens(pattern);
    tokens := folded;
    var needed := CountNeeded(folded);
    if needed > |text| {
      if Language(tokens, text) {
        NeedsBytes(tokens, text);
      }
      return false, 0, tokens;
    }
    matched, cells := Table(folded, text);
    Scaled(|tokens|, 3 * |text| + 2, |text| + 1);
  }

  lemma Scaled(a: nat, b: nat, n: nat)
    requires a <= b
    ensures a * n <= b * n
  {
  }

  // -------------------------------------------------------------------- rules

  datatype Strategy = Ours | Theirs | Union

  datatype Rule = Rule(paths: Bytes, strategy: Strategy)

  /** `cut` is where the path's final component begins. */
  predicate FinalComponent(path: Bytes, cut: nat) {
    cut <= |path| && SLASH !in path[cut..] && (cut == 0 || path[cut - 1] == SLASH)
  }

  /** A pattern with a slash is anchored to the root; one without matches the final component at any depth. */
  ghost predicate Selects(pattern: Bytes, path: Bytes) {
    if SLASH in pattern then
      Language(Lex(if pattern[0] == SLASH then pattern[1..] else pattern), path)
    else exists cut: nat :: FinalComponent(path, cut) && Language(Lex(pattern), path[cut..])
  }

  /** A pattern without a slash selects by the last component alone, in whatever directory. */
  lemma SelectsAnywhere(pattern: Bytes, directory: Bytes, name: Bytes)
    requires 47 !in pattern && 47 !in name
    ensures Selects(pattern, name) <==> Spells(pattern, name)
    ensures Selects(pattern, directory + [47] + name) <==> Spells(pattern, name)
  {
    hide Language, Lex;
    var path := directory + [47] + name;
    assert path[|directory| + 1..] == name && FinalComponent(path, |directory| + 1);
    assert name[0..] == name && FinalComponent(name, 0);
    forall cut: nat | FinalComponent(path, cut)
      ensures cut == |directory| + 1
    {
      NotBefore(path, cut, |directory| + 1);
      NotBefore(path, |directory| + 1, cut);
    }
    forall cut: nat | FinalComponent(name, cut)
      ensures cut == 0
    {
      NotBefore(name, cut, 0);
      NotBefore(name, 0, cut);
    }
  }

  /** A slash at the pattern's front anchors it and is no part of the path; one elsewhere anchors it too. */
  lemma SelectsFromTheRoot(pattern: Bytes, path: Bytes)
    ensures Selects([47] + pattern, path) <==> Spells(pattern, path)
    ensures 47 in pattern && pattern[0] != 47 ==> (Selects(pattern, path) <==> Spells(pattern, path))
  {
    assert ([47] + pattern)[1..] == pattern && ([47] + pattern)[0] == 47;
  }

  lemma NotBefore(path: Bytes, a: nat, b: nat)
    requires FinalComponent(path, a) && FinalComponent(path, b)
    ensures b <= a
  {
  }

  method NameCut(path: Bytes) returns (cut: nat)
    ensures FinalComponent(path, cut)
  {
    cut := |path|;
    while cut > 0 && path[cut - 1] != SLASH
      invariant cut <= |path| && SLASH !in path[cut..]
    {
      cut := cut - 1;
    }
  }

  method Matches(pattern: Bytes, path: Bytes) returns (selected: bool)
    ensures selected == Selects(pattern, path)
  {
    ghost var cells, tokens;
    if SLASH in pattern {
      selected, cells, tokens := Glob(if pattern[0] == SLASH then pattern[1..] else pattern, path);
    } else {
      var cut := NameCut(path);
      selected, cells, tokens := Glob(pattern, path[cut..]);
      forall other | FinalComponent(path, other)
        ensures other == cut
      {
        NotBefore(path, other, cut);
        NotBefore(path, cut, other);
      }
    }
  }

  /** The strategy of the first rule that selects the path, none when none does. */
  method RuleFor(path: Bytes, rules: seq<Rule>) returns (strategy: Option<Strategy>)
    ensures strategy.None? <==> forall i | 0 <= i < |rules| :: !Selects(rules[i].paths, path)
    ensures strategy.Some? ==>
              exists i :: 0 <= i < |rules| && Selects(rules[i].paths, path) && rules[i].strategy == strategy.value
                          && forall j | 0 <= j < i :: !Selects(rules[j].paths, path)
  {
    for i := 0 to |rules|
      invariant forall j | 0 <= j < i :: !Selects(rules[j].paths, path)
    {
      var selected := Matches(rules[i].paths, path);
      if selected {
        return Some(rules[i].strategy);
      }
    }
    strategy := None;
  }
}
