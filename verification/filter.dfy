/**
  Document filters and the OData `$filter` strings they are compiled to. A
  filter combines comparisons with `and`, `or`, `not` and set membership; node
  kinds the table service cannot evaluate are errors.
*/
module FilterModel {
  import opened Base

  datatype ComparisonOp = Eq | Ne | Gt | Gte | Lt | Lte

  type Byte = x: int | 0 <= x < 256

  predicate DecimalForm(s: string) {
    '.' in s && forall i | 0 <= i < |s| :: IsDigit(s[i]) || s[i] == '.' || s[i] == '-'
  }

  /** The form a double is printed in: digits with a point, or a named value. */
  predicate FloatForm(s: string) {
    s in {"NaN", "inf", "-inf"} || DecimalForm(s)
  }

  type FloatText = s: string | FloatForm(s) witness "0.0"

  datatype Scalar =
    | Null
    | Bool(flag: bool)
    | Int32(i32: int)
    | Int64(i64: int)
    | Float64(literal: FloatText)
    | Str(text: string)
    | Binary(bytes: seq<Byte>)
    | Timestamp(stamp: string)

  datatype Filter =
    | Compare(field: string, op: ComparisonOp, value: Scalar)
    | InList(field: string, values: seq<Scalar>)
    | NotInList(field: string, values: seq<Scalar>)
    | And(children: seq<Filter>)
    | Or(children: seq<Filter>)
    | Not(inner: Filter)
    | IsNull(field: string)
    | IsNotNull(field: string)
    | Contains(field: string, text: string)
    | StartsWith(field: string, text: string)
    | EndsWith(field: string, text: string)

  datatype Error = InvalidField | EmptyList | EmptyGroup | NullValue | Unsupported

  /** A double with no digits to print: it is written `inf` or `-inf`, while OData spells it `INF` or `-INF`. */
  predicate Infinite(v: Scalar) {
    v.Float64? && (v.literal == "inf" || v.literal == "-inf")
  }

  type Valuation = (string, ComparisonOp, Scalar) -> bool

  /** What a filter says of a row, given which comparisons hold of it. */
  predicate Eval(f: Filter, holds: Valuation) {
    match f
    case Compare(field, op, value) => holds(field, op, value)
    case InList(field, values) => exists v | v in values :: holds(field, Eq, v)
    case NotInList(field, values) => !exists v | v in values :: holds(field, Eq, v)
    case And(children) => forall c | c in children :: Eval(c, holds)
    case Or(children) => exists c | c in children :: Eval(c, holds)
    case Not(inner) => !Eval(inner, holds)
    case _ => false
  }

  // ------------------------------------------------------------------ literals

  predicate IsLetter(c: char) { 'a' <= c <= 'z' || 'A' <= c <= 'Z' }

  function IntText(i: int): string {
    if i < 0 then "-" + NatText(-i) else NatText(i)
  }

  function Escape(s: string): string {
    if s == [] then [] else (if s[0] == '\'' then "''" else [s[0]]) + Escape(s[1..])
  }

  function HexText(bytes: seq<Byte>): string {
    if bytes == [] then [] else [Digit(bytes[0] / 16), Digit(bytes[0] % 16)] + HexText(bytes[1..])
  }

  function OpText(op: ComparisonOp): string {
    match op
    case Eq => "eq" case Ne => "ne" case Gt => "gt" case Gte => "ge" case Lt => "lt" case Lte => "le"
  }

  function ValueText(v: Scalar): Result<string, Error> {
    match v
    case Null => Err(NullValue)
    case Bool(flag) => Ok(if flag then "true" else "false")
    case Int32(i) => Ok(IntText(i))
    case Int64(i) => Ok(IntText(i) + "L")
    case Float64(literal) => Ok(literal)
    case Str(text) => Ok("'" + Escape(text) + "'")
    case Binary(bytes) => Ok("X'" + HexText(bytes) + "'")
    case Timestamp(stamp) => Ok("datetime'" + Escape(stamp) + "'")
  }

  // ----------------------------------------------------------------- compiling

  predicate ValidField(field: string) {
    && field != []
    && (IsLetter(field[0]) || field[0] == '_')
    && forall i | 0 <= i < |field| :: IsLetter(field[i]) || IsDigit(field[i]) || field[i] == '_'
  }

  function Join(parts: seq<string>, separator: string): string {
    if parts == [] then [] else if |parts| == 1 then parts[0] else parts[0] + separator + Join(parts[1..], separator)
  }

  function CompareText(field: string, op: ComparisonOp, v: Scalar): Result<string, Error> {
    match ValueText(v)
    case Err(e) => Err(e)
    case Ok(text) => Ok(field + " " + OpText(op) + " " + text)
  }

  function EqualParts(field: string, values: seq<Scalar>): Result<seq<string>, Error> {
    if values == [] then Ok([])
    else
      match CompareText(field, Eq, values[0])
      case Err(e) => Err(e)
      case Ok(part) =>
        match EqualParts(field, values[1..])
        case Err(e) => Err(e)
        case Ok(parts) => Ok([part] + parts)
  }

  function ToOdata(f: Filter): Result<string, Error>
    decreases f, 0
  {
    match f
    case Compare(field, op, value) =>
      if !ValidField(field) then Err(InvalidField) else CompareText(field, op, value)
    case InList(field, values) => ListText(field, values, "(")
    case NotInList(field, values) => ListText(field, values, "not (")
    case And(children) =>
      if children == [] then Err(EmptyGroup)
      else
        (match ToOdataAll(children)
         case Err(e) => Err(e)
         case Ok(parts) => Ok(Join(parts, " and ")))
    case Or(children) =>
      if children == [] then Err(EmptyGroup)
      else
        (match ToOdataAll(children)
         case Err(e) => Err(e)
         case Ok(parts) => Ok("(" + Join(parts, " or ") + ")"))
    case Not(inner) =>
      (match ToOdata(inner)
       case Err(e) => Err(e)
       case Ok(text) => Ok("not (" + text + ")"))
    case _ => Err(Unsupported)
  }

  function ListText(field: string, values: seq<Scalar>, opening: string): Result<string, Error> {
    if !ValidField(field) then Err(InvalidField)
    else if values == [] then Err(EmptyList)
    else
      match EqualParts(field, values)
      case Err(e) => Err(e)
      case Ok(parts) => Ok(opening + Join(parts, " or ") + ")")
  }

  function ToOdataAll(fs: seq<Filter>): Result<seq<string>, Error>
    decreases fs
  {
    if fs == [] then Ok([])
    else
      match ToOdata(fs[0])
      case Err(e) => Err(e)
      case Ok(part) =>
        match ToOdataAll(fs[1..])
        case Err(e) => Err(e)
        case Ok(parts) => Ok([part] + parts)
  }

  /** The partition clause, when there is one, goes first; the parts are joined with `and`. */
  function BuildFilter(partition: Option<string>, compiled: Option<string>): Option<string> {
    var parts :=
      (if partition.Some? then ["PartitionKey eq '" + Escape(partition.value) + "'"] else []) +
      (if compiled.Some? then [compiled.value] else []);
    if parts == [] then None else Some(Join(parts, " and "))
  }

  /** The filters the service can evaluate: the others compile to an error. */
  predicate Supported(f: Filter) {
    match f
    case Compare(field, _, value) => ValidField(field) && !value.Null?
    case InList(field, values) => ValidField(field) && values != [] && Null !in values
    case NotInList(field, values) => ValidField(field) && values != [] && Null !in values
    case And(children) => children != [] && forall c | c in children :: Supported(c)
    case Or(children) => children != [] && forall c | c in children :: Supported(c)
    case Not(inner) => Supported(inner)
    case _ => false
  }

  // -------------------------------------------------------------- reading back

  datatype Token = Open | Close | Word(text: string) | Quoted(prefix: string, content: string)

  predicate WordChar(c: char) { c != ' ' && c != '(' && c != ')' && c != '\'' }

  function WordLength(s: string): (n: nat)
    ensures n <= |s| && forall i | 0 <= i < n :: WordChar(s[i])
    ensures n < |s| ==> !WordChar(s[n])
  {
    if s == [] || !WordChar(s[0]) then 0 else 1 + WordLength(s[1..])
  }

  /** A quoted literal's content, its doubled quotes undone, and what follows the closing quote. */
  function ReadQuoted(s: string): (r: Option<(string, string)>)
    ensures r.Some? ==> |r.value.1| < |s|
  {
    if s == [] then None
    else if s[0] == '\'' && (|s| == 1 || s[1] != '\'') then Some(([], s[1..]))
    else
      match ReadQuoted(if s[0] == '\'' then s[2..] else s[1..])
      case None => None
      case Some((content, rest)) => Some(([s[0]] + content, rest))
  }

  function Prepend(token: Token, rest: Option<seq<Token>>): Option<seq<Token>> {
    if rest.Some? then Some([token] + rest.value) else None
  }

  function Lex(s: string): Option<seq<Token>>
    decreases |s|
  {
    if s == [] then Some([])
    else if s[0] == ' ' then Lex(s[1..])
    else if s[0] == '(' then Prepend(Open, Lex(s[1..]))
    else if s[0] == ')' then Prepend(Close, Lex(s[1..]))
    else
      var n := WordLength(s);
      if n < |s| && s[n] == '\'' then
        match ReadQuoted(s[n + 1..])
        case None => None
        case Some((content, rest)) => Prepend(Quoted(s[..n], content), Lex(rest))
      else Prepend(Word(s[..n]), Lex(s[n..]))
  }

  function DigitValue(c: char): Option<nat> {
    if '0' <= c <= '9' then Some(c as int - '0' as int)
    else if 'a' <= c <= 'f' then Some(10 + c as int - 'a' as int)
    else None
  }

  predicate Digits(s: string) { s != [] && forall i | 0 <= i < |s| :: IsDigit(s[i]) }

  function ReadNat(s: string): nat
    requires Digits(s)
  {
    var last := s[|s| - 1] as int - '0' as int;
    if |s| == 1 then last else 10 * ReadNat(s[..|s| - 1]) + last
  }

  function ReadInt(s: string): Option<int> {
    if Digits(s) then Some(ReadNat(s))
    else if s != [] && s[0] == '-' && Digits(s[1..]) then var n: int := ReadNat(s[1..]); Some(0 - n)
    else None
  }

  function ReadHex(s: string): Option<seq<Byte>> {
    if s == [] then Some([])
    else if |s| == 1 || DigitValue(s[0]).None? || DigitValue(s[1]).None? then None
    else
      match ReadHex(s[2..])
      case None => None
      case Some(bytes) => Some([16 * DigitValue(s[0]).value + DigitValue(s[1]).value] + bytes)
  }

  function ReadLiteral(t: Token): Option<Scalar> {
    match t
    case Word(w) =>
      if w == "true" then Some(Bool(true))
      else if w == "false" then Some(Bool(false))
      else if ReadInt(w).Some? then Some(Int32(ReadInt(w).value))
      else if w != [] && w[|w| - 1] == 'L' && ReadInt(w[..|w| - 1]).Some? then Some(Int64(ReadInt(w[..|w| - 1]).value))
      else if w == "NaN" || DecimalForm(w) then Some(Float64(w))
      else if w == "INF" then Some(Float64("inf"))
      else if w == "-INF" then Some(Float64("-inf"))
      else None
    case Quoted(prefix, content) =>
      if prefix == "" then Some(Str(content))
      else if prefix == "datetime" then Some(Timestamp(content))
      else if prefix == "X" && ReadHex(content).Some? then Some(Binary(ReadHex(content).value))
      else None
    case _ => None
  }

  function ReadOp(t: Token): Option<ComparisonOp> {
    if t == Word("eq") then Some(Eq) else if t == Word("ne") then Some(Ne)
    else if t == Word("gt") then Some(Gt) else if t == Word("ge") then Some(Gte)
    else if t == Word("lt") then Some(Lt) else if t == Word("le") then Some(Lte)
    else None
  }

  /** The words a reader of the expression language keeps for itself. */
  const KEYWORDS: set<string> := {
    "and", "or", "not", "eq", "ne", "gt", "ge", "lt", "le", "add", "sub", "mul", "div", "mod", "true", "false", "null"
  }

  datatype Expr =
    | Atom(field: string, op: ComparisonOp, value: Scalar)
    | NotE(inner: Expr)
    | AndE(left: Expr, right: Expr)
    | OrE(left: Expr, right: Expr)
  {
    predicate Eval(holds: Valuation) {
      match this
      case Atom(field, op, value) => holds(field, op, value)
      case NotE(inner) => !inner.Eval(holds)
      case AndE(left, right) => left.Eval(holds) && right.Eval(holds)
      case OrE(left, right) => left.Eval(holds) || right.Eval(holds)
    }
  }

  type Parse = Option<(Expr, seq<Token>)>

  /** `not` binds tightest, then `and`, then `or`; parentheses group. */
  function ReadUnary(ts: seq<Token>): (r: Parse)
    ensures r.Some? ==> |r.value.1| < |ts|
    decreases |ts|, 1
  {
    if ts == [] then None
    else if ts[0] == Word("not") then
      match ReadUnary(ts[1..])
      case None => None
      case Some((e, rest)) => Some((NotE(e), rest))
    else if ts[0].Open? then
      match ReadOr(ts[1..])
      case None => None
      case Some((e, rest)) => if rest != [] && rest[0].Close? then Some((e, rest[1..])) else None
    else if |ts| >= 3 && ts[0].Word? && ts[0].text !in KEYWORDS && ReadOp(ts[1]).Some? && ReadLiteral(ts[2]).Some? then
      Some((Atom(ts[0].text, ReadOp(ts[1]).value, ReadLiteral(ts[2]).value), ts[3..]))
    else None
  }

  function AndTail(acc: Expr, ts: seq<Token>): (r: Parse)
    ensures r.Some? ==> |r.value.1| <= |ts|
    decreases |ts|, 2
  {
    if ts != [] && ts[0] == Word("and") then
      match ReadUnary(ts[1..])
      case None => None
      case Some((e, rest)) => AndTail(AndE(acc, e), rest)
    else Some((acc, ts))
  }

  function ReadAnd(ts: seq<Token>): (r: Parse)
    ensures r.Some? ==> |r.value.1| < |ts|
    decreases |ts|, 3
  {
    match ReadUnary(ts)
    case None => None
    case Some((e, rest)) => AndTail(e, rest)
  }

  function OrTail(acc: Expr, ts: seq<Token>): (r: Parse)
    ensures r.Some? ==> |r.value.1| <= |ts|
    decreases |ts|, 4
  {
    if ts != [] && ts[0] == Word("or") then
      match ReadAnd(ts[1..])
      case None => None
      case Some((e, rest)) => OrTail(OrE(acc, e), rest)
    else Some((acc, ts))
  }

  function ReadOr(ts: seq<Token>): (r: Parse)
    ensures r.Some? ==> |r.value.1| < |ts|
    decreases |ts|, 5
  {
    match ReadAnd(ts)
    case None => None
    case Some((e, rest)) => OrTail(e, rest)
  }

  /** The whole string as one expression. */
  function Read(s: string): Option<Expr> {
    match Lex(s)
    case None => None
    case Some(ts) =>
      match ReadOr(ts)
      case None => None
      case Some((e, rest)) => if rest == [] then Some(e) else None
  }
}
