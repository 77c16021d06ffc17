/** What src/lexer.c reads from a file. */
module Lexing {
  import opened Strings
  import Tok = Tokens

  const MAX: nat := 0xffff_ffff_ffff_ffff

  predicate Space(c: char) {
    c == ' ' || c == '\t' || c == '\n' || c == '\r' || c == 11 as char || c == 12 as char
  }

  predicate Alpha(c: char) {
    'a' <= c <= 'z' || 'A' <= c <= 'Z'
  }

  predicate Digit(c: char) {
    '0' <= c <= '9'
  }

  predicate WordChar(c: char) {
    Alpha(c) || Digit(c) || c == '_'
  }

  predicate HexDigit(c: char) {
    Digit(c) || 'a' <= c <= 'f' || 'A' <= c <= 'F'
  }

  predicate BinDigit(c: char) {
    c == '0' || c == '1'
  }

  /** The classes of characters that the scanning loops run over. */
  datatype Class = Words | Digits | Hex | Bin

  predicate In(cl: Class, c: char) {
    match cl
    case Words => WordChar(c)
    case Digits => Digit(c)
    case Hex => HexDigit(c)
    case Bin => BinDigit(c)
  }

  /** The first position from i on that is not in the class. */
  function RunEnd(buf: string, i: nat, cl: Class): (j: nat)
    requires i <= |buf|
    ensures i <= j <= |buf| && !In(cl, Peek(buf, j))
    ensures forall k :: i <= k < j ==> In(cl, buf[k])
    decreases |buf| - i
  {
    if In(cl, Peek(buf, i)) then RunEnd(buf, i + 1, cl) else i
  }

  /** Where a number that begins at i ends. */
  function NumberEnd(buf: string, i: nat): (j: nat)
    requires i < |buf| && Digit(buf[i])
    ensures i < j <= |buf|
  {
    if buf[i] == '0' then
      var next := Peek(buf, i + 1);
      if next == 'x' || next == 'X' then RunEnd(buf, i + 2, Hex)
      else if next == 'b' || next == 'B' then RunEnd(buf, i + 2, Bin)
      else RunEnd(buf, i + 1, Digits)
    else RunEnd(buf, i, Digits)
  }

  function DigitValue(c: char): nat {
    if Digit(c) then c as int - '0' as int
    else if 'a' <= c <= 'f' then c as int - 'a' as int + 10
    else if 'A' <= c <= 'F' then c as int - 'A' as int + 10
    else 99
  }

  /** `strtoull` with a given base: the digits up to the first that the base does not have. */
  function Number(s: string, base: nat, acc: nat): nat {
    if s == "" || DigitValue(s[0]) >= base then acc else Number(s[1..], base, acc * base + DigitValue(s[0]))
  }

  function Clamp(n: nat): nat {
    if n > MAX then MAX else n
  }

  /** The value of a number: base 2, 16, 8 or 10, clamped to 64 bits. */
  function NumberValue(s: string): nat {
    if |s| >= 2 && s[0] == '0' && (s[1] == 'b' || s[1] == 'B') then Clamp(Number(s[2..], 2, 0))
    else if |s| >= 2 && s[0] == '0' && (s[1] == 'x' || s[1] == 'X') then Clamp(Number(s[2..], 16, 0))
    else if s != "" && s[0] == '0' then Clamp(Number(s, 8, 0))
    else Clamp(Number(s, 10, 0))
  }

  /** A character as `size_t`: bytes from 128 on are negative. */
  function CharValue(c: char): nat {
    if c as int < 128 then c as int
    else if c as int < 256 then c as int + MAX + 1 - 256
    else c as int
  }

  /** The kind of a word. */
  function WordKind(w: string): Tok.Kind {
    if w == "extrn" then Tok.Extrn
    else if w == "auto" then Tok.Auto
    else if w == "if" then Tok.If
    else if w == "else" then Tok.Else
    else if w == "while" then Tok.While
    else if w == "goto" then Tok.Goto
    else if w == "return" then Tok.Return
    else Tok.Identifier
  }

  /** The word of a keyword; nothing for other kinds. */
  function KeywordText(kind: Tok.Kind): string {
    match kind
    case Extrn => "extrn"
    case Auto => "auto"
    case If => "if"
    case Else => "else"
    case While => "while"
    case Goto => "goto"
    case Return => "return"
    case _ => ""
  }

  /** The end of a comment: the first star and slash from i on, or the end of the file. The search
      begins at the star that opens the comment. */
  function CommentEnd(buf: string, i: nat): (j: nat)
    requires i <= |buf|
    ensures i <= j <= |buf|
    decreases |buf| - i
  {
    if i == |buf| then i
    else if buf[i] == '*' && Peek(buf, i + 1) == '/' then i + 2
    else CommentEnd(buf, i + 1)
  }

  /** An operator or separator: its kind and length. */
  datatype Op = Op(kind: Tok.Kind, len: nat)

  function Pair(next: char, second: char, one: Tok.Kind, two: Tok.Kind): Op {
    if next == second then Op(two, 2) else Op(one, 1)
  }

  function OpAt(c: char, next: char): (op: Op)
    ensures 1 <= op.len <= 2
  {
    if c == '{' then Op(Tok.OBrace, 1)
    else if c == '}' then Op(Tok.CBrace, 1)
    else if c == '[' then Op(Tok.OBracket, 1)
    else if c == ']' then Op(Tok.CBracket, 1)
    else if c == '(' then Op(Tok.OPren, 1)
    else if c == ')' then Op(Tok.CPren, 1)
    else if c == ';' then Op(Tok.Semicolon, 1)
    else if c == ':' then Op(Tok.Colon, 1)
    else if c == '?' then Op(Tok.QMark, 1)
    else if c == '&' then Op(Tok.BitAnd, 1)
    else if c == '|' then Op(Tok.BitOr, 1)
    else if c == ',' then Op(Tok.Comma, 1)
    else if c == '*' then Op(Tok.Mul, 1)
    else if c == '/' then Op(Tok.Dev, 1)
    else if c == '%' then Op(Tok.Mod, 1)
    else if c == '+' then Pair(next, '+', Tok.Add, Tok.Inc)
    else if c == '-' then Pair(next, '-', Tok.Sub, Tok.Dec)
    else if c == '!' then Pair(next, '=', Tok.Not, Tok.NotEqual)
    else if c == '=' then Pair(next, '=', Tok.Assign, Tok.Equal)
    else if c == '<' then if next == '=' then Op(Tok.LesserEqual, 2) else Pair(next, '<', Tok.Lesser, Tok.BitshiftL)
    else if c == '>' then if next == '=' then Op(Tok.GreaterEqual, 2) else Pair(next, '>', Tok.Greater, Tok.BitshiftR)
    else Op(Tok.Unknown, 1)
  }

  /** One round of the lexer: a token or none, and what follows. `strs` counts the string literals
      so far. `Dead` is the exit at a bad literal. */
  datatype Round = Dead | Skip(at: nat) | Emit(tok: Tok.Token, at: nat, strs: nat)

  function QuoteAt(buf: string, i: nat, strs: nat): (r: Round)
    requires i < |buf| && (buf[i] == '"' || buf[i] == '\'')
    ensures !r.Dead? ==> i < r.at <= |buf|
  {
    match ScanFrom(buf, i + 1, buf[i])
    case Unterminated => Dead
    case Closed(j) =>
      match Decode(buf[i + 1..j])
      case Bad => Dead
      case Text(text) =>
        if buf[i] == '"' then Emit(Tok.Token(Tok.StrLit, text, strs + 1), j + 1, strs + 1)
        else Emit(Tok.Token(Tok.IntLit, text, if text == "" then 0 else CharValue(text[0])), j + 1, strs)
  }

  function RoundAt(buf: string, i: nat, strs: nat): (r: Round)
    requires i < |buf|
    ensures !r.Dead? ==> i < r.at <= |buf|
  {
    var c := buf[i];
    if Space(c) then Skip(i + 1)
    else if Alpha(c) || c == '_' then
      var j := RunEnd(buf, i, Words);
      Emit(Tok.Token(WordKind(buf[i..j]), buf[i..j], 0), j, strs)
    else if Digit(c) then
      var j := NumberEnd(buf, i);
      Emit(Tok.Token(Tok.IntLit, buf[i..j], NumberValue(buf[i..j])), j, strs)
    else if c == '"' || c == '\'' then QuoteAt(buf, i, strs)
    else if c == '/' && Peek(buf, i + 1) == '*' then Skip(CommentEnd(buf, i + 1))
    else
      var op := OpAt(c, Peek(buf, i + 1));
      Emit(Tok.Token(op.kind, "", 0), i + op.len, strs)
  }

  datatype Lexed = Died | Lexed(toks: seq<Tok.Token>)

  /** The tokens from i on. */
  function LexFrom(buf: string, i: nat, strs: nat): Lexed
    requires i <= |buf|
    decreases |buf| - i
  {
    if i == |buf| then Lexed([])
    else match RoundAt(buf, i, strs)
      case Dead => Died
      case Skip(j) => LexFrom(buf, j, strs)
      case Emit(tok, j, n) =>
        match LexFrom(buf, j, n)
        case Died => Died
        case Lexed(toks) => Lexed([tok] + toks)
  }

  // ----- longest match -----

  /** The text of an operator or separator. */
  function OpText(kind: Tok.Kind): string {
    match kind
    case OBrace => "{"
    case CBrace => "}"
    case OBracket => "["
    case CBracket => "]"
    case OPren => "("
    case CPren => ")"
    case Semicolon => ";"
    case Colon => ":"
    case QMark => "?"
    case BitAnd => "&"
    case BitOr => "|"
    case Comma => ","
    case Mul => "*"
    case Dev => "/"
    case Mod => "%"
    case Add => "+"
    case Inc => "++"
    case Sub => "-"
    case Dec => "--"
    case Not => "!"
    case NotEqual => "!="
    case Assign => "="
    case Equal => "=="
    case Lesser => "<"
    case LesserEqual => "<="
    case BitshiftL => "<<"
    case Greater => ">"
    case GreaterEqual => ">="
    case BitshiftR => ">>"
    case _ => ""
  }

  /** The text of the operator stands at i. */
  predicate Matches(buf: string, i: nat, kind: Tok.Kind) {
    && OpText(kind) != ""
    && Peek(buf, i) == OpText(kind)[0]
    && (|OpText(kind)| == 2 ==> Peek(buf, i + 1) == OpText(kind)[1])
  }

  lemma OpTextShort(kind: Tok.Kind)
    ensures |OpText(kind)| <= 2
  {
  }

  lemma TakenMatches(buf: string, i: nat)
    requires i < |buf|
    ensures
      var op := OpAt(buf[i], Peek(buf, i + 1));
      op.kind != Tok.Unknown ==> Matches(buf, i, op.kind) && op.len == |OpText(op.kind)|
  {
  }

  lemma OneMatch(c: char, next: char, kind: Tok.Kind)
    requires OpText(kind) == [c]
    ensures
      var op := OpAt(c, next);
      op.kind != Tok.Unknown && 1 <= op.len && (op.len == 1 ==> op.kind == kind)
  {
  }

  lemma TwoMatch(c: char, next: char, kind: Tok.Kind)
    requires OpText(kind) == [c, next]
    ensures OpAt(c, next) == Op(kind, 2) && kind != Tok.Unknown
  {
  }

  /** Of all operators that stand at i, the longest is taken, and only one is that long. */
  lemma LongestMatch(buf: string, i: nat, kind: Tok.Kind)
    requires i < |buf|
    ensures
      var op := OpAt(buf[i], Peek(buf, i + 1));
      && (op.kind != Tok.Unknown ==> Matches(buf, i, op.kind) && op.len == |OpText(op.kind)|)
      && (Matches(buf, i, kind) ==> op.kind != Tok.Unknown && |OpText(kind)| <= op.len
                                    && (|OpText(kind)| == op.len ==> kind == op.kind))
  {
    hide OpAt, OpText;
    TakenMatches(buf, i);
    if Matches(buf, i, kind) {
      OpTextShort(kind);
      var s := OpText(kind);
      if |s| == 1 {
        assert s == [s[0]];
        OneMatch(buf[i], Peek(buf, i + 1), kind);
      } else {
        assert s == [s[0], s[1]];
        TwoMatch(buf[i], Peek(buf, i + 1), kind);
      }
    }
  }

  // ----- lexing undoes printing -----

  /** Anything that can be written for a token. */
  datatype Piece = Word(word: string) | Num(digits: string) | Str(text: string) | Chr(c: char) | Sym(kind: Tok.Kind)

  /** Letters, digits and underscores; digits of the three kinds of numbers. */
  predicate InWord(c: char) {
    'a' <= c <= 'z' || 'A' <= c <= 'Z' || '0' <= c <= '9' || c == '_'
  }

  predicate InHex(c: char) {
    '0' <= c <= '9' || 'a' <= c <= 'f' || 'A' <= c <= 'F'
  }

  /** A zero and one of two letters. */
  predicate Prefixed(s: string, low: char, high: char) {
    |s| >= 2 && s[0] == '0' && (s[1] == low || s[1] == high)
  }

  /** Words that do not begin with a digit; decimal, hexadecimal and binary numbers; any text between
      quotes; operators. */
  predicate Proper(p: Piece) {
    match p
    case Word(w) => w != "" && !('0' <= w[0] <= '9') && forall k :: 0 <= k < |w| ==> InWord(w[k])
    case Num(s) =>
      || (s != "" && forall k :: 0 <= k < |s| ==> '0' <= s[k] <= '9')
      || (Prefixed(s, 'x', 'X') && forall k :: 2 <= k < |s| ==> InHex(s[k]))
      || (Prefixed(s, 'b', 'B') && forall k :: 2 <= k < |s| ==> '0' <= s[k] <= '1')
    case Str(_) => true
    case Chr(_) => true
    case Sym(kind) => OpText(kind) != ""
  }

  /** Written right before the character c, the piece would not end where it ends. */
  predicate RunsOn(p: Piece, c: char) {
    match p
    case Word(_) => InWord(c)
    case Num(s) =>
      if Prefixed(s, 'x', 'X') then InHex(c)
      else if Prefixed(s, 'b', 'B') then '0' <= c <= '1'
      else '0' <= c <= '9' || (s == "0" && (c == 'x' || c == 'X' || c == 'b' || c == 'B'))
    case Sym(kind) =>
      (match kind
       case Add => c == '+'
       case Sub => c == '-'
       case Not => c == '='
       case Assign => c == '='
       case Lesser => c == '=' || c == '<'
       case Greater => c == '=' || c == '>'
       case Dev => c == '*'
       case _ => false)
    case _ => false
  }

  function Written(p: Piece): string {
    match p
    case Word(w) => w
    case Num(s) => s
    case Str(text) => ['"'] + Spell(text, '"') + ['"']
    case Chr(c) => ['\''] + Spell([c], '\'') + ['\'']
    case Sym(kind) => OpText(kind)
  }

  function Meant(p: Piece, strs: nat): Tok.Token {
    match p
    case Word(w) => Tok.Token(WordKind(w), w, 0)
    case Num(s) => Tok.Token(Tok.IntLit, s, NumberValue(s))
    case Str(text) => Tok.Token(Tok.StrLit, text, strs + 1)
    case Chr(c) => Tok.Token(Tok.IntLit, [c], CharValue(c))
    case Sym(kind) => Tok.Token(kind, "", 0)
  }

  function Count(p: Piece, strs: nat): nat {
    if p.Str? then strs + 1 else strs
  }

  function WrittenAll(ps: seq<Piece>): string {
    if ps == [] then "" else Written(ps[0]) + " " + WrittenAll(ps[1..])
  }

  function MeantAll(ps: seq<Piece>, strs: nat): seq<Tok.Token> {
    if ps == [] then [] else [Meant(ps[0], strs)] + MeantAll(ps[1..], Count(ps[0], strs))
  }

  /** `part` stands at i. */
  predicate Stands(buf: string, i: nat, part: string) {
    i + |part| <= |buf| && buf[i..i + |part|] == part
  }

  lemma StandsAt(buf: string, i: nat, part: string, k: nat)
    requires Stands(buf, i, part) && k < |part|
    ensures buf[i + k] == part[k]
  {
    assert buf[i..i + |part|][k] == part[k];
  }

  lemma RunIs(buf: string, i: nat, cl: Class, j: nat)
    requires i <= j <= |buf| && !In(cl, Peek(buf, j)) && forall k :: i <= k < j ==> In(cl, buf[k])
    ensures RunEnd(buf, i, cl) == j
  {
    var e := RunEnd(buf, i, cl);
  }

  /** A run of characters that all stand at i + k ends where they end. */
  lemma RunSame(s: string, k: nat, cl: Class, buf: string, i: nat)
    requires k <= |s| && Stands(buf, i, s) && !In(cl, Peek(buf, i + |s|))
    requires forall m :: k <= m < |s| ==> In(cl, s[m])
    ensures RunEnd(buf, i + k, cl) == i + |s|
  {
    forall m | i + k <= m < i + |s|
      ensures In(cl, buf[m])
    {
      StandsAt(buf, i, s, m - i);
    }
    RunIs(buf, i + k, cl, i + |s|);
  }

  lemma WordLexes(buf: string, i: nat, w: string, strs: nat)
    requires Proper(Word(w)) && Stands(buf, i, w) && !RunsOn(Word(w), Peek(buf, i + |w|))
    ensures RoundAt(buf, i, strs) == Emit(Meant(Word(w), strs), i + |w|, strs)
  {
    hide QuoteAt, OpAt, NumberEnd, WordKind, RunEnd;
    StandsAt(buf, i, w, 0);
    RunSame(w, 0, Words, buf, i);
  }

  lemma NumberSame(s: string, buf: string, i: nat)
    requires Proper(Num(s)) && Stands(buf, i, s) && !RunsOn(Num(s), Peek(buf, i + |s|))
    ensures Digit(buf[i]) && NumberEnd(buf, i) == i + |s|
  {
    hide RunEnd;
    StandsAt(buf, i, s, 0);
    if |s| > 1 {
      StandsAt(buf, i, s, 1);
    }
    if Prefixed(s, 'x', 'X') {
      RunSame(s, 2, Hex, buf, i);
    } else if Prefixed(s, 'b', 'B') {
      RunSame(s, 2, Bin, buf, i);
    } else {
      RunSame(s, if s[0] == '0' then 1 else 0, Digits, buf, i);
    }
  }

  lemma NumberLexes(buf: string, i: nat, s: string, strs: nat)
    requires Proper(Num(s)) && Stands(buf, i, s) && !RunsOn(Num(s), Peek(buf, i + |s|))
    ensures RoundAt(buf, i, strs) == Emit(Meant(Num(s), strs), i + |s|, strs)
  {
    hide QuoteAt, OpAt, NumberEnd, NumberValue, RunsOn;
    NumberSame(s, buf, i);
  }

  lemma InnerStands(buf: string, i: nat, q: char, body: string)
    requires Stands(buf, i, [q] + body + [q])
    ensures buf[i + 1..i + 1 + |body|] == body
  {
    var all := [q] + body + [q];
    var inner := buf[i + 1..i + 1 + |body|];
    forall k | 0 <= k < |body|
      ensures inner[k] == body[k]
    {
      StandsAt(buf, i, all, k + 1);
      assert inner[k] == buf[i + 1 + k] == buf[i + (k + 1)] == all[k + 1] == body[k];
    }
  }

  lemma QuoteLexes(buf: string, i: nat, text: string, q: char, strs: nat)
    requires (q == '"' || q == '\'') && Stands(buf, i, [q] + Spell(text, q) + [q])
    ensures buf[i] == q
    ensures QuoteAt(buf, i, strs) ==
      if q == '"' then Emit(Tok.Token(Tok.StrLit, text, strs + 1), i + |Spell(text, q)| + 2, strs + 1)
      else Emit(Tok.Token(Tok.IntLit, text, if text == "" then 0 else CharValue(text[0])), i + |Spell(text, q)| + 2,
                strs)
  {
    hide Spell, ScanFrom, Decode, Spells, CharValue;
    var body := Spell(text, q);
    var all := [q] + body + [q];
    var j := i + 1 + |body|;
    StandsAt(buf, i, all, 0);
    StandsAt(buf, i, all, 1 + |body|);
    InnerStands(buf, i, q, body);
    SpellSpells(text, q);
    LiteralIsExact(buf, i + 1, q, j, text);
  }

  lemma SymLexes(buf: string, i: nat, kind: Tok.Kind, strs: nat)
    requires OpText(kind) != "" && Stands(buf, i, OpText(kind)) && !RunsOn(Sym(kind), Peek(buf, i + |OpText(kind)|))
    ensures RoundAt(buf, i, strs) == Emit(Meant(Sym(kind), strs), i + |OpText(kind)|, strs)
  {
    hide QuoteAt, RunEnd, NumberEnd, NumberValue, WordKind, CommentEnd, OpAt, OpText, RunsOn;
    var s := OpText(kind);
    OpTextShort(kind);
    StandsAt(buf, i, s, 0);
    if |s| == 2 {
      StandsAt(buf, i, s, 1);
    }
    OpIs(kind, Peek(buf, i + |s|));
    OpFirst(kind);
  }

  /** The operator is taken before any character that does not continue it. */
  lemma OpIs(kind: Tok.Kind, c: char)
    requires OpText(kind) != "" && !RunsOn(Sym(kind), c)
    ensures OpAt(OpText(kind)[0], if |OpText(kind)| == 2 then OpText(kind)[1] else c) == Op(kind, |OpText(kind)|)
    ensures kind.Dev? ==> c != '*'
  {
  }

  /** No operator begins like anything else; `/` is a comment only before `*`. */
  lemma OpFirst(kind: Tok.Kind)
    requires OpText(kind) != ""
    ensures
      var c := OpText(kind)[0];
      !Space(c) && !Alpha(c) && c != '_' && !Digit(c) && c != '"' && c != '\''
    ensures OpText(kind)[0] == '/' ==> OpText(kind) == "/" && kind.Dev?
  {
  }

  lemma PieceLexes(buf: string, i: nat, p: Piece, strs: nat)
    requires Proper(p) && Stands(buf, i, Written(p)) && !RunsOn(p, Peek(buf, i + |Written(p)|))
    ensures Written(p) != ""
    ensures RoundAt(buf, i, strs) == Emit(Meant(p, strs), i + |Written(p)|, Count(p, strs))
  {
    hide RoundAt, Spell, NumberValue, WordKind, CharValue, OpText, RunsOn;
    match p
    case Word(w) => WordLexes(buf, i, w, strs);
    case Num(s) => NumberLexes(buf, i, s, strs);
    case Str(text) =>
      QuoteLexes(buf, i, text, '"', strs);
      QuoteRound(buf, i, strs);
    case Chr(c) =>
      QuoteLexes(buf, i, [c], '\'', strs);
      QuoteRound(buf, i, strs);
    case Sym(kind) => SymLexes(buf, i, kind, strs);
  }

  lemma QuoteRound(buf: string, i: nat, strs: nat)
    requires i < |buf| && (buf[i] == '"' || buf[i] == '\'')
    ensures RoundAt(buf, i, strs) == QuoteAt(buf, i, strs)
  {
    hide QuoteAt;
  }

  /** Lexing undoes printing: words, numbers in any base, strings, characters and operators come
      back with their kinds, spellings and values, keywords apart from identifiers and the strings
      numbered in order. */
  lemma {:induction false} LexingUndoes(buf: string, i: nat, ps: seq<Piece>, strs: nat)
    requires (forall p :: p in ps ==> Proper(p)) && i <= |buf| && buf[i..] == WrittenAll(ps)
    ensures LexFrom(buf, i, strs) == Lexed(MeantAll(ps, strs))
    decreases |ps|
  {
    hide RoundAt, Written, Meant, Proper, RunsOn;
    if ps != [] {
      var s, rest := Written(ps[0]), WrittenAll(ps[1..]);
      Split(buf, i, s, rest);
      BlankEnds(ps[0]);
      PieceLexes(buf, i, ps[0], strs);
      var j := i + |s|;
      BlankRound(buf, j, Count(ps[0], strs));
      LexingUndoes(buf, j + 1, ps[1..], Count(ps[0], strs));
    }
  }

  lemma BlankEnds(p: Piece)
    ensures !RunsOn(p, ' ')
  {
  }

  lemma Split(buf: string, i: nat, s: string, rest: string)
    requires i <= |buf| && buf[i..] == s + " " + rest
    ensures Stands(buf, i, s) && i + |s| + 1 <= |buf| && buf[i + |s|] == ' ' && buf[i + |s| + 1..] == rest
  {
    assert |buf| == i + |s| + 1 + |rest|;
    assert buf[i..i + |s|] == buf[i..][..|s|] == (s + " " + rest)[..|s|];
    assert buf[i + |s|] == buf[i..][|s|] == (s + " " + rest)[|s|];
    assert buf[i + |s| + 1..] == buf[i..][|s| + 1..] == (s + " " + rest)[|s| + 1..];
  }

  lemma BlankRound(buf: string, i: nat, strs: nat)
    requires i < |buf| && buf[i] == ' '
    ensures RoundAt(buf, i, strs) == Skip(i + 1)
  {
  }

  /** A token that the lexer could have made, when `strs` strings came before it. */
  predicate Canonical(t: Tok.Token, strs: nat) {
    match t.kind
    case Identifier => Proper(Word(t.lexeme)) && WordKind(t.lexeme) == Tok.Identifier && t.intLit == 0
    case IntLit =>
      || (Proper(Num(t.lexeme)) && t.intLit == NumberValue(t.lexeme))
      || (|t.lexeme| == 1 && !Digit(t.lexeme[0]) && t.intLit == CharValue(t.lexeme[0]))
    case StrLit => t.intLit == strs + 1
    case _ => t.intLit == 0 && t.lexeme == KeywordText(t.kind) && (KeywordText(t.kind) != "" || OpText(t.kind) != "")
  }

  predicate CanonicalAll(toks: seq<Tok.Token>, strs: nat) {
    toks == [] || (Canonical(toks[0], strs) && CanonicalAll(toks[1..], if toks[0].kind.StrLit? then strs + 1 else strs))
  }

  /** How a token is written. */
  function PieceOf(t: Tok.Token): Piece {
    match t.kind
    case Identifier => Word(t.lexeme)
    case IntLit => if |t.lexeme| == 1 && !Digit(t.lexeme[0]) then Chr(t.lexeme[0]) else Num(t.lexeme)
    case StrLit => Str(t.lexeme)
    case _ => if KeywordText(t.kind) != "" then Word(KeywordText(t.kind)) else Sym(t.kind)
  }

  function PiecesOf(toks: seq<Tok.Token>): (ps: seq<Piece>)
    ensures |ps| == |toks| && forall i :: 0 <= i < |toks| ==> ps[i] == PieceOf(toks[i])
  {
    seq(|toks|, i requires 0 <= i < |toks| => PieceOf(toks[i]))
  }

  lemma KeywordIsWord(kind: Tok.Kind)
    requires KeywordText(kind) != ""
    ensures Proper(Word(KeywordText(kind))) && WordKind(KeywordText(kind)) == kind
  {
  }

  lemma PieceMeans(t: Tok.Token, strs: nat)
    requires Canonical(t, strs)
    ensures Proper(PieceOf(t)) && Meant(PieceOf(t), strs) == t
    ensures Count(PieceOf(t), strs) == if t.kind.StrLit? then strs + 1 else strs
  {
    hide OpText, KeywordText, WordKind, NumberValue, NumberEnd, CharValue;
    if KeywordText(t.kind) != "" {
      KeywordIsWord(t.kind);
    }
  }

  lemma PiecesCons(toks: seq<Tok.Token>, strs: nat)
    requires toks != []
    ensures PiecesOf(toks) == [PieceOf(toks[0])] + PiecesOf(toks[1..])
    ensures MeantAll([PieceOf(toks[0])] + PiecesOf(toks[1..]), strs)
            == [Meant(PieceOf(toks[0]), strs)] + MeantAll(PiecesOf(toks[1..]), Count(PieceOf(toks[0]), strs))
  {
    hide PieceOf, Meant, Count;
    var p, ps := PieceOf(toks[0]), PiecesOf(toks[1..]);
    assert ([p] + ps)[1..] == ps;
  }

  lemma CanonicalCons(toks: seq<Tok.Token>, strs: nat)
    requires toks != [] && CanonicalAll(toks, strs)
    ensures Canonical(toks[0], strs) && CanonicalAll(toks[1..], if toks[0].kind.StrLit? then strs + 1 else strs)
  {
    hide Canonical;
  }

  lemma NoPieces(strs: nat)
    ensures PiecesOf([]) == [] && MeantAll([], strs) == []
  {
  }

  lemma {:induction false} PiecesMean(toks: seq<Tok.Token>, strs: nat)
    requires CanonicalAll(toks, strs)
    ensures forall p :: p in PiecesOf(toks) ==> Proper(p)
    ensures MeantAll(PiecesOf(toks), strs) == toks
    decreases |toks|
  {
    hide *;
    if toks == [] {
      NoPieces(strs);
    } else {
      CanonicalCons(toks, strs);
      PieceMeans(toks[0], strs);
      PiecesMean(toks[1..], if toks[0].kind.StrLit? then strs + 1 else strs);
      PiecesCons(toks, strs);
      assert toks == [toks[0]] + toks[1..];
    }
  }

  /** The file that spells a token list, one blank behind each token. */
  function FileOf(toks: seq<Tok.Token>): string {
    WrittenAll(PiecesOf(toks))
  }

  /** Every list of tokens that the lexer could have made is what it makes of its spelling. */
  lemma TokensComeBack(toks: seq<Tok.Token>)
    requires CanonicalAll(toks, 0)
    ensures LexFrom(FileOf(toks), 0, 0) == Lexed(toks)
  {
    hide PiecesOf, LexFrom, WrittenAll, MeantAll, CanonicalAll;
    PiecesMean(toks, 0);
    LexingUndoes(FileOf(toks), 0, PiecesOf(toks), 0);
  }

  // ----- numbers -----

  function Symbol(d: nat): char
    requires d < 16
  {
    if d < 10 then d as char + '0' else (d - 10) as char + 'a'
  }

  /** The digits of n, the highest first. */
  function NumeralOf(n: nat, base: nat): string
    requires 2 <= base <= 16
  {
    if n < base then [Symbol(n)] else NumeralOf(n / base, base) + [Symbol(n % base)]
  }

  lemma {:induction false} NumberMore(s: string, c: char, base: nat, acc: nat)
    requires DigitValue(c) < base && forall k :: 0 <= k < |s| ==> DigitValue(s[k]) < base
    ensures Number(s + [c], base, acc) == Number(s, base, acc) * base + DigitValue(c)
    decreases |s|
  {
    if s == "" {
      assert (s + [c])[1..] == "";
    } else {
      assert (s + [c])[1..] == s[1..] + [c];
      NumberMore(s[1..], c, base, acc * base + DigitValue(s[0]));
    }
  }

  /** Reading the numeral of n gives n back. */
  lemma {:induction false} NumeralReads(n: nat, base: nat)
    requires 2 <= base <= 16
    ensures forall k :: 0 <= k < |NumeralOf(n, base)| ==> DigitValue(NumeralOf(n, base)[k]) < base
    ensures Number(NumeralOf(n, base), base, 0) == n
    ensures NumeralOf(n, base) != "" && (n > 0 ==> NumeralOf(n, base)[0] != '0')
    decreases n
  {
    hide DigitValue, Symbol;
    if n < base {
      SymbolValue(n);
      assert [Symbol(n)][1..] == "";
      assert Number("", base, n) == n;
    } else {
      DivideLess(n, base);
      NumeralReads(n / base, base);
      SymbolValue(n % base);
      NumberMore(NumeralOf(n / base, base), Symbol(n % base), base, 0);
    }
  }

  lemma DivideLess(n: nat, base: nat)
    requires 2 <= base <= n
    ensures 0 < n / base < n && n == n / base * base + n % base && n % base < base
  {
    var q, r := n / base, n % base;
    assert n == q * base + r && r < base;
    hide *;
    Doubles(q, base);
    assert q != 0;
  }

  lemma Doubles(q: nat, base: nat)
    requires 2 <= base
    ensures 2 * q <= q * base && (q == 0 ==> q * base == 0)
  {
    assert q * base == q * 2 + q * (base - 2);
    assert q * (base - 2) >= 0;
  }

  lemma SymbolValue(d: nat)
    requires d < 16
    ensures DigitValue(Symbol(d)) == d && (d > 0 ==> Symbol(d) != '0')
  {
  }
}
