/** Files laid out in any way: tokens with blanks, line ends and comments between them, or with nothing
    where nothing is needed; and what the tokens mean, character by character. */
module Spacing {
  import opened Strings
  import opened Lexing
  import Tok = Tokens

  // ----- between the tokens -----

  /** One of the six blank characters, or a comment: the text between its first slash and its last star
      and slash. */
  datatype Gap = Blank(c: char) | Comment(body: string)

  /** A comment opens with a star, which may be the one that closes it, and closes at the first star and
      slash. */
  predicate GoodGap(g: Gap) {
    match g
    case Blank(c) => c == ' ' || c == '\t' || c == '\n' || c == '\r' || c == 11 as char || c == 12 as char
    case Comment(body) =>
      var s := body + "*";
      s[0] == '*' && forall k :: 0 <= k < |body| ==> !(s[k] == '*' && s[k + 1] == '/')
  }

  function GapText(g: Gap): (s: string)
    ensures s != ""
  {
    match g
    case Blank(c) => [c]
    case Comment(body) => "/" + body + "*/"
  }

  function GapsText(gs: seq<Gap>): string {
    if gs == [] then "" else GapText(gs[0]) + GapsText(gs[1..])
  }

  /** Gaps and pieces in turn, a list of gaps before, between and behind the pieces. */
  function TextOf(ps: seq<Piece>, gaps: seq<seq<Gap>>): string
    requires |gaps| == |ps| + 1
  {
    GapsText(gaps[0]) + if ps == [] then "" else Written(ps[0]) + TextOf(ps[1..], gaps[1..])
  }

  /** No piece runs on into what stands behind it. */
  predicate KeptApart(ps: seq<Piece>, gaps: seq<seq<Gap>>)
    requires |gaps| == |ps| + 1
  {
    ps == [] || (!RunsOn(ps[0], Peek(TextOf(ps[1..], gaps[1..]), 0)) && KeptApart(ps[1..], gaps[1..]))
  }

  predicate GoodGaps(gaps: seq<seq<Gap>>) {
    forall gs :: gs in gaps ==> forall g :: g in gs ==> GoodGap(g)
  }

  // ----- one gap -----

  lemma {:induction false} CommentEndIs(buf: string, i: nat, end: nat)
    requires i + 2 <= end <= |buf| && buf[end - 2] == '*' && buf[end - 1] == '/'
    requires forall k :: i <= k < end - 2 ==> !(buf[k] == '*' && buf[k + 1] == '/')
    ensures CommentEnd(buf, i) == end
    decreases end - i
  {
    if i + 2 < end {
      CommentEndIs(buf, i + 1, end);
    }
  }

  lemma CommentSkipped(buf: string, i: nat, body: string, strs: nat)
    requires GoodGap(Comment(body)) && Stands(buf, i, GapText(Comment(body)))
    ensures RoundAt(buf, i, strs) == Skip(i + |body| + 3)
  {
    hide CommentEnd;
    var all := GapText(Comment(body));
    var s := body + "*";
    var end := i + |body| + 3;
    assert forall k :: 0 <= k < |s| ==> all[k + 1] == s[k];
    forall k | 0 <= k < |all|
      ensures buf[i + k] == all[k]
    {
      StandsAt(buf, i, all, k);
    }
    assert buf[i + 1] == all[1] == s[0];
    forall k | i + 1 <= k < end - 2
      ensures !(buf[k] == '*' && buf[k + 1] == '/')
    {
      var j := k - i - 1;
      assert buf[i + (j + 1)] == all[j + 1] == s[j] && buf[i + (j + 2)] == all[j + 2] == s[j + 1];
    }
    assert buf[i + (|all| - 2)] == '*' && buf[i + (|all| - 1)] == '/';
    CommentEndIs(buf, i + 1, end);
  }

  lemma GapSkipped(buf: string, i: nat, g: Gap, strs: nat)
    requires GoodGap(g) && Stands(buf, i, GapText(g))
    ensures RoundAt(buf, i, strs) == Skip(i + |GapText(g)|)
  {
    match g
    case Blank(c) => StandsAt(buf, i, [c], 0);
    case Comment(body) => CommentSkipped(buf, i, body, strs);
  }

  lemma StandsSplit(buf: string, i: nat, a: string, b: string)
    requires i <= |buf| && buf[i..] == a + b
    ensures Stands(buf, i, a) && i + |a| <= |buf| && buf[i + |a|..] == b
  {
    assert |buf| == i + |a| + |b|;
    assert buf[i..i + |a|] == buf[i..][..|a|] == (a + b)[..|a|];
    assert buf[i + |a|..] == buf[i..][|a|..] == (a + b)[|a|..];
  }

  lemma {:induction false} GapsSkipped(buf: string, i: nat, gs: seq<Gap>, rest: string, strs: nat)
    requires i <= |buf| && buf[i..] == GapsText(gs) + rest && forall g :: g in gs ==> GoodGap(g)
    ensures i + |GapsText(gs)| <= |buf| && buf[i + |GapsText(gs)|..] == rest
    ensures LexFrom(buf, i, strs) == LexFrom(buf, i + |GapsText(gs)|, strs)
    decreases |gs|
  {
    hide RoundAt, GoodGap, GapText;
    if gs != [] {
      var a, b := GapText(gs[0]), GapsText(gs[1..]) + rest;
      assert GapsText(gs) + rest == a + b;
      StandsSplit(buf, i, a, b);
      GapSkipped(buf, i, gs[0], strs);
      GapsSkipped(buf, i + |a|, gs[1..], rest, strs);
    }
  }

  // ----- whole files -----

  /** A file is lexed to its pieces whatever stands between them, as long as no piece runs on into what
      follows it. */
  lemma {:induction false} LayoutLexes(buf: string, i: nat, ps: seq<Piece>, gaps: seq<seq<Gap>>, strs: nat)
    requires |gaps| == |ps| + 1 && (forall p :: p in ps ==> Proper(p)) && GoodGaps(gaps) && KeptApart(ps, gaps)
    requires i <= |buf| && buf[i..] == TextOf(ps, gaps)
    ensures LexFrom(buf, i, strs) == Lexed(MeantAll(ps, strs))
    decreases |ps|
  {
    hide *;
    FewerGaps(gaps);
    if ps == [] {
      NoMore(ps, gaps, strs);
      GapsSkipped(buf, i, gaps[0], "", strs);
      LexedEnd(buf, i + |GapsText(gaps[0])|, strs);
    } else {
      var s, rest := Written(ps[0]), TextOf(ps[1..], gaps[1..]);
      OneMore(ps, gaps, strs);
      GapsSkipped(buf, i, gaps[0], s + rest, strs);
      var j := i + |GapsText(gaps[0])|;
      StandsSplit(buf, j, s, rest);
      PeekBehind(buf, j + |s|, rest);
      PieceLexes(buf, j, ps[0], strs);
      LayoutLexes(buf, j + |s|, ps[1..], gaps[1..], Count(ps[0], strs));
      LexedMore(buf, j, strs, Meant(ps[0], strs), j + |s|, Count(ps[0], strs));
    }
  }

  lemma NoMore(ps: seq<Piece>, gaps: seq<seq<Gap>>, strs: nat)
    requires |gaps| == 1 && ps == []
    ensures TextOf(ps, gaps) == GapsText(gaps[0]) + "" && MeantAll(ps, strs) == []
  {
  }

  lemma OneMore(ps: seq<Piece>, gaps: seq<seq<Gap>>, strs: nat)
    requires |gaps| == |ps| + 1 && ps != [] && KeptApart(ps, gaps)
    ensures TextOf(ps, gaps) == GapsText(gaps[0]) + (Written(ps[0]) + TextOf(ps[1..], gaps[1..]))
    ensures MeantAll(ps, strs) == [Meant(ps[0], strs)] + MeantAll(ps[1..], Count(ps[0], strs))
    ensures !RunsOn(ps[0], Peek(TextOf(ps[1..], gaps[1..]), 0)) && KeptApart(ps[1..], gaps[1..])
  {
    hide Written, Meant, GapsText, RunsOn;
  }

  lemma LexedEnd(buf: string, i: nat, strs: nat)
    requires i <= |buf| && buf[i..] == ""
    ensures LexFrom(buf, i, strs) == Lexed([])
  {
    assert i == |buf|;
  }

  lemma LexedMore(buf: string, i: nat, strs: nat, tok: Tok.Token, j: nat, n: nat)
    requires i < |buf| && RoundAt(buf, i, strs) == Emit(tok, j, n) && j <= |buf| && LexFrom(buf, j, n).Lexed?
    ensures LexFrom(buf, i, strs) == Lexed([tok] + LexFrom(buf, j, n).toks)
  {
    hide RoundAt;
  }

  lemma FewerGaps(gaps: seq<seq<Gap>>)
    requires GoodGaps(gaps) && gaps != []
    ensures GoodGaps(gaps[1..]) && forall g :: g in gaps[0] ==> GoodGap(g)
  {
    assert gaps[0] in gaps;
    assert forall gs :: gs in gaps[1..] ==> gs in gaps;
  }

  lemma PeekBehind(buf: string, i: nat, rest: string)
    requires i <= |buf| && buf[i..] == rest
    ensures Peek(buf, i) == Peek(rest, 0)
  {
  }

  /** Any gap keeps any two pieces apart, and so does the end of the file. */
  lemma {:induction false} GapsKeepApart(ps: seq<Piece>, gaps: seq<seq<Gap>>)
    requires |gaps| == |ps| + 1 && GoodGaps(gaps) && forall k :: 0 < k < |ps| ==> gaps[k] != []
    ensures KeptApart(ps, gaps)
    decreases |ps|
  {
    hide RunsOn, GapText, GoodGap;
    if ps != [] {
      FewerGaps(gaps);
      GapsKeepApart(ps[1..], gaps[1..]);
      var rest := TextOf(ps[1..], gaps[1..]);
      assert gaps[1] in gaps;
      if gaps[1] != [] {
        assert rest[0] == GapText(gaps[1][0])[0];
        GapEnds(ps[0], gaps[1][0]);
      } else {
        assert rest == "";
        EndEnds(ps[0]);
      }
    }
  }

  lemma GapEnds(p: Piece, g: Gap)
    requires GoodGap(g)
    ensures !RunsOn(p, GapText(g)[0])
  {
  }

  lemma EndEnds(p: Piece)
    ensures !RunsOn(p, 0 as char)
  {
  }

  /** Tokens with at least one blank, line end or comment between any two of them are lexed to
      themselves. */
  lemma SpacedLexes(ps: seq<Piece>, gaps: seq<seq<Gap>>)
    requires |gaps| == |ps| + 1 && (forall p :: p in ps ==> Proper(p)) && GoodGaps(gaps)
    requires forall k :: 0 < k < |ps| ==> gaps[k] != []
    ensures LexFrom(TextOf(ps, gaps), 0, 0) == Lexed(MeantAll(ps, 0))
  {
    hide LexFrom, TextOf, MeantAll, Proper, GoodGaps, KeptApart;
    GapsKeepApart(ps, gaps);
    LayoutLexes(TextOf(ps, gaps), 0, ps, gaps, 0);
  }

  /** A comment that is never closed hides the rest of the file. */
  lemma {:induction false} OpenComment(buf: string, i: nat, strs: nat)
    requires i + 1 < |buf| && buf[i] == '/' && buf[i + 1] == '*'
    requires forall k :: i < k < |buf| - 1 ==> !(buf[k] == '*' && buf[k + 1] == '/')
    ensures LexFrom(buf, i, strs) == Lexed([])
  {
    hide CommentEnd;
    NeverEnds(buf, i + 1);
    assert RoundAt(buf, i, strs) == Skip(|buf|);
  }

  lemma {:induction false} NeverEnds(buf: string, i: nat)
    requires i <= |buf| && forall k :: i <= k < |buf| - 1 ==> !(buf[k] == '*' && buf[k + 1] == '/')
    ensures CommentEnd(buf, i) == |buf|
    decreases |buf| - i
  {
    if i < |buf| {
      NeverEnds(buf, i + 1);
    }
  }

  // ----- what is written for what -----

  /** The seven words that are not identifiers. */
  const KEYWORDS: map<string, Tok.Kind> := map[
    "extrn" := Tok.Extrn, "auto" := Tok.Auto, "if" := Tok.If, "else" := Tok.Else, "while" := Tok.While,
    "goto" := Tok.Goto, "return" := Tok.Return
  ]

  /** Operators and separators. */
  const SYMBOLS: set<Tok.Kind> := {
    Tok.OBrace, Tok.CBrace, Tok.OBracket, Tok.CBracket, Tok.OPren, Tok.CPren, Tok.Semicolon, Tok.Colon, Tok.QMark,
    Tok.Comma, Tok.BitAnd, Tok.BitOr, Tok.Mul, Tok.Dev, Tok.Mod, Tok.Add, Tok.Inc, Tok.Sub, Tok.Dec, Tok.Not,
    Tok.NotEqual, Tok.Assign, Tok.Equal, Tok.Lesser, Tok.LesserEqual, Tok.BitshiftL, Tok.Greater, Tok.GreaterEqual,
    Tok.BitshiftR
  }

  /** Words in lower case mean the keywords, all others are identifiers. */
  lemma WordsMean(w: string, strs: nat)
    ensures Meant(Word(w), strs) == Tok.Token(if w in KEYWORDS then KEYWORDS[w] else Tok.Identifier, w, 0)
  {
  }

  lemma SeparatorsAre(kind: Tok.Kind)
    ensures (kind.OBrace? ==> OpText(kind) == "{") && (kind.CBrace? ==> OpText(kind) == "}")
    ensures (kind.OBracket? ==> OpText(kind) == "[") && (kind.CBracket? ==> OpText(kind) == "]")
    ensures (kind.OPren? ==> OpText(kind) == "(") && (kind.CPren? ==> OpText(kind) == ")")
    ensures (kind.Semicolon? ==> OpText(kind) == ";") && (kind.Colon? ==> OpText(kind) == ":")
    ensures (kind.QMark? ==> OpText(kind) == "?") && (kind.Comma? ==> OpText(kind) == ",")
  {
  }

  lemma ArithmeticAre(kind: Tok.Kind)
    ensures (kind.Add? ==> OpText(kind) == "+") && (kind.Inc? ==> OpText(kind) == "++")
    ensures (kind.Sub? ==> OpText(kind) == "-") && (kind.Dec? ==> OpText(kind) == "--")
    ensures (kind.Mul? ==> OpText(kind) == "*") && (kind.Dev? ==> OpText(kind) == "/")
    ensures (kind.Mod? ==> OpText(kind) == "%") && (kind.Not? ==> OpText(kind) == "!")
    ensures (kind.BitAnd? ==> OpText(kind) == "&") && (kind.BitOr? ==> OpText(kind) == "|")
  {
  }

  lemma ComparisonsAre(kind: Tok.Kind)
    ensures (kind.Assign? ==> OpText(kind) == "=") && (kind.Equal? ==> OpText(kind) == "==")
    ensures (kind.NotEqual? ==> OpText(kind) == "!=") && (kind.Lesser? ==> OpText(kind) == "<")
    ensures (kind.LesserEqual? ==> OpText(kind) == "<=") && (kind.BitshiftL? ==> OpText(kind) == "<<")
    ensures (kind.Greater? ==> OpText(kind) == ">") && (kind.GreaterEqual? ==> OpText(kind) == ">=")
    ensures (kind.BitshiftR? ==> OpText(kind) == ">>")
  {
  }

  /** The operators and separators, and no other kinds, are written as symbols. */
  lemma OnlySymbols(kind: Tok.Kind)
    ensures Proper(Sym(kind)) <==> kind in SYMBOLS
  {
    if kind in SYMBOLS {
      hide OpText;
      SeparatorsAre(kind);
      ArithmeticAre(kind);
      ComparisonsAre(kind);
    } else {
      OthersAreNone(kind);
    }
  }

  lemma OthersAreNone(kind: Tok.Kind)
    requires kind !in SYMBOLS
    ensures OpText(kind) == ""
  {
  }

  // ----- other characters -----

  /** A character that is neither a blank nor begins a word, a number, a literal or an operator. */
  predicate Foreign(c: char) {
    && c != ' ' && c != '\t' && c != '\n' && c != '\r' && c != 11 as char && c != 12 as char
    && !InWord(c) && c != '"' && c != '\''
    && c !in ['{', '}', '[', ']', '(', ')', ';', ':', '?', ',', '&', '|', '*', '/', '%', '+', '-', '!', '=', '<', '>']
  }

  /** Any such character is an unknown token by itself. */
  lemma ForeignCharacter(buf: string, i: nat, strs: nat)
    requires i < |buf| && Foreign(buf[i])
    ensures RoundAt(buf, i, strs) == Emit(Tok.Token(Tok.Unknown, "", 0), i + 1, strs)
  {
    hide QuoteAt, RunEnd, NumberEnd, CommentEnd;
  }
}
