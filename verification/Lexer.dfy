/** src/lexer.c in its own form: a cursor over the file, moved by scanning loops. Every method is
    proved to read what the functions of `Lexing` and `Strings` say. */
module Lexers {
  import opened Strings
  import opened Lexing
  import Tok = Tokens

  class Lexer {
    const buf: string
    var i: nat
    var strs: nat               // srt_data_c
    var toks: seq<Tok.Token>

    ghost predicate Valid()
      reads this
    {
      i <= |buf|
    }

    constructor (buffer: string)
      ensures Valid() && buf == buffer && i == 0 && strs == 0 && toks == []
    {
      buf, i, strs, toks := buffer, 0, 0, [];
    }

    function Peak(offset: nat): char
      reads this
    {
      Peek(buf, i + offset)
    }

    method Consume()
      requires i < |buf|
      modifies this`i
      ensures i == old(i) + 1
    {
      i := i + 1;
    }

    method AddToken(kind: Tok.Kind, lexeme: string, intLit: nat)
      modifies this`toks
      ensures toks == old(toks) + [Tok.Token(kind, lexeme, intLit)]
    {
      toks := toks + [Tok.Token(kind, lexeme, intLit)];
    }

    /** Over the characters of a class. */
    method Run(cl: Class)
      requires Valid()
      modifies this`i
      ensures Valid() && i == RunEnd(buf, old(i), cl)
    {
      while In(cl, Peak(0))
        invariant Valid() && RunEnd(buf, i, cl) == RunEnd(buf, old(i), cl)
        decreases |buf| - i
      {
        Consume();
      }
    }

    method GetWord() returns (word: string)
      requires Valid()
      modifies this`i
      ensures Valid() && i == RunEnd(buf, old(i), Words) && word == buf[old(i)..i]
    {
      var start := i;
      Run(Words);
      word := buf[start..i];
    }

    method GetDigit() returns (num: string)
      requires i < |buf| && Digit(buf[i])
      modifies this`i
      ensures Valid() && i == NumberEnd(buf, old(i)) && num == buf[old(i)..i]
    {
      var start := i;
      if Peak(0) == '0' {
        var next := Peak(1);
        Consume();
        if next == 'x' || next == 'X' {
          Consume();
          Run(Hex);
        } else if next == 'b' || next == 'B' {
          Consume();
          Run(Bin);
        } else {
          Run(Digits);
        }
      } else {
        Run(Digits);
      }
      num := buf[start..i];
    }

    /** The body of a literal, decoded where it was copied to. */
    method GetString(q: char) returns (ok: bool, text: string)
      requires i < |buf| && buf[i] == q && (q == '"' || q == '\'')
      modifies this`i
      ensures Valid()
      ensures
        var scan := ScanFrom(buf, old(i) + 1, q);
        if scan.Unterminated? then !ok
        else Decode(buf[old(i) + 1..scan.at]) == (if ok then Text(text) else Bad) && (ok ==> i == scan.at + 1)
    {
      hide Decode, Paired;
      Consume();
      var start := i;
      ok, text := true, "";
      while Peak(0) != q
        invariant Valid() && start <= i
        invariant ScanFrom(buf, i, q) == ScanFrom(buf, start, q)
        decreases |buf| - i
      {
        var c := Peak(0);
        if Ends(c) {
          ok := false;
          return;
        }
        if c == '*' {
          Consume();
          c := Peak(0);
          if Ends(c) {
            ok := false;
            return;
          }
        }
        Consume();
      }
      ScanPairs(buf, start, q);
      var body := buf[start..i];
      var copy := new char[|body|](k requires 0 <= k < |body| => body[k]);
      assert copy[..] == body;
      Consume();
      var w;
      ok, w := DecodeInPlace(copy);
      text := copy[..w];
    }

    /** From the slash that opens a comment to behind the slash that closes it. */
    method SkipComment()
      requires i < |buf| && buf[i] == '/'
      modifies this`i
      ensures Valid() && i == CommentEnd(buf, old(i) + 1)
    {
      while i < |buf|
        invariant Valid()
        invariant CommentEnd(buf, i) == CommentEnd(buf, old(i) + 1)
        decreases |buf| - i
      {
        if Peak(0) == '*' && Peak(1) == '/' {
          Consume();
          Consume();
          return;
        }
        Consume();
      }
    }

    /** Two characters if the second is there, and one otherwise. */
    method PairKind(second: char, one: Tok.Kind, two: Tok.Kind) returns (kind: Tok.Kind)
      requires i < |buf| && !Ends(second)
      modifies this`i
      ensures old(i) <= i < |buf| && kind == Pair(Peek(buf, old(i) + 1), second, one, two).kind
      ensures i + 1 == old(i) + Pair(Peek(buf, old(i) + 1), second, one, two).len
    {
      if Peak(1) == second {
        kind := two;
        Consume();
      } else {
        kind := one;
      }
    }

    /** The operator at the cursor, which is left on its last character. */
    method GetOperator() returns (kind: Tok.Kind)
      requires i < |buf|
      modifies this`i
      ensures old(i) <= i < |buf| && kind == OpAt(buf[old(i)], Peek(buf, old(i) + 1)).kind
      ensures i + 1 == old(i) + OpAt(buf[old(i)], Peek(buf, old(i) + 1)).len
    {
      hide Pair;
      var c := Peak(0);
      match c
      case '{' => kind := Tok.OBrace;
      case '}' => kind := Tok.CBrace;
      case '[' => kind := Tok.OBracket;
      case ']' => kind := Tok.CBracket;
      case '(' => kind := Tok.OPren;
      case ')' => kind := Tok.CPren;
      case ';' => kind := Tok.Semicolon;
      case ':' => kind := Tok.Colon;
      case '?' => kind := Tok.QMark;
      case '&' => kind := Tok.BitAnd;
      case '|' => kind := Tok.BitOr;
      case ',' => kind := Tok.Comma;
      case '*' => kind := Tok.Mul;
      case '/' => kind := Tok.Dev;
      case '%' => kind := Tok.Mod;
      case '+' => kind := PairKind('+', Tok.Add, Tok.Inc);
      case '-' => kind := PairKind('-', Tok.Sub, Tok.Dec);
      case '!' => kind := PairKind('=', Tok.Not, Tok.NotEqual);
      case '=' => kind := PairKind('=', Tok.Assign, Tok.Equal);
      case '<' =>
        if Peak(1) == '=' {
          kind := Tok.LesserEqual;
          Consume();
        } else {
          kind := PairKind('<', Tok.Lesser, Tok.BitshiftL);
        }
      case '>' =>
        if Peak(1) == '=' {
          kind := Tok.GreaterEqual;
          Consume();
        } else {
          kind := PairKind('>', Tok.Greater, Tok.BitshiftR);
        }
      case _ => kind := Tok.Unknown;
    }

    /** One round of the lexer. */
    method Round() returns (ok: bool)
      requires i < |buf|
      modifies this
      ensures Valid() && (ok ==> i > old(i))
      ensures
        match RoundAt(buf, old(i), old(strs))
        case Dead => !ok
        case Skip(at) => ok && i == at && strs == old(strs) && toks == old(toks)
        case Emit(tok, at, n) => ok && i == at && strs == n && toks == old(toks) + [tok]
    {
      hide OpAt, ScanFrom, Decode, NumberEnd, RunEnd, CommentEnd, NumberValue, WordKind, CharValue;
      ok := true;
      var c := Peak(0);
      if Space(c) {
        Consume();
      } else if Alpha(c) || c == '_' {
        var word := GetWord();
        AddToken(WordKind(word), word, 0);
      } else if Digit(c) {
        var num := GetDigit();
        AddToken(Tok.IntLit, num, NumberValue(num));
      } else if c == '"' || c == '\'' {
        var text;
        ok, text := GetString(c);
        if ok && c == '"' {
          strs := strs + 1;
          AddToken(Tok.StrLit, text, strs);
        } else if ok {
          AddToken(Tok.IntLit, text, if text == "" then 0 else CharValue(text[0]));
        }
      } else if c == '/' && Peak(1) == '*' {
        SkipComment();
      } else {
        var kind := GetOperator();
        AddToken(kind, "", 0);
        Consume();
      }
    }

    /** The whole file. */
    method Lex() returns (ok: bool)
      requires Valid() && i == 0 && strs == 0 && toks == []
      modifies this
      ensures LexFrom(buf, 0, 0) == if ok then Lexed(toks) else Died
    {
      hide RoundAt;
      ok := true;
      while i < |buf|
        invariant Valid() && ok
        invariant Going(LexFrom(buf, 0, 0), LexFrom(buf, i, strs), toks)
        decreases |buf| - i
      {
        ghost var done := toks;
        GoingStep(buf, i, strs, toks);
        ok := Round();
        if !ok {
          return;
        }
      }
      assert LexFrom(buf, i, strs) == Lexed([]);
    }
  }

  /** `done` has been read; `rest` is to come. */
  ghost predicate Going(all: Lexed, rest: Lexed, done: seq<Tok.Token>) {
    if rest.Died? then all.Died? else all == Lexed(done + rest.toks)
  }

  lemma {:induction false} GoingStep(buf: string, i: nat, strs: nat, done: seq<Tok.Token>)
    requires i < |buf| && Going(LexFrom(buf, 0, 0), LexFrom(buf, i, strs), done)
    ensures
      match RoundAt(buf, i, strs)
      case Dead => LexFrom(buf, 0, 0).Died?
      case Skip(j) => Going(LexFrom(buf, 0, 0), LexFrom(buf, j, strs), done)
      case Emit(tok, j, n) => Going(LexFrom(buf, 0, 0), LexFrom(buf, j, n), done + [tok])
  {
    hide RoundAt;
    match RoundAt(buf, i, strs)
    case Emit(tok, j, n) =>
      var rest := LexFrom(buf, j, n);
      if rest.Lexed? {
        assert done + ([tok] + rest.toks) == done + [tok] + rest.toks;
      }
    case _ =>
  }
}
