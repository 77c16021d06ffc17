/** What literals mean, digit by digit and escape by escape. */
module Literals {
  import opened Strings
  import opened Lexing
  import Tok = Tokens

  // ----- numbers -----

  /** The sixteen digits, letters in either case. */
  lemma DigitsMean(d: nat)
    requires d < 16
    ensures DigitValue("0123456789abcdef"[d]) == d && DigitValue("0123456789ABCDEF"[d]) == d
    ensures Symbol(d) == "0123456789abcdef"[d]
  {
  }

  /** `s` is `t` with any of its hexadecimal letters in upper case. */
  predicate EitherCase(s: string, t: string) {
    && |s| == |t|
    && forall k :: 0 <= k < |s| ==> s[k] == t[k] || ('a' <= t[k] <= 'f' && s[k] as int == t[k] as int - 32)
  }

  lemma {:induction false} CaseReads(s: string, t: string, base: nat, acc: nat)
    requires EitherCase(s, t)
    ensures Number(s, base, acc) == Number(t, base, acc)
    decreases |s|
  {
    if s != "" {
      assert DigitValue(s[0]) == DigitValue(t[0]);
      assert EitherCase(s[1..], t[1..]);
      CaseReads(s[1..], t[1..], base, acc * base + DigitValue(s[0]));
    }
  }

  /** The digits of a numeral are digits of its base. */
  lemma {:induction false} NumeralDigits(n: nat, base: nat)
    requires 2 <= base <= 16
    ensures forall k :: 0 <= k < |NumeralOf(n, base)| ==>
              exists d: nat :: d < base && NumeralOf(n, base)[k] == "0123456789abcdef"[d]
    decreases n
  {
    hide Symbol;
    if n < base {
      DigitsMean(n);
      assert NumeralOf(n, base)[0] == "0123456789abcdef"[n];
    } else {
      DivideLess(n, base);
      NumeralDigits(n / base, base);
      DigitsMean(n % base);
      var s := NumeralOf(n / base, base);
      assert NumeralOf(n, base)[|s|] == "0123456789abcdef"[n % base];
      assert forall k :: 0 <= k < |s| ==> NumeralOf(n, base)[k] == s[k];
    }
  }

  function Most(n: nat): nat {
    if n > 0xffff_ffff_ffff_ffff then 0xffff_ffff_ffff_ffff else n
  }

  /** The numeral of any number is one token in each of the four bases, prefix and letters in either case,
      and means the number, or the largest 64-bit number where it is larger. */
  lemma NumeralsAreTokens(n: nat, s: string)
    requires EitherCase(s, NumeralOf(n, 16))
    ensures Proper(Num("0x" + s)) && NumberValue("0x" + s) == Most(n)
    ensures Proper(Num("0X" + s)) && NumberValue("0X" + s) == Most(n)
    ensures Proper(Num("0b" + NumeralOf(n, 2))) && NumberValue("0b" + NumeralOf(n, 2)) == Most(n)
    ensures Proper(Num("0B" + NumeralOf(n, 2))) && NumberValue("0B" + NumeralOf(n, 2)) == Most(n)
    ensures Proper(Num("0" + NumeralOf(n, 8))) && NumberValue("0" + NumeralOf(n, 8)) == Most(n)
    ensures Proper(Num(NumeralOf(n, 10))) && NumberValue(NumeralOf(n, 10)) == Most(n)
  {
    hide NumeralOf, Number;
    HexToken(n, s, "0x");
    HexToken(n, s, "0X");
    BinToken(n, "0b");
    BinToken(n, "0B");
    OctalToken(n);
    DecimalToken(n);
  }

  lemma HexToken(n: nat, s: string, prefix: string)
    requires EitherCase(s, NumeralOf(n, 16)) && (prefix == "0x" || prefix == "0X")
    ensures Proper(Num(prefix + s)) && NumberValue(prefix + s) == Most(n)
  {
    hide NumeralOf, Number;
    NumeralReads(n, 16);
    NumeralDigits(n, 16);
    CaseReads(s, NumeralOf(n, 16), 16, 0);
    var all := prefix + s;
    assert all[2..] == s;
    forall k | 2 <= k < |all|
      ensures InHex(all[k])
    {
      var d: nat :| d < 16 && NumeralOf(n, 16)[k - 2] == "0123456789abcdef"[d];
      DigitsMean(d);
      assert all[k] == s[k - 2];
    }
  }

  lemma BinToken(n: nat, prefix: string)
    requires prefix == "0b" || prefix == "0B"
    ensures Proper(Num(prefix + NumeralOf(n, 2))) && NumberValue(prefix + NumeralOf(n, 2)) == Most(n)
  {
    hide NumeralOf, Number;
    NumeralReads(n, 2);
    NumeralDigits(n, 2);
    var all := prefix + NumeralOf(n, 2);
    assert all[2..] == NumeralOf(n, 2);
    forall k | 2 <= k < |all|
      ensures '0' <= all[k] <= '1'
    {
      var d: nat :| d < 2 && NumeralOf(n, 2)[k - 2] == "0123456789abcdef"[d];
    }
  }

  lemma DigitsOnly(n: nat, base: nat)
    requires base == 8 || base == 10
    ensures forall k :: 0 <= k < |NumeralOf(n, base)| ==> '0' <= NumeralOf(n, base)[k] <= '9'
  {
    hide NumeralOf;
    NumeralDigits(n, base);
    forall k | 0 <= k < |NumeralOf(n, base)|
      ensures '0' <= NumeralOf(n, base)[k] <= '9'
    {
      var d: nat :| d < base && NumeralOf(n, base)[k] == "0123456789abcdef"[d];
    }
  }

  lemma OctalToken(n: nat)
    ensures Proper(Num("0" + NumeralOf(n, 8))) && NumberValue("0" + NumeralOf(n, 8)) == Most(n)
  {
    hide NumeralOf, Number;
    DigitsOnly(n, 8);
    NumeralReads(n, 8);
    var all := "0" + NumeralOf(n, 8);
    assert all[1] == NumeralOf(n, 8)[0];
    assert Number(all, 8, 0) == n by { LeadingZero(NumeralOf(n, 8), 8); }
  }

  lemma LeadingZero(s: string, base: nat)
    requires base > 0
    ensures Number("0" + s, base, 0) == Number(s, base, 0)
  {
    assert ("0" + s)[1..] == s;
  }

  lemma DecimalToken(n: nat)
    ensures Proper(Num(NumeralOf(n, 10))) && NumberValue(NumeralOf(n, 10)) == Most(n)
  {
    DigitsOnly(n, 10);
    NumeralReads(n, 10);
    if n == 0 {
      assert NumeralOf(0, 10) == "0";
      assert Number("0", 8, 0) == 0 by { LeadingZero("", 8); }
    } else {
      hide NumeralOf, Number;
      var s := NumeralOf(n, 10);
      assert |s| >= 2 ==> '0' <= s[1] <= '9';
    }
  }

  // ----- characters and strings -----

  /** `'c'` means the code of c; bytes from 128 on are negative 64-bit numbers. */
  lemma CharactersMean(c: char, strs: nat)
    ensures c as int < 128 ==> Meant(Chr(c), strs).intLit == c as int
    ensures 128 <= c as int < 256 ==> Meant(Chr(c), strs).intLit == 0x1_0000_0000_0000_0000 - 256 + c as int
  {
  }

  /** The nine escapes, and that there are no others. */
  lemma EscapesMean(c: char, s: string)
    ensures
      var value :=
        if c == '0' then [0 as char] else if c == 'e' then [4 as char]
        else if c == '(' then "{" else if c == ')' then "}"
        else if c == 't' then "\t" else if c == '"' then "\"" else if c == 'n' then "\n" else if c == '*' then "*"
        else if c == '\'' then "'" else "";
      Decode(['*', c] + s)
      == if value == "" || Decode(s).Bad? then Bad else Text(value + Decode(s).text)
  {
    var all := ['*', c] + s;
    assert all[2..] == s && all[0] == '*' && all[1] == c;
  }

  /** Any other character means itself. */
  lemma CharacterItself(c: char, s: string)
    requires c != '*'
    ensures Decode([c] + s) == if Decode(s).Bad? then Bad else Text([c] + Decode(s).text)
  {
    assert ([c] + s)[1..] == s;
  }

  /** A literal that is not closed on its line ends the process, and so does a line end behind `*`. */
  lemma {:induction false} UnclosedDies(buf: string, i: nat, end: nat, strs: nat)
    requires i < end <= |buf| && (buf[i] == '"' || buf[i] == '\'')
    requires forall k :: i < k < end ==> buf[k] != buf[i] && buf[k] != '*'
    requires Peek(buf, end) == '\n' || Peek(buf, end) == 0 as char
             || (Peek(buf, end) == '*' && (Peek(buf, end + 1) == '\n' || Peek(buf, end + 1) == 0 as char))
    ensures LexFrom(buf, i, strs) == Died
  {
    hide ScanFrom;
    NeverCloses(buf, i + 1, end, buf[i]);
    assert RoundAt(buf, i, strs) == QuoteAt(buf, i, strs);
  }

  lemma {:induction false} NeverCloses(buf: string, i: nat, end: nat, q: char)
    requires i <= end <= |buf| && (q == '"' || q == '\'')
    requires forall k :: i <= k < end ==> buf[k] != q && buf[k] != '*'
    requires Peek(buf, end) == '\n' || Peek(buf, end) == 0 as char
             || (Peek(buf, end) == '*' && (Peek(buf, end + 1) == '\n' || Peek(buf, end + 1) == 0 as char))
    ensures ScanFrom(buf, i, q) == Unterminated
    decreases end - i
  {
    if i < end {
      NeverCloses(buf, i + 1, end, q);
    }
  }

  // ----- the numbers of strings -----

  function StringsIn(toks: seq<Tok.Token>): nat {
    if toks == [] then 0
    else StringsIn(toks[..|toks| - 1]) + if toks[|toks| - 1].kind.StrLit? then 1 else 0
  }

  lemma {:induction false} StringsAfter(t: Tok.Token, toks: seq<Tok.Token>)
    ensures StringsIn([t] + toks) == StringsIn(toks) + if t.kind.StrLit? then 1 else 0
    decreases |toks|
  {
    var all := [t] + toks;
    if toks == [] {
      assert all[..0] == [] && StringsIn([]) == 0;
    } else {
      assert all[..|all| - 1] == [t] + toks[..|toks| - 1];
      StringsAfter(t, toks[..|toks| - 1]);
    }
  }

  lemma RoundCounts(buf: string, i: nat, strs: nat)
    requires i < |buf|
    ensures
      var r := RoundAt(buf, i, strs);
      r.Emit? ==> if r.tok.kind.StrLit? then r.tok.intLit == strs + 1 && r.strs == strs + 1 else r.strs == strs
  {
    hide RunEnd, NumberEnd, NumberValue, CommentEnd, ScanFrom, Decode, CharValue;
    NoStrings(buf[i], Peek(buf, i + 1));
  }

  lemma NoStrings(c: char, next: char)
    ensures !OpAt(c, next).kind.StrLit?
  {
  }

  /** In any file, the string literals are numbered from 1 in the order of the text. */
  lemma {:induction false} StringsNumbered(buf: string, i: nat, strs: nat, k: nat)
    requires i <= |buf| && LexFrom(buf, i, strs).Lexed?
    ensures
      var toks := LexFrom(buf, i, strs).toks;
      k < |toks| && toks[k].kind.StrLit? ==> toks[k].intLit == strs + StringsIn(toks[..k]) + 1
    decreases |buf| - i
  {
    if i < |buf| {
      hide RoundAt, StringsIn;
      RoundCounts(buf, i, strs);
      match RoundAt(buf, i, strs)
      case Skip(j) => StringsNumbered(buf, j, strs, k);
      case Emit(tok, j, n) =>
        var rest := LexFrom(buf, j, n).toks;
        assert LexFrom(buf, i, strs).toks == [tok] + rest;
        if k > 0 && k <= |rest| {
          StringsNumbered(buf, j, n, k - 1);
          assert ([tok] + rest)[..k] == [tok] + rest[..k - 1];
          StringsAfter(tok, rest[..k - 1]);
        } else if k == 0 {
          assert ([tok] + rest)[..0] == [];
          NoneIn();
        }
    }
  }

  lemma NoneIn()
    ensures StringsIn([]) == 0
  {
  }
}
