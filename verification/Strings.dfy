/** Quoted literals: the scan for the closing quote, the escapes, and the data that is written. */
module Strings {

  datatype Escape = NoEscape | Escape(value: char)

  /** What a character stands for behind `*`. */
  function Unescape(c: char): Escape {
    if c == '0' then Escape(0 as char)
    else if c == 'e' then Escape(4 as char)
    else if c == '(' then Escape('{')
    else if c == ')' then Escape('}')
    else if c == 't' then Escape('\t')
    else if c == '"' then Escape('"')
    else if c == 'n' then Escape('\n')
    else if c == '*' then Escape('*')
    else if c == '\'' then Escape('\'')
    else NoEscape
  }

  predicate Ends(c: char) {
    c == 0 as char || c == '\n'
  }

  function Peek(buf: string, i: nat): char {
    if i < |buf| then buf[i] else 0 as char
  }

  /** Where the scan stops: at the closing quote, or nowhere. */
  datatype Scan = Unterminated | Closed(at: nat)

  /** The scan from i on. An escaped character is skipped, so an escaped quote does not close. */
  function ScanFrom(buf: string, i: nat, q: char): (r: Scan)
    requires !Ends(q)
    ensures r.Closed? ==> i <= r.at < |buf| && buf[r.at] == q
    decreases |buf| - i
  {
    var c := Peek(buf, i);
    if c == q then Closed(i)
    else if Ends(c) then Unterminated
    else if c == '*' then
      if Ends(Peek(buf, i + 1)) then Unterminated else ScanFrom(buf, i + 2, q)
    else ScanFrom(buf, i + 1, q)
  }

  /** The text of a literal's body; `Bad` where an escape is unknown or `*` is the last
      character. */
  datatype Decoded = Bad | Text(text: string)

  function Decode(s: string): Decoded {
    if s == "" then Text("")
    else if s[0] != '*' then
      match Decode(s[1..])
      case Bad => Bad
      case Text(t) => Text([s[0]] + t)
    else if |s| == 1 || Unescape(s[1]).NoEscape? then Bad
    else
      match Decode(s[2..])
      case Bad => Bad
      case Text(t) => Text([Unescape(s[1]).value] + t)
  }

  /** No `*` of the body is left without the character it escapes. */
  predicate Paired(s: string) {
    if s == "" then true
    else if s[0] != '*' then Paired(s[1..])
    else |s| >= 2 && Paired(s[2..])
  }

  /** `s` spells `text` between two q: every character as itself, where that is allowed, or
      escaped. */
  predicate Spells(s: string, text: string, q: char)
    decreases |s|
  {
    if s == "" then text == ""
    else if s[0] == '*' then
      && |s| >= 2 && !Ends(s[1]) && text != "" && Unescape(s[1]) == Escape(text[0])
      && Spells(s[2..], text[1..], q)
    else
      && !Ends(s[0]) && s[0] != q && text != "" && s[0] == text[0]
      && Spells(s[1..], text[1..], q)
  }

  /** The scan never hands the decoder a dangling `*`, and passes no quote that is not escaped. */
  lemma {:induction false} ScanPairs(buf: string, i: nat, q: char)
    requires !Ends(q) && q != '*' && ScanFrom(buf, i, q).Closed?
    ensures Paired(buf[i..ScanFrom(buf, i, q).at])
    decreases |buf| - i
  {
    var at := ScanFrom(buf, i, q).at;
    var body := buf[i..at];
    if i < at {
      if buf[i] == '*' {
        ScanPairs(buf, i + 2, q);
        assert body[2..] == buf[i + 2..at];
      } else {
        ScanPairs(buf, i + 1, q);
        assert body[1..] == buf[i + 1..at];
      }
    }
  }

  /** Scanning and decoding accept a body exactly when it spells a text, and give that text. */
  lemma {:induction false} LiteralIsExact(buf: string, i: nat, q: char, j: nat, text: string)
    requires !Ends(q) && q != '*' && i <= j <= |buf|
    ensures ScanFrom(buf, i, q) == Closed(j) && Decode(buf[i..j]) == Text(text)
            <==> j < |buf| && buf[j] == q && Spells(buf[i..j], text, q)
    decreases |buf| - i
  {
    var s := buf[i..j];
    if i < j {
      if buf[i] == '*' {
        if i + 2 <= j && text != "" {
          LiteralIsExact(buf, i + 2, q, j, text[1..]);
          assert s[2..] == buf[i + 2..j];
          EscapeStep(s, text);
        } else if i + 2 <= j {
          assert s[2..] == buf[i + 2..j];
        }
      } else if text != "" {
        LiteralIsExact(buf, i + 1, q, j, text[1..]);
        assert s[1..] == buf[i + 1..j];
        PlainStep(s, text);
      }
    }
  }

  lemma EscapeStep(s: string, text: string)
    requires |s| >= 2 && s[0] == '*' && text != ""
    ensures Decode(s) == Text(text) <==> Unescape(s[1]) == Escape(text[0]) && Decode(s[2..]) == Text(text[1..])
  {
    assert text == [text[0]] + text[1..];
  }

  lemma PlainStep(s: string, text: string)
    requires s != "" && s[0] != '*' && text != ""
    ensures Decode(s) == Text(text) <==> s[0] == text[0] && Decode(s[1..]) == Text(text[1..])
  {
    assert text == [text[0]] + text[1..];
  }

  // ----- spelling -----

  /** A spelling for any character: the escapes for those that need one. */
  function SpellChar(c: char, q: char): string {
    if c == q || c == '*' then ['*', c]
    else if c == 0 as char then "*0"
    else if c == '\n' then "*n"
    else [c]
  }

  function Spell(text: string, q: char): string {
    if text == "" then "" else SpellChar(text[0], q) + Spell(text[1..], q)
  }

  /** Every text can be spelled, in strings and in character constants. */
  lemma {:induction false} SpellSpells(text: string, q: char)
    requires q == '"' || q == '\''
    ensures Spells(Spell(text, q), text, q)
    decreases |text|
  {
    if text != "" {
      SpellSpells(text[1..], q);
      var x, rest := SpellChar(text[0], q), Spell(text[1..], q);
      var s := x + rest;
      assert s[|x|..] == rest;
      if |x| == 2 {
        assert s[2..] == rest && s[1] == x[1];
      } else {
        assert s[1..] == rest;
      }
    }
  }

  /** Decoding undoes encoding. */
  lemma DecodeUndoes(text: string, q: char)
    requires q == '"' || q == '\''
    ensures Decode(Spell(text, q)) == Text(text)
  {
    SpellSpells(text, q);
    var buf := Spell(text, q) + [q];
    assert buf[0..|Spell(text, q)|] == Spell(text, q);
    LiteralIsExact(buf, 0, q, |Spell(text, q)|, text);
  }

  // ----- in place -----

  /** What the decoder has left to read, after it has written `done`. */
  ghost predicate Decodes(s: string, r: nat, done: string) {
    && r <= |s|
    && var rest := Decode(s[r..]);
    if rest.Bad? then Decode(s).Bad? else Decode(s) == Text(done + rest.text)
  }

  lemma {:induction false} DecodesStep(s: string, r: nat, done: string)
    requires Decodes(s, r, done) && r < |s|
    ensures s[r] != '*' ==> Decodes(s, r + 1, done + [s[r]])
    ensures s[r] == '*' ==>
      if r + 1 == |s| || Unescape(s[r + 1]).NoEscape? then Decode(s).Bad?
      else Decodes(s, r + 2, done + [Unescape(s[r + 1]).value])
  {
    var rest := s[r..];
    assert rest[1..] == s[r + 1..];
    if s[r] == '*' {
      if r + 1 < |s| && Unescape(s[r + 1]).Escape? {
        assert rest[2..] == s[r + 2..];
        var next := Decode(s[r + 2..]);
        if next.Text? {
          assert done + ([Unescape(s[r + 1]).value] + next.text) == done + [Unescape(s[r + 1]).value] + next.text;
        }
      }
    } else {
      var next := Decode(s[r + 1..]);
      if next.Text? {
        assert done + ([s[r]] + next.text) == done + [s[r]] + next.text;
      }
    }
  }

  /** Decoding in the buffer that holds the literal: the writing index never passes the reading
      index, so nothing is lost before it is read. `ok` is false at an unknown escape. */
  method DecodeInPlace(a: array<char>) returns (ok: bool, w: nat)
    requires Paired(a[..])
    modifies a
    ensures w <= a.Length
    ensures Decode(old(a[..])) == if ok then Text(a[..w]) else Bad
  {
    ghost var s := a[..];
    var r := 0;
    ok, w := true, 0;
    while r < a.Length
      invariant w <= r <= a.Length && ok
      invariant a[r..] == s[r..]
      invariant Decodes(s, r, a[..w])
      invariant Paired(s[r..])
    {
      DecodesStep(s, r, a[..w]);
      PairedStep(s, r);
      assert a[r] == a[r..][0] == s[r];
      if a[r] == '*' {
        r := r + 1;
        assert a[r] == s[r];
        var e := Unescape(a[r]);
        if e.NoEscape? {
          ok := false;
          return;
        }
        ghost var done := a[..w];
        a[w] := e.value;
        assert a[..w + 1] == done + [e.value];
      } else {
        ghost var done := a[..w];
        var c := a[r];
        a[w] := c;
        assert a[..w + 1] == done + [c];
      }
      w := w + 1;
      r := r + 1;
    }
    assert s[r..] == "";
    assert a[..w] + "" == a[..w];
  }

  /** Behind a `*` there is always a character to read. */
  lemma PairedStep(s: string, r: nat)
    requires r < |s| && Paired(s[r..])
    ensures s[r] != '*' ==> Paired(s[r + 1..])
    ensures s[r] == '*' ==> r + 1 < |s| && Paired(s[r + 2..])
  {
    var rest := s[r..];
    assert rest[1..] == s[r + 1..];
    if s[r] == '*' && r + 1 < |s| {
      assert rest[2..] == s[r + 2..];
    }
  }

  // ----- data -----

  /** A C string ends at its first zero. */
  function UpToZero(text: string): string {
    if text == "" || text[0] == 0 as char then "" else [text[0]] + UpToZero(text[1..])
  }

  /** The bytes written for a literal. */
  function Data(text: string): seq<int> {
    Bytes(UpToZero(text)) + [0]
  }

  function Bytes(s: string): (b: seq<int>)
    ensures |b| == |s| && forall i :: 0 <= i < |s| ==> b[i] == s[i] as int
  {
    seq(|s|, i requires 0 <= i < |s| => s[i] as int)
  }

  /** A literal without zeros is written whole, with a zero behind it; from a zero on, nothing of
      it is written. */
  lemma {:induction false} DataIs(text: string)
    ensures 0 as char !in text ==> Data(text) == Bytes(text) + [0]
    ensures 0 as char in text ==> |Data(text)| <= |text| && text[|Data(text)| - 1] == 0 as char
    ensures forall i :: 0 <= i < |Data(text)| - 1 ==> Data(text)[i] == text[i] as int != 0
    decreases |text|
  {
    ZeroFree(text);
  }

  lemma {:induction false} ZeroFree(text: string)
    ensures |UpToZero(text)| <= |text| && text[..|UpToZero(text)|] == UpToZero(text)
    ensures 0 as char !in UpToZero(text)
    ensures |UpToZero(text)| < |text| ==> text[|UpToZero(text)|] == 0 as char
    decreases |text|
  {
    if text != "" && text[0] != 0 as char {
      ZeroFree(text[1..]);
    }
  }

  /** `strlen`, then one byte at a time, the terminating zero included. */
  method WriteData(text: string) returns (out: seq<int>)
    ensures out == Data(text)
  {
    var len := 0;
    while len < |text| && text[len] != 0 as char
      invariant 0 <= len <= |text|
      invariant UpToZero(text) == text[..len] + UpToZero(text[len..])
    {
      assert text[len..][1..] == text[len + 1..];
      assert text[..len + 1] == text[..len] + [text[len]];
      len := len + 1;
    }
    assert UpToZero(text) == text[..len];
    out := [];
    for i := 0 to len
      invariant out == Bytes(text[..i])
    {
      out := out + [text[i] as int];
    }
    out := out + [0];
  }
}
