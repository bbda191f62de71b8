/** Base64 as in section 4 of RFC 4648, in lines of at most 76 characters as in section 6.8 of RFC 2045. */
module Base64 {
  import opened Prelude

  type byte = x: int | 0 <= x < 256

  const WIDTH: nat := 76

  function Symbol(n: nat): char
    requires n < 64
  {
    if n < 26 then ('A' as int + n) as char
    else if n < 52 then ('a' as int + n - 26) as char
    else if n < 62 then ('0' as int + n - 52) as char
    else if n == 62 then '+' else '/'
  }

  predicate InAlphabet(c: char) {
    'A' <= c <= 'Z' || 'a' <= c <= 'z' || '0' <= c <= '9' || c == '+' || c == '/'
  }

  function Value(c: char): (n: nat)
    requires InAlphabet(c)
    ensures n < 64
  {
    if 'A' <= c <= 'Z' then c as int - 'A' as int
    else if 'a' <= c <= 'z' then c as int - 'a' as int + 26
    else if '0' <= c <= '9' then c as int - '0' as int + 52
    else if c == '+' then 62 else 63
  }

  lemma ValueOfSymbol(n: nat)
    requires n < 64
    ensures InAlphabet(Symbol(n)) && Value(Symbol(n)) == n
  {
  }

  function Encode(b: seq<byte>): string {
    if |b| == 0 then ""
    else if |b| == 1 then [Symbol(b[0] / 4), Symbol(b[0] % 4 * 16), '=', '=']
    else if |b| == 2 then [Symbol(b[0] / 4), Symbol(b[0] % 4 * 16 + b[1] / 16), Symbol(b[1] % 16 * 4), '=']
    else
      [Symbol(b[0] / 4), Symbol(b[0] % 4 * 16 + b[1] / 16), Symbol(b[1] % 16 * 4 + b[2] / 64), Symbol(b[2] % 64)]
      + Encode(b[3..])
  }

  predicate Encoded(s: string) {
    forall i :: 0 <= i < |s| ==> InAlphabet(s[i]) || s[i] == '='
  }

  /** Groups of four; padding only in the last, where unused bits are dropped. */
  function DecodeGroups(s: string): Option<seq<byte>> {
    if s == "" then Some([])
    else if |s| < 4 || !InAlphabet(s[0]) || !InAlphabet(s[1]) then None
    else
      var first := Value(s[0]) * 4 + Value(s[1]) / 16;
      if s[2] == '=' then
        if s[3] == '=' && |s| == 4 then Some([first]) else None
      else if !InAlphabet(s[2]) then None
      else
        var second := Value(s[1]) % 16 * 16 + Value(s[2]) / 4;
        if s[3] == '=' then
          if |s| == 4 then Some([first, second]) else None
        else if !InAlphabet(s[3]) then None
        else
          var third := Value(s[2]) % 4 * 64 + Value(s[3]);
          var rest := DecodeGroups(s[4..]);
          if rest.None? then None else Some([first, second, third] + rest.value)
  }

  function Without(s: string, drop: set<char>): string {
    if s == "" then "" else (if s[0] in drop then "" else [s[0]]) + Without(s[1..], drop)
  }

  /** What `base64 -d` does: it skips line ends. */
  function Decode(s: string): Option<seq<byte>> {
    DecodeGroups(Without(s, {'\n'}))
  }

  lemma {:induction false} EncodeTail(b: seq<byte>)
    requires |b| <= 2
    ensures Encoded(Encode(b)) && |Encode(b)| == (|b| + 2) / 3 * 4
  {
    if |b| == 2 {
      ValueOfSymbol(b[0] / 4);
      ValueOfSymbol(b[0] % 4 * 16 + b[1] / 16);
      ValueOfSymbol(b[1] % 16 * 4);
    } else if |b| == 1 {
      ValueOfSymbol(b[0] / 4);
      ValueOfSymbol(b[0] % 4 * 16);
    }
  }

  lemma {:induction false} GroupEncoded(b: seq<byte>)
    requires |b| > 2
    ensures |Encode(b)| == 4 + |Encode(b[3..])| && Encoded(Encode(b)[..4]) && Encode(b)[4..] == Encode(b[3..])
  {
    ValueOfSymbol(b[0] / 4);
    ValueOfSymbol(b[0] % 4 * 16 + b[1] / 16);
    ValueOfSymbol(b[1] % 16 * 4 + b[2] / 64);
    ValueOfSymbol(b[2] % 64);
  }

  lemma {:induction false} EncodedConcat(s: string, n: nat)
    requires n <= |s| && Encoded(s[..n]) && Encoded(s[n..])
    ensures Encoded(s)
  {
    assert forall i :: 0 <= i < |s| ==> s[i] == if i < n then s[..n][i] else s[n..][i - n];
  }

  lemma {:induction false} EncodeIs(b: seq<byte>)
    ensures Encoded(Encode(b)) && |Encode(b)| == (|b| + 2) / 3 * 4
  {
    if |b| > 2 {
      EncodeIs(b[3..]);
      GroupEncoded(b);
      EncodedConcat(Encode(b), 4);
    } else {
      EncodeTail(b);
    }
  }

  lemma SixBits(a: byte, b: byte, c: byte)
    ensures var u, v, w := a % 4 * 16 + b / 16, b % 16 * 4 + c / 64, c % 64;
            u < 64 && v < 64 && w < 64
            && a / 4 * 4 + u / 16 == a && u % 16 * 16 + v / 4 == b && v % 4 * 64 + w == c
  {
  }

  lemma {:induction false} DecodeOne(s: string, a: byte)
    requires s == [Symbol(a / 4), Symbol(a % 4 * 16), '=', '=']
    ensures DecodeGroups(s) == Some([a])
  {
    ValueOfSymbol(a / 4);
    ValueOfSymbol(a % 4 * 16);
  }

  lemma {:induction false} DecodeTwo(s: string, a: byte, b: byte)
    requires s == [Symbol(a / 4), Symbol(a % 4 * 16 + b / 16), Symbol(b % 16 * 4), '=']
    ensures DecodeGroups(s) == Some([a, b])
  {
    ValueOfSymbol(a / 4);
    ValueOfSymbol(a % 4 * 16 + b / 16);
    ValueOfSymbol(b % 16 * 4);
  }

  lemma {:induction false} DecodeFour(s: string, u: nat, v: nat, w: nat, x: nat, rest: seq<byte>)
    requires u < 64 && v < 64 && w < 64 && x < 64 && |s| >= 4
    requires s[0] == Symbol(u) && s[1] == Symbol(v) && s[2] == Symbol(w) && s[3] == Symbol(x)
    requires DecodeGroups(s[4..]) == Some(rest)
    ensures DecodeGroups(s) == Some([u * 4 + v / 16, v % 16 * 16 + w / 4, w % 4 * 64 + x] + rest)
  {
    ValueOfSymbol(u);
    ValueOfSymbol(v);
    ValueOfSymbol(w);
    ValueOfSymbol(x);
  }

  lemma {:induction false} DecodeGroup(s: string, t: string, a: byte, b: byte, c: byte, rest: seq<byte>)
    requires s == [Symbol(a / 4), Symbol(a % 4 * 16 + b / 16), Symbol(b % 16 * 4 + c / 64), Symbol(c % 64)] + t
    requires DecodeGroups(t) == Some(rest)
    ensures DecodeGroups(s) == Some([a, b, c] + rest)
  {
    SixBits(a, b, c);
    assert s[4..] == t;
    DecodeFour(s, a / 4, a % 4 * 16 + b / 16, b % 16 * 4 + c / 64, c % 64, rest);
  }

  lemma {:induction false} DecodeGroupsEncode(b: seq<byte>)
    ensures DecodeGroups(Encode(b)) == Some(b)
  {
    if |b| > 2 {
      DecodeGroupsEncode(b[3..]);
      DecodeGroup(Encode(b), Encode(b[3..]), b[0], b[1], b[2], b[3..]);
      assert b == [b[0], b[1], b[2]] + b[3..];
    } else if |b| == 2 {
      DecodeTwo(Encode(b), b[0], b[1]);
      assert b == [b[0], b[1]];
    } else if |b| == 1 {
      DecodeOne(Encode(b), b[0]);
      assert b == [b[0]];
    }
  }

  // Lines.

  function Wrap(s: string): string {
    if |s| <= WIDTH then s + "\n" else s[..WIDTH] + "\n" + Wrap(s[WIDTH..])
  }

  method WrapBase64(s: string) returns (b: string)
    ensures b == Wrap(s)
  {
    b := "";
    var s' := s;
    while |s'| > WIDTH
      invariant b + Wrap(s') == Wrap(s)
      decreases |s'|
    {
      assert b + (s'[..WIDTH] + "\n" + Wrap(s'[WIDTH..])) == b + s'[..WIDTH] + "\n" + Wrap(s'[WIDTH..]);
      b := b + s'[..WIDTH];
      b := b + "\n";
      s' := s'[WIDTH..];
    }
    assert b + (s' + "\n") == b + s' + "\n";
    b := b + s';
    b := b + "\n";
  }

  /** One line end per started line, and one for the empty text. */
  lemma {:induction false} WrapLength(s: string)
    ensures |Wrap(s)| == |s| + if |s| == 0 then 1 else (|s| + WIDTH - 1) / WIDTH
  {
    if |s| > WIDTH {
      WrapLength(s[WIDTH..]);
    }
  }

  lemma {:induction false} WithoutConcat(a: string, b: string, drop: set<char>)
    ensures Without(a + b, drop) == Without(a, drop) + Without(b, drop)
  {
    if a == "" {
      assert a + b == b;
    } else {
      WithoutConcat(a[1..], b, drop);
      assert (a + b)[1..] == a[1..] + b;
    }
  }

  lemma {:induction false} WithoutEncoded(s: string)
    requires Encoded(s)
    ensures Without(s, {'\n'}) == s
  {
    if s != "" {
      assert InAlphabet(s[0]) || s[0] == '=';
      WithoutEncoded(s[1..]);
    }
  }

  lemma {:induction false} WithoutWrap(s: string)
    requires Encoded(s)
    ensures Without(Wrap(s), {'\n'}) == s
  {
    var drop := {'\n'};
    assert Without("\n", drop) == "" by {
      assert "\n"[1..] == "";
    }
    var line := if |s| <= WIDTH then s else s[..WIDTH];
    WithoutEncoded(line);
    WithoutConcat(line, "\n", drop);
    if |s| > WIDTH {
      WithoutWrap(s[WIDTH..]);
      WithoutConcat(line + "\n", Wrap(s[WIDTH..]), drop);
      assert s == s[..WIDTH] + s[WIDTH..];
    }
  }

  /** Decoding undoes encoding and wrapping. */
  lemma {:induction false} DecodeWrapEncode(b: seq<byte>)
    ensures Decode(Wrap(Encode(b))) == Some(b)
  {
    EncodeIs(b);
    WithoutWrap(Encode(b));
    DecodeGroupsEncode(b);
  }
}
