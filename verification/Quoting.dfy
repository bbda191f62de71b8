/** Writing text that the shell reads back: quoted words, lines, and here-documents. */
module Quoting {
  import opened Prelude
  import opened Shell

  function Escape(s: string): string {
    if s == "" then "" else (if s[0] == '\'' then "'\\''" else [s[0]]) + Escape(s[1..])
  }

  function ShellQuote(s: string): string {
    if s == "" then "''" else "'" + Escape(s) + "'"
  }

  function Grow(w: Partial, s: string, quoted: bool): Partial {
    if w.NoWord? then Partial(s, quoted) else Partial(w.text + s, w.quoted || quoted)
  }

  /** Out of the quotes, an escaped apostrophe, and back. */
  lemma {:induction false} LexApostrophe(y: string, w: Partial, toks: seq<Token>)
    requires w.Partial? && w.quoted
    ensures Lex("'\\''" + y, InQuotes, w, toks) == Lex(y, InQuotes, Extend(w, '\'', true), toks)
  {
    var x, x1, x2, w' := "'\\''" + y, "\\''" + y, "'" + y, Extend(w, '\'', true);
    assert x[0] == '\'' && x[1..] == x1;
    assert Lex(x, InQuotes, w, toks) == Lex(x1, Normal, w, toks);
    assert x1[0] == '\\' && x1[1..][0] == '\'' && x1[1..][1..] == x2;
    assert Lex(x1, Normal, w, toks) == Lex(x2, Normal, w', toks);
    assert x2[0] == '\'' && x2[1..] == y && Open(w') == w';
  }

  lemma {:induction false} LexEscaped(s: string, t: string, w: Partial, toks: seq<Token>)
    requires w.Partial? && w.quoted
    ensures Lex(Escape(s) + "'" + t, InQuotes, w, toks) == Lex(t, Normal, Grow(w, s, true), toks)
  {
    var x := Escape(s) + "'" + t;
    if s == "" {
      assert x == "'" + t && x[1..] == t;
      assert Grow(w, s, true) == w;
    } else {
      var y := Escape(s[1..]) + "'" + t;
      var w' := Extend(w, s[0], true);
      LexEscaped(s[1..], t, w', toks);
      assert [s[0]] + s[1..] == s;
      assert Grow(w', s[1..], true) == Grow(w, s, true);
      if s[0] == '\'' {
        assert x == "'\\''" + y;
        LexApostrophe(y, w, toks);
      } else {
        assert x[0] == s[0] && x[1..] == y;
      }
    }
  }

  /** A quoted string is read as itself. */
  lemma {:induction false} LexQuoted(s: string, t: string, toks: seq<Token>)
    ensures Lex(ShellQuote(s) + t, Normal, NoWord, toks) == Lex(t, Normal, Partial(s, true), toks)
  {
    var x := ShellQuote(s) + t;
    var y := Escape(s) + "'" + t;
    assert x[0] == '\'' && x[1..] == y;
    LexEscaped(s, t, Partial("", true), toks);
    assert "" + s == s;
  }

  lemma {:induction false} LexLiteral(s: string, t: string, w: Partial, toks: seq<Token>)
    requires s != "" && forall i :: 0 <= i < |s| ==> Literal(s[i])
    ensures Lex(s + t, Normal, w, toks) == Lex(t, Normal, Grow(w, s, false), toks)
  {
    var w' := Extend(w, s[0], false);
    assert (s + t)[0] == s[0] && (s + t)[1..] == s[1..] + t;
    assert Literal(s[0]);
    if |s| == 1 {
      assert s[1..] + t == t && s == [s[0]];
    } else {
      LexLiteral(s[1..], t, w', toks);
      assert [s[0]] + s[1..] == s;
      assert Grow(w', s[1..], false) == Grow(w, s, false);
    }
  }

  // Lines made of words and operators.

  datatype Item = Bare(text: string) | Quoted(text: string) | Into(append: bool) | From(delim: string) | PipeTo

  function ItemText(x: Item): string {
    match x
    case Bare(s) => s
    case Quoted(s) => ShellQuote(s)
    case Into(append) => if append then ">>" else ">"
    case From(delim) => "<<'" + delim + "'"
    case PipeTo => "|"
  }

  function ItemTokens(x: Item): seq<Token> {
    match x
    case Bare(s) => [Word(s, false)]
    case Quoted(s) => [Word(s, true)]
    case Into(append) => [To(append)]
    case From(delim) => [Here, Word(delim, true)]
    case PipeTo => [Pipe]
  }

  predicate Plain(s: string) {
    s != "" && forall i :: 0 <= i < |s| ==> Literal(s[i])
  }

  predicate Writable(x: Item) {
    (x.Bare? ==> Plain(x.text)) && (x.From? ==> Plain(x.delim))
  }

  lemma {:induction false} EscapePlain(s: string)
    requires forall i :: 0 <= i < |s| ==> Literal(s[i])
    ensures Escape(s) == s
  {
    if s != "" {
      assert Literal(s[0]);
      EscapePlain(s[1..]);
    }
  }

  /** After an item the line ends or has a blank. */
  predicate Boundary(t: string) {
    t != "" && (t[0] == ' ' || t[0] == '\n')
  }

  function After(t: string, toks: seq<Token>): Option<Line>
    requires Boundary(t)
  {
    if t[0] == '\n' then Some(Line(toks, t[1..])) else Lex(t[1..], Normal, NoWord, toks)
  }

  lemma {:induction false} LexOperator(x: Item, t: string, toks: seq<Token>)
    requires (x.Into? || x.PipeTo?) && Boundary(t)
    ensures Lex(ItemText(x) + t, Normal, NoWord, toks) == After(t, toks + ItemTokens(x))
  {
    var y := ItemText(x) + t;
    if x.PipeTo? || !x.append {
      assert y[1..] == t;
    } else {
      assert y[0] == '>' && y[1..][0] == '>' && y[1..][1..] == t;
    }
  }

  lemma {:induction false} Associative<T>(a: seq<T>, b: seq<T>, c: seq<T>)
    ensures a + (b + c) == a + b + c
  {
  }

  lemma {:induction false} LexHere(z: string, toks: seq<Token>)
    requires z != "" && z[0] == '\''
    ensures Lex("<<" + z, Normal, NoWord, toks) == Lex(z, Normal, NoWord, toks + [Here])
  {
    var y := "<<" + z;
    assert y[0] == '<' && y[1..] == "<" + z && y[1..][1..] == z;
    assert y[1..][0] == '<' && y[1..][1] == '\'';
  }

  lemma {:induction false} FromText(delim: string, t: string)
    requires Plain(delim)
    ensures ItemText(From(delim)) + t == "<<" + (ShellQuote(delim) + t)
  {
    EscapePlain(delim);
    Glue(delim, t);
  }

  lemma {:induction false} Glue(d: string, t: string)
    ensures "<<'" + d + "'" + t == "<<" + ("'" + d + "'" + t)
  {
  }

  lemma {:induction false} LexFrom(delim: string, t: string, toks: seq<Token>)
    requires Plain(delim) && Boundary(t)
    ensures Lex(ItemText(From(delim)) + t, Normal, NoWord, toks) == After(t, toks + ItemTokens(From(delim)))
  {
    FromText(delim, t);
    LexHere(ShellQuote(delim) + t, toks);
    LexQuoted(delim, t, toks + [Here]);
    LexEnd(t, delim, toks + [Here]);
    Associative(toks, [Here], [Word(delim, true)]);
    assert [Here] + [Word(delim, true)] == ItemTokens(From(delim));
  }

  lemma {:induction false} LexEnd(t: string, text: string, toks: seq<Token>)
    requires Boundary(t)
    ensures Lex(t, Normal, Partial(text, true), toks) == After(t, toks + [Word(text, true)])
  {
  }

  lemma {:induction false} LexItem(x: Item, t: string, toks: seq<Token>)
    requires Writable(x) && Boundary(t)
    ensures Lex(ItemText(x) + t, Normal, NoWord, toks) == After(t, toks + ItemTokens(x))
  {
    match x
    case Bare(s) => LexLiteral(s, t, NoWord, toks);
    case Quoted(s) => LexQuoted(s, t, toks);
    case From(delim) => LexFrom(delim, t, toks);
    case _ => LexOperator(x, t, toks);
  }

  function LineText(items: seq<Item>): string {
    if items == [] then ""
    else if |items| == 1 then ItemText(items[0])
    else ItemText(items[0]) + " " + LineText(items[1..])
  }

  function Tokens(items: seq<Item>): seq<Token> {
    if items == [] then [] else ItemTokens(items[0]) + Tokens(items[1..])
  }

  lemma {:induction false} LexItemThen(x: Item, y: string, toks: seq<Token>)
    requires Writable(x)
    ensures Lex(ItemText(x) + (" " + y), Normal, NoWord, toks) == Lex(y, Normal, NoWord, toks + ItemTokens(x))
    ensures Lex(ItemText(x) + ("\n" + y), Normal, NoWord, toks) == Some(Line(toks + ItemTokens(x), y))
  {
    assert (" " + y)[1..] == y && ("\n" + y)[1..] == y;
    LexItem(x, " " + y, toks);
    LexItem(x, "\n" + y, toks);
  }

  lemma {:induction false} LexEmpty(rest: string, toks: seq<Token>)
    ensures Lex("\n" + rest, Normal, NoWord, toks) == Some(Line(toks, rest))
  {
    assert ("\n" + rest)[1..] == rest;
  }

  function FullLine(items: seq<Item>, rest: string): string {
    LineText(items) + "\n" + rest
  }

  lemma {:induction false} FullLineParts(items: seq<Item>, rest: string)
    requires items != []
    ensures |items| == 1 ==> FullLine(items, rest) == ItemText(items[0]) + ("\n" + rest)
    ensures |items| > 1 ==> FullLine(items, rest) == ItemText(items[0]) + (" " + FullLine(items[1..], rest))
  {
  }

  lemma {:induction false} TokensParts(items: seq<Item>, toks: seq<Token>)
    requires items != []
    ensures toks + Tokens(items) == toks + ItemTokens(items[0]) + Tokens(items[1..])
    ensures |items| == 1 ==> Tokens(items) == ItemTokens(items[0])
  {
    Associative(toks, ItemTokens(items[0]), Tokens(items[1..]));
  }

  /** The shell reads a line as the tokens it was written from. */
  lemma {:induction false} LexLine(items: seq<Item>, rest: string, toks: seq<Token>)
    requires forall i :: 0 <= i < |items| ==> Writable(items[i])
    ensures Lex(FullLine(items, rest), Normal, NoWord, toks) == Some(Line(toks + Tokens(items), rest))
  {
    if items == [] {
      LexEmpty(rest, toks);
      assert FullLine(items, rest) == "\n" + rest && toks + [] == toks;
    } else {
      FullLineParts(items, rest);
      TokensParts(items, toks);
      if |items| == 1 {
        LexItemThen(items[0], rest, toks);
      } else {
        LexItemThen(items[0], FullLine(items[1..], rest), toks);
        LexLine(items[1..], rest, toks + ItemTokens(items[0]));
      }
    }
  }
}
