/**
 * The reader: a character source with one character of pushback, and the
 * readers that turn its characters into forms, dispatching on the next
 * character. The source delivers byte codes; end of input is a distinct
 * outcome (None) rather than an exception.
 *
 * Each reader is an imperative method over the pushback reader. Each is
 * specified by a pure function of the characters still pending (the pushed
 * back character, if any, followed by what the inner source has not yet
 * delivered) and of the symbol registry's state. Pushing a character back
 * restores exactly the stream it was taken from, so the pure functions never
 * mention the pushback cell.
 */
module Reader {
  import opened Values
  import opened Symbols

  /** A character as the inner source delivers it: one byte. */
  type Code = c: int | 0 <= c < 256

  /** Newline, tab, space, carriage return and comma. */
  predicate IsWhitespace(c: Code) {
    c == '\n' as int || c == '\t' as int || c == ' ' as int || c == '\r' as int || c == ',' as int
  }

  /** The decimal digits. */
  predicate IsDigit(ch: char) { '0' as int <= ch as int <= '9' as int }

  /** Symbol constituents: digits, lower-case letters and `_ ! - + * / < > = ?`. */
  predicate IsConstituent(c: Code) {
    var ch := c as char;
    IsDigit(ch) || ('a' <= ch <= 'z') ||
    ch == '_' || ch == '!' || ch == '-' || ch == '+' || ch == '*' ||
    ch == '/' || ch == '<' || ch == '>' || ch == '=' || ch == '?'
  }

  /** The text of a run of byte codes, one character per code. */
  function Text(s: seq<Code>): (r: string)
    ensures |r| == |s| && forall i :: 0 <= i < |s| ==> r[i] == s[i] as char
  {
    seq(|s|, i requires 0 <= i < |s| => s[i] as char)
  }

  /** Extending a prefix by one character extends its text by that character. */
  lemma TextSnoc(s: seq<Code>, k: nat)
    requires k < |s|
    ensures Text(s[..k + 1]) == Text(s[..k]) + [s[k] as char]
    ensures forall c :: c !in s[..k] && c != s[k] ==> c !in s[..k + 1]
  {
    assert s[..k + 1] == s[..k] + [s[k]];
  }

  /** The failures a read can end in. */
  datatype ReadError =
    | EndOfInput    // the source ran out before the form was complete
    | EmptyToken    // a token with no characters (indexing its first character fails)
    | BadInteger    // a digit-led token that is not a decimal integer

  /**
   * What a reader produces: its result, the characters still pending
   * afterwards and the registry's state afterwards.
   */
  datatype Parse = Parse(result: Result<Value, ReadError>, rest: seq<Code>, syms: Table)

  // ---------------------------------------------------------------------
  // The character source and the pushback reader
  // ---------------------------------------------------------------------

  /** An in-memory character source standing in for the file reader. */
  class CharSource {
    const data: seq<Code>
    var pos: nat

    ghost predicate Valid()
      reads this
    {
      pos <= |data|
    }

    /** The characters this source has not delivered yet. */
    function Remaining(): seq<Code>
      reads this
      requires Valid()
    {
      data[pos..]
    }

    constructor (input: seq<Code>)
      ensures Valid() && Remaining() == input
    {
      data := input;
      pos := 0;
    }

    /** Delivers the next character, or None at end of input. */
    method Read() returns (ch: Option<Code>)
      requires Valid()
      modifies this
      ensures Valid()
      ensures old(Remaining()) == [] ==> ch == None && Remaining() == []
      ensures old(Remaining()) != [] ==>
        ch == Some(old(Remaining())[0]) && Remaining() == old(Remaining())[1..]
    {
      if pos < |data| {
        ch := Some(data[pos]);
        pos := pos + 1;
      } else {
        ch := None;
      }
    }
  }

  class PushbackReader {
    const inner: CharSource
    var hasUnread: bool
    var unreadChar: Code

    ghost predicate Valid()
      reads this, inner
    {
      inner.Valid()
    }

    /** Every character the next reads will deliver, in order. */
    function Pending(): seq<Code>
      reads this, inner
      requires Valid()
    {
      (if hasUnread then [unreadChar] else []) + inner.Remaining()
    }

    constructor (src: CharSource)
      requires src.Valid()
      ensures Valid() && inner == src && !hasUnread && Pending() == src.Remaining()
    {
      inner := src;
      hasUnread := false;
      unreadChar := 0;
    }

    /** The pushed-back character if there is one, otherwise the inner source's next. */
    method Read() returns (ch: Option<Code>)
      requires Valid()
      modifies this, inner
      ensures Valid() && !hasUnread
      ensures old(Pending()) == [] ==> ch == None && Pending() == []
      ensures old(Pending()) != [] ==>
        ch == Some(old(Pending())[0]) && Pending() == old(Pending())[1..]
      ensures old(hasUnread) ==> ch == Some(old(unreadChar)) && unchanged(inner)
    {
      if hasUnread {
        hasUnread := false;
        ch := Some(unreadChar);
      } else {
        ch := inner.Read();
      }
    }

    /**
     * Pushes one character back. The source asserts that no character is
     * pending already; here that is the caller's obligation, and every
     * reader below meets it.
     */
    method Unread(ch: Code)
      requires Valid() && !hasUnread
      modifies this
      ensures Valid() && hasUnread
      ensures Pending() == [ch] + old(Pending())
    {
      hasUnread := true;
      unreadChar := ch;
    }
  }

  // ---------------------------------------------------------------------
  // The reader as functions of the pending characters
  // ---------------------------------------------------------------------

  /** The stream after its leading whitespace. */
  function SkipWhitespace(s: seq<Code>): (r: seq<Code>)
    ensures |r| <= |s|
    ensures r != [] ==> !IsWhitespace(r[0])
  {
    if s != [] && IsWhitespace(s[0]) then SkipWhitespace(s[1..]) else s
  }

  /** Skipping drops exactly a prefix of whitespace: what remains is a suffix of `s`, and everything before it is whitespace. */
  lemma {:induction false} SkipWhitespaceSpec(s: seq<Code>)
    ensures var r := SkipWhitespace(s);
      r == s[|s| - |r|..] && forall i :: 0 <= i < |s| - |r| ==> IsWhitespace(s[i])
  {
    if s != [] && IsWhitespace(s[0]) {
      SkipWhitespaceSpec(s[1..]);
      var r := SkipWhitespace(s);
      assert s[1..][|s| - 1 - |r|..] == s[|s| - |r|..];
      forall i | 0 <= i < |s| - |r|
        ensures IsWhitespace(s[i])
      {
        if i > 0 { assert s[i] == s[1..][i - 1]; }
      }
    }
  }

  /** Whitespace followed by a stream that does not start with whitespace skips to that stream. */
  lemma {:induction false} SkipWhitespacePrefix(w: seq<Code>, x: seq<Code>)
    requires forall i :: 0 <= i < |w| ==> IsWhitespace(w[i])
    requires x == [] || !IsWhitespace(x[0])
    ensures SkipWhitespace(w + x) == x
  {
    if w != [] {
      assert (w + x)[1..] == w[1..] + x;
      SkipWhitespacePrefix(w[1..], x);
    } else {
      assert w + x == x;
    }
  }

  /** The position of the first occurrence of `c`, if any. */
  function IndexOf(s: seq<Code>, c: Code): (r: Option<nat>)
    ensures r.Some? ==> r.value < |s| && s[r.value] == c
  {
    if s == [] then None
    else if s[0] == c then Some(0)
    else match IndexOf(s[1..], c)
      case None => None
      case Some(i) => Some(i + 1)
  }

  /** IndexOf finds the first occurrence, and reports None exactly when there is none. */
  lemma {:induction false} IndexOfFirst(s: seq<Code>, c: Code)
    ensures IndexOf(s, c).Some? ==> c !in s[..IndexOf(s, c).value]
    ensures IndexOf(s, c).None? <==> c !in s
  {
    if s != [] && s[0] != c {
      IndexOfFirst(s[1..], c);
      assert s == [s[0]] + s[1..];
      if IndexOf(s[1..], c).Some? {
        var i := IndexOf(s[1..], c).value;
        assert s[..i + 1] == [s[0]] + s[1..][..i];
      }
    }
  }

  /** The length of the longest prefix made of symbol constituents. */
  function TokenLength(s: seq<Code>): (n: nat)
    ensures n <= |s|
  {
    if s != [] && IsConstituent(s[0]) then 1 + TokenLength(s[1..]) else 0
  }

  /** A run of constituents ended by a non-constituent or by the end of input is the token. */
  lemma {:induction false} TokenLengthAt(s: seq<Code>, k: nat)
    requires k <= |s|
    requires forall i :: 0 <= i < k ==> IsConstituent(s[i])
    requires k < |s| ==> !IsConstituent(s[k])
    ensures TokenLength(s) == k
  {
    if k > 0 {
      TokenLengthAt(s[1..], k - 1);
    }
  }

  /** The stream after a comment's body: everything up to and including the next newline goes. */
  function SkipComment(s: seq<Code>): (r: Option<seq<Code>>)
    ensures r.Some? ==> |r.value| < |s|
  {
    if s == [] then None
    else if s[0] == '\n' as int then Some(s[1..])
    else SkipComment(s[1..])
  }

  /** A comment ends just after the first newline; without one, the input ends inside it. */
  lemma {:induction false} SkipCommentSpec(s: seq<Code>)
    ensures SkipComment(s) == match IndexOf(s, '\n' as int)
      case None => None
      case Some(i) => Some(s[i + 1..])
  {
    if s != [] && s[0] != '\n' as int {
      SkipCommentSpec(s[1..]);
      if IndexOf(s[1..], '\n' as int).Some? {
        var i := IndexOf(s[1..], '\n' as int).value;
        assert s[1..][i + 1..] == s[i + 2..];
      }
    }
  }

  /**
   * The string reader's loop: `acc` holds the characters read so far; the
   * closing quote ends the string.
   */
  function ReadStringFrom(s: seq<Code>, acc: string): (r: (Result<Value, ReadError>, seq<Code>))
    ensures |r.1| <= |s|
  {
    if s == [] then (Err(EndOfInput), [])
    else if s[0] == '"' as int then (Ok(Str(acc)), s[1..])
    else ReadStringFrom(s[1..], acc + [s[0] as char])
  }

  /** A string literal's body (the opening quote already read): raw characters up to the closing quote. */
  function ReadString(s: seq<Code>): (r: (Result<Value, ReadError>, seq<Code>))
  {
    ReadStringFrom(s, [])
  }

  /**
   * The characters read so far are followed by the text before the first
   * quote, and reading resumes just after that quote; without a quote the
   * input ends inside the string.
   */
  lemma {:induction false} ReadStringFromSpec(s: seq<Code>, acc: string)
    ensures ReadStringFrom(s, acc) == match IndexOf(s, '"' as int)
      case None => (Err(EndOfInput), [])
      case Some(i) => (Ok(Str(acc + Text(s[..i]))), s[i + 1..])
  {
    if s != [] && s[0] != '"' as int {
      ReadStringFromSpec(s[1..], acc + [s[0] as char]);
      if IndexOf(s[1..], '"' as int).Some? {
        var i := IndexOf(s[1..], '"' as int).value;
        assert s[1..][i + 1..] == s[i + 2..];
        assert s[..i + 1] == [s[0]] + s[1..][..i];
        assert Text(s[..i + 1]) == [s[0] as char] + Text(s[1..][..i]);
        assert acc + Text(s[..i + 1]) == (acc + [s[0] as char]) + Text(s[1..][..i]);
      }
    } else if s != [] {
      assert acc + Text(s[..0]) == acc;
    }
  }

  /** A string literal is the text before the first quote; reading resumes after that quote. */
  lemma ReadStringSpec(s: seq<Code>)
    ensures ReadString(s) == match IndexOf(s, '"' as int)
      case None => (Err(EndOfInput), [])
      case Some(i) => (Ok(Str(Text(s[..i]))), s[i + 1..])
  {
    ReadStringFromSpec(s, []);
    if IndexOf(s, '"' as int).Some? {
      var i := IndexOf(s, '"' as int).value;
      assert [] + Text(s[..i]) == Text(s[..i]);
    }
  }

  /** The value of a non-empty run of decimal digits. */
  function DecimalValue(ds: string): nat
    requires forall i :: 0 <= i < |ds| ==> IsDigit(ds[i])
  {
    if ds == [] then 0
    else
      var last := ds[|ds| - 1];
      assert IsDigit(last);
      DecimalValue(ds[..|ds| - 1]) * 10 + (last as int - '0' as int)
  }

  predicate IsDecimal(ds: string) {
    |ds| > 0 && forall i :: 0 <= i < |ds| ==> IsDigit(ds[i])
  }

  /** The integer conversion the reader applies to a digit-led token (an optional minus, then digits). */
  function ParseInteger(token: string): Option<int>
  {
    if |token| > 0 && token[0] == '-' then
      (if IsDecimal(token[1..]) then Some(0 - DecimalValue(token[1..]) as int) else None)
    else if IsDecimal(token) then Some(DecimalValue(token))
    else None
  }

  /** True for a token the reader treats as a number: a digit first, or a minus followed by a digit. */
  predicate LooksNumeric(token: string) {
    |token| > 0 && (IsDigit(token[0]) || (token[0] == '-' && |token| > 1 && IsDigit(token[1])))
  }

  /**
   * interpret_symbol: the three literal names, then numbers, then symbols
   * (interned in the registry).
   */
  function Interpret(token: string, t: Table): (Result<Value, ReadError>, Table)
  {
    if token == "true" then (Ok(Boolean(true)), t)
    else if token == "false" then (Ok(Boolean(false)), t)
    else if token == "nil" then (Ok(Nil), t)
    else if token == "" then (Err(EmptyToken), t)
    else if LooksNumeric(token) then
      (match ParseInteger(token)
       case Some(n) => (Ok(Integer(n)), t)
       case None => (Err(BadInteger), t))
    else
      var (t', id) := InternIn(t, token);
      (Ok(Symbol(id)), t')
  }

  /**
   * The symbol reader's loop: `acc` holds the constituents read so far; the
   * first other character ends the token and stays pending, and end of input
   * inside the token is a failure.
   */
  function SymbolFrom(s: seq<Code>, acc: string, t: Table): (p: Parse)
    ensures |p.rest| <= |s|
    ensures acc == [] && p.result.Ok? ==> |p.rest| < |s|
  {
    if s == [] then Parse(Err(EndOfInput), [], t)
    else if !IsConstituent(s[0]) then
      var (res, t') := Interpret(acc, t);
      Parse(res, s, t')
    else SymbolFrom(s[1..], acc + [s[0] as char], t)
  }

  /** The symbol reader, from the stream whose first character is the token's start. */
  function ReadSymbol(s: seq<Code>, t: Table): (p: Parse)
    ensures |p.rest| <= |s|
    ensures p.result.Ok? ==> |p.rest| < |s|
  {
    SymbolFrom(s, [], t)
  }

  /**
   * The token is the longest run of constituents at the head of the stream;
   * the character after it stays pending, and a stream made only of
   * constituents ends in a failure.
   */
  lemma {:induction false} SymbolFromSpec(s: seq<Code>, acc: string, t: Table)
    ensures SymbolFrom(s, acc, t) ==
      var n := TokenLength(s);
      if n == |s| then Parse(Err(EndOfInput), [], t)
      else
        var (res, t') := Interpret(acc + Text(s[..n]), t);
        Parse(res, s[n..], t')
  {
    if s != [] && !IsConstituent(s[0]) {
      assert acc + Text(s[..0]) == acc;
    } else if s != [] {
      var n' := TokenLength(s[1..]);
      SymbolFromSpec(s[1..], acc + [s[0] as char], t);
      assert s[..n' + 1] == [s[0]] + s[1..][..n'];
      assert Text(s[..n' + 1]) == [s[0] as char] + Text(s[1..][..n']);
      assert acc + Text(s[..n' + 1]) == (acc + [s[0] as char]) + Text(s[1..][..n']);
      assert s[n' + 1..] == s[1..][n'..];
    }
  }

  /** ReadSymbol interprets the longest run of constituents and leaves what follows it pending. */
  lemma ReadSymbolSpec(s: seq<Code>, t: Table)
    ensures ReadSymbol(s, t) ==
      var n := TokenLength(s);
      if n == |s| then Parse(Err(EndOfInput), [], t)
      else
        var (res, t') := Interpret(Text(s[..n]), t);
        Parse(res, s[n..], t')
  {
    SymbolFromSpec(s, [], t);
    assert [] + Text(s[..TokenLength(s)]) == Text(s[..TokenLength(s)]);
  }

  /** `read`: skip whitespace, then dispatch on the next character. */
  function ReadForm(s: seq<Code>, t: Table): (p: Parse)
    ensures |p.rest| <= |s|
    ensures p.result.Ok? ==> |p.rest| < |s|
    decreases |s|, 1
  {
    var s1 := SkipWhitespace(s);
    if s1 == [] then Parse(Err(EndOfInput), [], t)
    else
      var c, r := s1[0], s1[1..];
      if c == '(' as int then ReadList(r, ')' as int, t)
      else if c == '[' as int then ReadList(r, ']' as int, t)
      else if c == '"' as int then
        var (res, rest) := ReadString(r);
        Parse(res, rest, t)
      else if c == ';' as int then
        (match SkipComment(r)
         case None => Parse(Err(EndOfInput), [], t)
         case Some(after) => ReadForm(after, t))
      else if c == '\'' as int then ReadQuote(r, t)
      else ReadSymbol(s1, t)
  }

  /** The quote reader: the next form, wrapped as `(quote form)`. */
  function ReadQuote(s: seq<Code>, t: Table): (p: Parse)
    ensures |p.rest| <= |s|
    decreases |s|, 2
  {
    var p := ReadForm(s, t);
    if p.result.Err? then p
    else Parse(Ok(FromList([Symbol(QuoteId), p.result.value])), p.rest, p.syms)
  }

  /**
   * The list reader (the opening bracket already read): whitespace is
   * skipped once, before the first element only.
   */
  function ReadList(s: seq<Code>, term: Code, t: Table): (p: Parse)
    ensures |p.rest| <= |s|
    decreases |s|, 3
  {
    ListItems(SkipWhitespace(s), term, [], t)
  }

  /**
   * The list reader's loop: the next character either closes the list or
   * is pushed back and a form is read.
   */
  function ListItems(s: seq<Code>, term: Code, acc: seq<Value>, t: Table): (p: Parse)
    ensures |p.rest| <= |s|
    ensures p.result.Ok? ==> |p.rest| < |s|
    decreases |s|, 2
  {
    if s == [] then Parse(Err(EndOfInput), [], t)
    else if s[0] == term then Parse(Ok(FromList(acc)), s[1..], t)
    else
      var p := ReadForm(s, t);
      if p.result.Err? then p
      else ListItems(p.rest, term, acc + [p.result.value], p.syms)
  }

  /**
   * read_all: forms are read until one fails; end of input ends the list
   * normally, any other failure is the result.
   */
  function ReadAllFrom(s: seq<Code>, acc: seq<Value>, t: Table): (p: Parse)
    decreases |s|
  {
    var p := ReadForm(s, t);
    match p.result
    case Ok(f) => ReadAllFrom(p.rest, acc + [f], p.syms)
    case Err(EndOfInput) => Parse(Ok(FromList(acc)), p.rest, p.syms)
    case Err(e) => p
  }

  /** Everything read from `s`, as the form `(do f1 ... fn)`. */
  function ReadAllForms(s: seq<Code>, t: Table): Parse {
    ReadAllFrom(s, [Symbol(DoId)], t)
  }

  // ---------------------------------------------------------------------
  // The readers as methods over the pushback reader
  // ---------------------------------------------------------------------

  /** interpret_symbol over the registry object. */
  method InterpretSymbol(reg: SymbolRegistry, sym: string) returns (r: Result<Value, ReadError>)
    modifies reg
    ensures (r, reg.State()) == Interpret(sym, old(reg.State()))
  {
    if sym == "true" {
      return Ok(Boolean(true));
    } else if sym == "false" {
      return Ok(Boolean(false));
    } else if sym == "nil" {
      return Ok(Nil);
    }
    if |sym| == 0 {
      return Err(EmptyToken);
    }
    if IsDigit(sym[0]) || (sym[0] == '-' && |sym| > 1 && IsDigit(sym[1])) {
      var n := ParseInteger(sym);
      if n.None? {
        return Err(BadInteger);
      }
      return Ok(Integer(n.value));
    }
    var id := reg.Intern(sym);
    return Ok(Symbol(id));
  }

  /** symbol_reader: accumulates constituents from `start` on, then pushes the first other character back. */
  method SymbolReader(rdr: PushbackReader, reg: SymbolRegistry, start: Code) returns (r: Result<Value, ReadError>)
    requires rdr.Valid() && !rdr.hasUnread
    modifies rdr, rdr.inner, reg
    ensures rdr.Valid()
    ensures Parse(r, rdr.Pending(), reg.State()) == ReadSymbol([start] + old(rdr.Pending()), old(reg.State()))
  {
    ghost var s := [start] + rdr.Pending();
    ghost var t0 := reg.State();
    var acc: string := [];
    var ch := start;
    while IsConstituent(ch)
      invariant rdr.Valid() && !rdr.hasUnread && reg.State() == t0
      invariant ReadSymbol(s, t0) == SymbolFrom([ch] + rdr.Pending(), acc, t0)
      decreases |rdr.Pending()|
    {
      ghost var p := rdr.Pending();
      assert ([ch] + p)[1..] == p;
      acc := acc + [ch as char];
      var next := rdr.Read();
      if next.None? {
        return Err(EndOfInput);
      }
      ch := next.value;
      assert p == [ch] + rdr.Pending();
    }
    rdr.Unread(ch);
    r := InterpretSymbol(reg, acc);
  }

  /** string_reader: raw characters up to the closing quote. */
  method StringReader(rdr: PushbackReader) returns (r: Result<Value, ReadError>)
    requires rdr.Valid()
    modifies rdr, rdr.inner
    ensures rdr.Valid()
    ensures (r, rdr.Pending()) == ReadString(old(rdr.Pending()))
  {
    ghost var s := rdr.Pending();
    var acc: string := [];
    while true
      invariant rdr.Valid()
      invariant ReadStringFrom(rdr.Pending(), acc) == ReadString(s)
      decreases |rdr.Pending()|
    {
      var ch := rdr.Read();
      if ch.None? {
        return Err(EndOfInput);
      }
      if ch.value == '"' as int {
        return Ok(Str(acc));
      }
      acc := acc + [ch.value as char];
    }
  }

  /** comment_reader: consumes through the next newline and yields no form. */
  method CommentReader(rdr: PushbackReader) returns (r: Result<(), ReadError>)
    requires rdr.Valid()
    modifies rdr, rdr.inner
    ensures rdr.Valid()
    ensures SkipComment(old(rdr.Pending())) == if r.Ok? then Some(rdr.Pending()) else None
    ensures r.Err? ==> r.error == EndOfInput && rdr.Pending() == []
  {
    ghost var s := rdr.Pending();
    while true
      invariant rdr.Valid()
      invariant SkipComment(rdr.Pending()) == SkipComment(s)
      decreases |rdr.Pending()|
    {
      var ch := rdr.Read();
      if ch.None? {
        return Err(EndOfInput);
      }
      if ch.value == '\n' as int {
        return Ok(());
      }
    }
  }

  /** quote_reader: reads one form and wraps it as `(quote form)`. */
  method QuoteReader(rdr: PushbackReader, reg: SymbolRegistry) returns (r: Result<Value, ReadError>)
    requires rdr.Valid()
    modifies rdr, rdr.inner, reg
    ensures rdr.Valid()
    ensures Parse(r, rdr.Pending(), reg.State()) == ReadQuote(old(rdr.Pending()), old(reg.State()))
    decreases |rdr.Pending()|, 2
  {
    var form := Read(rdr, reg);
    if form.Err? {
      return form;
    }
    var quoted := ConsFromList([Symbol(QuoteId), form.value]);
    r := Ok(quoted);
  }

  /**
   * The whitespace-skipping loop the list reader and `read` both run: reads
   * until a character that is not whitespace, or end of input.
   */
  method ReadNonWhitespace(rdr: PushbackReader) returns (ch: Option<Code>)
    requires rdr.Valid()
    modifies rdr, rdr.inner
    ensures rdr.Valid() && !rdr.hasUnread
    ensures ch.None? ==> SkipWhitespace(old(rdr.Pending())) == [] && rdr.Pending() == []
    ensures ch.Some? ==> SkipWhitespace(old(rdr.Pending())) == [ch.value] + rdr.Pending()
  {
    ghost var s0 := rdr.Pending();
    ch := rdr.Read();
    assert s0 != [] ==> s0 == [s0[0]] + s0[1..];
    while ch.Some? && IsWhitespace(ch.value)
      invariant rdr.Valid() && !rdr.hasUnread
      invariant ch.Some? ==> SkipWhitespace(s0) == SkipWhitespace([ch.value] + rdr.Pending())
      invariant ch.None? ==> SkipWhitespace(s0) == [] && rdr.Pending() == []
      decreases if ch.Some? then |rdr.Pending()| + 1 else 0
    {
      ghost var p := rdr.Pending();
      assert ([ch.value] + p)[1..] == p;
      ch := rdr.Read();
      assert p != [] ==> p == [p[0]] + p[1..];
    }
  }

  /** The list reader for one kind of bracket. */
  method ListReader(rdr: PushbackReader, reg: SymbolRegistry, term: Code) returns (r: Result<Value, ReadError>)
    requires rdr.Valid()
    modifies rdr, rdr.inner, reg
    ensures rdr.Valid()
    ensures Parse(r, rdr.Pending(), reg.State()) == ReadList(old(rdr.Pending()), term, old(reg.State()))
    decreases |rdr.Pending()|, 3
  {
    ghost var s0 := rdr.Pending();
    ghost var t0 := reg.State();
    var ch := ReadNonWhitespace(rdr);
    if ch.None? {
      return Err(EndOfInput);
    }
    // the first character is put back so that every round starts by reading one
    rdr.Unread(ch.value);
    assert rdr.Pending() == SkipWhitespace(s0);
    var acc: seq<Value> := [];
    while true
      invariant rdr.Valid() && |rdr.Pending()| <= |s0|
      invariant ReadList(s0, term, t0) == ListItems(rdr.Pending(), term, acc, reg.State())
      decreases |rdr.Pending()|
    {
      ghost var cur := rdr.Pending();
      ghost var t := reg.State();
      ch := rdr.Read();
      if ch.None? {
        return Err(EndOfInput);
      }
      if ch.value == term {
        var lst := ConsFromList(acc);
        return Ok(lst);
      }
      rdr.Unread(ch.value);
      assert rdr.Pending() == cur;
      var form := Read(rdr, reg);
      ghost var p := ReadForm(cur, t);
      assert ListItems(cur, term, acc, t) ==
        if p.result.Err? then p else ListItems(p.rest, term, acc + [p.result.value], p.syms);
      if form.Err? {
        return form;
      }
      acc := acc + [form.value];
    }
  }

  /** read: skips whitespace and dispatches on the next character; a comment restarts the loop. */
  method Read(rdr: PushbackReader, reg: SymbolRegistry) returns (r: Result<Value, ReadError>)
    requires rdr.Valid()
    modifies rdr, rdr.inner, reg
    ensures rdr.Valid()
    ensures Parse(r, rdr.Pending(), reg.State()) == ReadForm(old(rdr.Pending()), old(reg.State()))
    decreases |rdr.Pending()|, 1
  {
    ghost var s0 := rdr.Pending();
    ghost var t0 := reg.State();
    while true
      invariant rdr.Valid() && reg.State() == t0
      invariant |rdr.Pending()| <= |s0|
      invariant ReadForm(rdr.Pending(), t0) == ReadForm(s0, t0)
      decreases |rdr.Pending()|
    {
      ghost var s := rdr.Pending();
      var ch := ReadNonWhitespace(rdr);
      if ch.None? {
        return Err(EndOfInput);
      }
      var c := ch.value;
      if c == '(' as int {
        r := ListReader(rdr, reg, ')' as int);
        return;
      } else if c == '[' as int {
        r := ListReader(rdr, reg, ']' as int);
        return;
      } else if c == '"' as int {
        r := StringReader(rdr);
        return;
      } else if c == ';' as int {
        var done := CommentReader(rdr);
        if done.Err? {
          return Err(EndOfInput);
        }
      } else if c == '\'' as int {
        r := QuoteReader(rdr, reg);
        return;
      } else {
        r := SymbolReader(rdr, reg, c);
        return;
      }
    }
  }

  /** read_all: reads forms until end of input and returns `(do f1 ... fn)`. */
  method ReadAll(rdr: PushbackReader, reg: SymbolRegistry) returns (r: Result<Value, ReadError>)
    requires rdr.Valid()
    modifies rdr, rdr.inner, reg
    ensures rdr.Valid()
    ensures Parse(r, rdr.Pending(), reg.State()) == ReadAllForms(old(rdr.Pending()), old(reg.State()))
  {
    ghost var s0 := rdr.Pending();
    ghost var t0 := reg.State();
    var acc := [Symbol(DoId)];
    while true
      invariant rdr.Valid()
      invariant ReadAllFrom(rdr.Pending(), acc, reg.State()) == ReadAllForms(s0, t0)
      decreases |rdr.Pending()|
    {
      var form := Read(rdr, reg);
      if form.Err? {
        if form.error == EndOfInput {
          var forms := ConsFromList(acc);
          return Ok(forms);
        }
        return form;
      }
      acc := acc + [form.value];
    }
  }
}
