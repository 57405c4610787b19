/**
 * Laws of the reader as a whole: how a token is classified, the integer
 * numerals it reads back exactly, and the edge cases at the end of the
 * input and at a stray closing bracket.
 */
module ReaderLaws {
  import opened Values
  import opened Symbols
  import opened Reader

  /** The byte code of the decimal digit `d`. */
  function DigitCode(d: nat): (c: Code)
    requires d < 10
    ensures IsDigit(c as char) && IsConstituent(c)
  {
    '0' as int + d
  }

  /** The decimal numeral of `n`, most significant digit first. */
  function Numeral(n: nat): (r: seq<Code>)
    ensures |r| > 0
    ensures forall i :: 0 <= i < |r| ==> IsDigit(r[i] as char) && IsConstituent(r[i])
  {
    if n < 10 then [DigitCode(n)] else Numeral(n / 10) + [DigitCode(n % 10)]
  }

  /** An integer as a program writes it: a minus sign for a negative number, then its numeral. */
  function IntegerCodes(n: int): (r: seq<Code>)
    ensures |r| > 0 && forall i :: 0 <= i < |r| ==> IsConstituent(r[i])
  {
    if n < 0 then ['-' as int] + Numeral(-n) else Numeral(n)
  }

  /** A numeral is a run of digits whose decimal value is the number it was made from. */
  lemma {:induction false} NumeralValue(n: nat)
    ensures IsDecimal(Text(Numeral(n)))
    ensures DecimalValue(Text(Numeral(n))) == n
  {
    var ds := Text(Numeral(n));
    if n >= 10 {
      NumeralValue(n / 10);
      assert ds[..|ds| - 1] == Text(Numeral(n / 10));
      assert ds[|ds| - 1] == DigitCode(n % 10) as char;
    } else {
      assert ds[..0] == [];
    }
  }

  /** A numeral looks numeric and converts back to its number. */
  lemma NumeralParses(n: nat)
    ensures LooksNumeric(Text(Numeral(n)))
    ensures ParseInteger(Text(Numeral(n))) == Some(n)
  {
    var token := Text(Numeral(n));
    NumeralValue(n);
    assert IsDigit(token[0]) && token[0] != '-';
  }

  /** A minus sign before a numeral looks numeric and converts back to the negated number. */
  lemma NegatedNumeralParses(n: nat)
    ensures LooksNumeric(Text(['-' as int] + Numeral(n)))
    ensures ParseInteger(Text(['-' as int] + Numeral(n))) == Some(-(n as int))
  {
    var token := Text(['-' as int] + Numeral(n));
    NumeralValue(n);
    assert token[1..] == Text(Numeral(n));
    assert token[0] == '-' && IsDigit(token[1]);
  }

  /** The text of an integer looks numeric and converts back to that integer. */
  lemma IntegerTokenParses(n: int)
    ensures LooksNumeric(Text(IntegerCodes(n)))
    ensures ParseInteger(Text(IntegerCodes(n))) == Some(n)
  {
    if n < 0 {
      NegatedNumeralParses(-n);
    } else {
      NumeralParses(n);
    }
  }

  /** A numeric token is never one of the literal names, so it is converted and nothing is interned. */
  lemma NumericToken(token: string, t: Table)
    requires LooksNumeric(token)
    ensures Interpret(token, t) ==
      if ParseInteger(token).Some? then (Ok(Integer(ParseInteger(token).value)), t) else (Err(BadInteger), t)
  {
    assert token[0] != 't' && token[0] != 'f' && token[0] != 'n';
    assert token != "true" && token != "false" && token != "nil";
  }

  /** The text of an integer is interpreted as that integer, and the registry is untouched. */
  lemma IntegerTokenValue(n: int, t: Table)
    ensures Interpret(Text(IntegerCodes(n)), t) == (Ok(Integer(n)), t)
  {
    IntegerTokenParses(n);
    NumericToken(Text(IntegerCodes(n)), t);
  }

  /** A stream that starts with a symbol constituent is read as a token. */
  lemma TokenDispatch(s: seq<Code>, t: Table)
    requires s != [] && IsConstituent(s[0])
    ensures ReadForm(s, t) == ReadSymbol(s, t)
  {
    assert SkipWhitespace(s) == s;
  }

  /**
   * Reading the text of an integer followed by a delimiter yields that
   * integer and leaves the delimiter pending: integers read back exactly.
   */
  lemma ReadIntegerBack(n: int, rest: seq<Code>, t: Table)
    requires rest != [] && !IsConstituent(rest[0])
    ensures ReadForm(IntegerCodes(n) + rest, t) == Parse(Ok(Integer(n)), rest, t)
  {
    var w := IntegerCodes(n);
    var s := w + rest;
    TokenDispatch(s, t);
    TokenLengthAt(s, |w|);
    ReadSymbolSpec(s, t);
    assert s[..|w|] == w && s[|w|..] == rest;
    IntegerTokenValue(n, t);
  }

  /**
   * A token that is neither a literal name nor numeric, followed by a
   * delimiter, is read as the symbol the registry interns for its text.
   */
  lemma ReadSymbolToken(w: seq<Code>, rest: seq<Code>, t: Table)
    requires w != [] && forall i :: 0 <= i < |w| ==> IsConstituent(w[i])
    requires !LooksNumeric(Text(w)) && Text(w) != "true" && Text(w) != "false" && Text(w) != "nil"
    requires rest != [] && !IsConstituent(rest[0])
    ensures var (t', id) := InternIn(t, Text(w));
      ReadForm(w + rest, t) == Parse(Ok(Symbol(id)), rest, t')
  {
    var s := w + rest;
    TokenDispatch(s, t);
    TokenLengthAt(s, |w|);
    ReadSymbolSpec(s, t);
    assert s[..|w|] == w && s[|w|..] == rest;
  }

  /** Reading the same symbol text again yields the same symbol and leaves the registry as it was. */
  lemma ReadSymbolAgain(w: seq<Code>, rest: seq<Code>, more: seq<Code>, t: Table)
    requires w != [] && forall i :: 0 <= i < |w| ==> IsConstituent(w[i])
    requires !LooksNumeric(Text(w)) && Text(w) != "true" && Text(w) != "false" && Text(w) != "nil"
    requires rest != [] && !IsConstituent(rest[0])
    requires more != [] && !IsConstituent(more[0])
    ensures var p := ReadForm(w + rest, t);
      ReadForm(w + more, p.syms) == Parse(p.result, more, p.syms)
  {
    ReadSymbolToken(w, rest, t);
    var t' := InternIn(t, Text(w)).0;
    ReadSymbolToken(w, more, t');
  }

  /** The one-element list. */
  lemma FromListSingle(a: Value)
    ensures FromList([a]) == Cons(a, Nil)
  {
    assert [a][1..] == [];
  }

  /** Whitespace all the way to the end skips to the empty stream. */
  lemma {:induction false} BlankSkipped(s: seq<Code>)
    requires forall i :: 0 <= i < |s| ==> IsWhitespace(s[i])
    ensures SkipWhitespace(s) == []
  {
    if s != [] {
      BlankSkipped(s[1..]);
    }
  }

  /** read_all of an input with no form in it (empty, or only whitespace) is `(do)`. */
  lemma ReadAllBlank(s: seq<Code>, t: Table)
    requires forall i :: 0 <= i < |s| ==> IsWhitespace(s[i])
    ensures ReadAllForms(s, t) == Parse(Ok(Cons(Symbol(DoId), Nil)), [], t)
  {
    BlankSkipped(s);
    FromListSingle(Symbol(DoId));
  }

  /**
   * A token that runs to the very end of the input is lost: the symbol
   * reader meets the end of input before a delimiter, so `read` fails and
   * `read_all` ends without the token.
   */
  lemma TrailingTokenDropped(s: seq<Code>, t: Table)
    requires s != [] && forall i :: 0 <= i < |s| ==> IsConstituent(s[i])
    ensures ReadForm(s, t) == Parse(Err(EndOfInput), [], t)
    ensures ReadAllForms(s, t) == Parse(Ok(Cons(Symbol(DoId), Nil)), [], t)
  {
    TokenDispatch(s, t);
    TokenLengthAt(s, |s|);
    ReadSymbolSpec(s, t);
    FromListSingle(Symbol(DoId));
  }

  /**
   * A closing bracket where a form should start is read as an empty token,
   * which fails; the bracket stays pending and the registry is untouched.
   */
  lemma StrayCloser(s: seq<Code>, t: Table)
    requires SkipWhitespace(s) != []
    requires SkipWhitespace(s)[0] == ')' as int || SkipWhitespace(s)[0] == ']' as int
    ensures ReadForm(s, t) == Parse(Err(EmptyToken), SkipWhitespace(s), t)
    ensures ReadAllForms(s, t).result == Err(EmptyToken)
  {
    var s1 := SkipWhitespace(s);
    TokenLengthAt(s1, 0);
    ReadSymbolSpec(s1, t);
    assert Text(s1[..0]) == "";
  }

  /** The first occurrence of `c` is at `k` when `s[k]` is `c` and no earlier character is. */
  lemma IndexOfAt(s: seq<Code>, c: Code, k: nat)
    requires k < |s| && s[k] == c && c !in s[..k]
    ensures IndexOf(s, c) == Some(k)
  {
    IndexOfFirst(s, c);
    assert s[..k + 1][k] == c;
  }

  /**
   * A string literal reads as exactly the characters between its quotes,
   * with no escape processing; reading resumes after the closing quote.
   */
  lemma ReadStringLiteral(body: seq<Code>, rest: seq<Code>, t: Table)
    requires '"' as int !in body
    ensures ReadForm(['"' as int] + body + ['"' as int] + rest, t) == Parse(Ok(Str(Text(body))), rest, t)
  {
    var s := ['"' as int] + body + ['"' as int] + rest;
    assert SkipWhitespace(s) == s;
    var r := body + ['"' as int] + rest;
    assert s[1..] == r;
    IndexOfAt(r, '"' as int, |body|);
    ReadStringSpec(r);
    assert r[..|body|] == body && r[|body| + 1..] == rest;
  }

  /**
   * A comment runs through the next newline and yields no form: `read`
   * goes on with what follows it.
   */
  lemma ReadSkipsComment(body: seq<Code>, rest: seq<Code>, t: Table)
    requires '\n' as int !in body
    ensures ReadForm([';' as int] + body + ['\n' as int] + rest, t) == ReadForm(rest, t)
  {
    var s := [';' as int] + body + ['\n' as int] + rest;
    assert SkipWhitespace(s) == s;
    var r := body + ['\n' as int] + rest;
    assert s[1..] == r;
    IndexOfAt(r, '\n' as int, |body|);
    SkipCommentSpec(r);
    assert r[|body| + 1..] == rest;
  }

  /**
   * The forms `read` yields one after another from `s`, in input order,
   * together with the first read that fails (the one that ends read_all).
   */
  function FormsFrom(s: seq<Code>, t: Table): (r: (seq<Value>, Parse))
    decreases |s|
  {
    var p := ReadForm(s, t);
    if p.result.Ok? then
      var (vs, last) := FormsFrom(p.rest, p.syms);
      ([p.result.value] + vs, last)
    else ([], p)
  }

  /**
   * read_all appends the forms to what it has collected, in the order they
   * are read; end of input ends the list normally and any other failure is
   * the result.
   */
  lemma {:induction false} ReadAllFromSpec(s: seq<Code>, acc: seq<Value>, t: Table)
    ensures var (vs, last) := FormsFrom(s, t);
      ReadAllFrom(s, acc, t) ==
        if last.result == Err(EndOfInput) then Parse(Ok(FromList(acc + vs)), last.rest, last.syms) else last
    decreases |s|
  {
    var p := ReadForm(s, t);
    if p.result.Ok? {
      var f := p.result.value;
      ReadAllFromSpec(p.rest, acc + [f], p.syms);
      var (vs, last) := FormsFrom(p.rest, p.syms);
      assert (acc + [f]) + vs == acc + ([f] + vs);
    } else {
      assert acc + [] == acc;
    }
  }

  /** read_all of `s` is `(do f1 ... fn)` with the forms of `s` in input order, unless a read fails otherwise than at end of input. */
  lemma ReadAllFormsSpec(s: seq<Code>, t: Table)
    ensures var (vs, last) := FormsFrom(s, t);
      ReadAllForms(s, t).result ==
        if last.result == Err(EndOfInput) then Ok(Cons(Symbol(DoId), FromList(vs))) else last.result
  {
    ReadAllFromSpec(s, [Symbol(DoId)], t);
    var vs := FormsFrom(s, t).0;
    assert ([Symbol(DoId)] + vs)[1..] == vs;
  }

  /** Interpreting a token a second time, against the registry the first time left, gives the same value and changes nothing. */
  lemma InterpretTwice(token: string, t: Table)
    ensures var (r, t1) := Interpret(token, t);
      Interpret(token, t1) == (r, t1)
  {
  }

  /** A minus sign alone is not a number: it is interned as a symbol. */
  lemma MinusIsSymbol(t: Table)
    ensures var (t', id) := InternIn(t, "-");
      Interpret("-", t) == (Ok(Symbol(id)), t')
  {
    assert !LooksNumeric("-");
  }

  /** A token that starts like a number but has a letter in it fails the integer conversion. */
  lemma DigitLedWithLetter(token: string, t: Table, i: nat)
    requires LooksNumeric(token) && 0 < i < |token| && 'a' <= token[i] <= 'z'
    ensures Interpret(token, t) == (Err(BadInteger), t)
  {
    NumericToken(token, t);
    if token[0] == '-' {
      assert token[1..][i - 1] == token[i];
    }
  }

  /**
   * The forms the list reader collects from `s`, one `read` after another,
   * as long as the stream does not start with `term`; then the stream after
   * the closer and the registry as the reads left it. The check for the
   * closer looks at the very next character, before `read` skips anything.
   */
  function ListForms(s: seq<Code>, term: Code, t: Table): (r: (Result<seq<Value>, ReadError>, seq<Code>, Table))
    decreases |s|
  {
    if s == [] then (Err(EndOfInput), [], t)
    else if s[0] == term then (Ok([]), s[1..], t)
    else
      var p := ReadForm(s, t);
      if p.result.Err? then (Err(p.result.error), p.rest, p.syms)
      else
        var (r, rest, t') := ListForms(p.rest, term, p.syms);
        (if r.Ok? then Ok([p.result.value] + r.value) else r, rest, t')
  }

  /**
   * The list reader appends the forms it reads to what it has collected, in
   * input order, and closes the list at `term`; a failed read, or the end of
   * input before the closer, is the result.
   */
  lemma {:induction false} ListItemsSpec(s: seq<Code>, term: Code, acc: seq<Value>, t: Table)
    ensures var (r, rest, t') := ListForms(s, term, t);
      ListItems(s, term, acc, t) ==
        Parse(if r.Ok? then Ok(FromList(acc + r.value)) else Err(r.error), rest, t')
    decreases |s|
  {
    if s != [] && s[0] != term {
      var p := ReadForm(s, t);
      if p.result.Ok? {
        var f := p.result.value;
        ListItemsSpec(p.rest, term, acc + [f], p.syms);
        var r := ListForms(p.rest, term, p.syms).0;
        if r.Ok? {
          assert (acc + [f]) + r.value == acc + ([f] + r.value);
        }
      }
    } else if s != [] {
      assert acc + [] == acc;
    }
  }

  /** A list (its opener already read) is the forms read after its leading whitespace, up to the closer. */
  lemma ReadListSpec(s: seq<Code>, term: Code, t: Table)
    ensures var (r, rest, t') := ListForms(SkipWhitespace(s), term, t);
      ReadList(s, term, t) == Parse(if r.Ok? then Ok(FromList(r.value)) else Err(r.error), rest, t')
  {
    ListItemsSpec(SkipWhitespace(s), term, [], t);
    var r := ListForms(SkipWhitespace(s), term, t).0;
    if r.Ok? {
      assert [] + r.value == r.value;
    }
  }

  /** Whitespace between the opener and the closer is skipped: the list is empty. */
  lemma EmptyListRead(w: seq<Code>, term: Code, rest: seq<Code>, t: Table)
    requires forall i :: 0 <= i < |w| ==> IsWhitespace(w[i])
    requires term == ')' as int || term == ']' as int
    ensures ReadList(w + [term] + rest, term, t) == Parse(Ok(Nil), rest, t)
  {
    assert w + [term] + rest == w + ([term] + rest);
    SkipWhitespacePrefix(w, [term] + rest);
    assert ([term] + rest)[1..] == rest;
  }

  /**
   * Whitespace after a list's element and before its closer is not skipped
   * before the closer is looked for: `read` skips it and meets the closer,
   * an empty token, so the list fails and the closer stays pending.
   */
  lemma BlankBeforeCloser(w: seq<Code>, term: Code, rest: seq<Code>, acc: seq<Value>, t: Table)
    requires w != [] && forall i :: 0 <= i < |w| ==> IsWhitespace(w[i])
    requires term == ')' as int || term == ']' as int
    ensures ListItems(w + [term] + rest, term, acc, t) == Parse(Err(EmptyToken), [term] + rest, t)
  {
    var s := w + [term] + rest;
    assert s == w + ([term] + rest);
    assert s[0] == w[0];
    SkipWhitespacePrefix(w, [term] + rest);
    StrayCloser(s, t);
  }

  /** The same holds for a comment between a list's element and its closer. */
  lemma CommentBeforeCloser(body: seq<Code>, term: Code, rest: seq<Code>, acc: seq<Value>, t: Table)
    requires '\n' as int !in body
    requires term == ')' as int || term == ']' as int
    ensures ListItems([';' as int] + body + ['\n' as int] + ([term] + rest), term, acc, t) ==
      Parse(Err(EmptyToken), [term] + rest, t)
  {
    var s := [';' as int] + body + ['\n' as int] + ([term] + rest);
    assert s[0] == ';' as int;
    ReadSkipsComment(body, [term] + rest, t);
    assert SkipWhitespace([term] + rest) == [term] + rest;
    StrayCloser([term] + rest, t);
  }

  /** Interpreting a token only ever adds to the registry. */
  lemma InterpretGrows(token: string, t: Table)
    ensures Grows(t, Interpret(token, t).1)
  {
    InternGrows(t, token);
  }

  /** The symbol reader only ever adds to the registry. */
  lemma ReadSymbolGrows(s: seq<Code>, t: Table)
    ensures Grows(t, ReadSymbol(s, t).syms)
  {
    ReadSymbolSpec(s, t);
    InterpretGrows(Text(s[..TokenLength(s)]), t);
  }

  /** `read` only ever adds to the registry: no symbol is lost or renumbered. */
  lemma {:induction false} ReadFormGrows(s: seq<Code>, t: Table)
    ensures Grows(t, ReadForm(s, t).syms)
    decreases |s|, 1
  {
    var s1 := SkipWhitespace(s);
    if s1 != [] {
      var c, r := s1[0], s1[1..];
      if c == '(' as int {
        ReadListGrows(r, ')' as int, t);
      } else if c == '[' as int {
        ReadListGrows(r, ']' as int, t);
      } else if c == '"' as int {
      } else if c == ';' as int {
        match SkipComment(r)
        case None =>
        case Some(after) => ReadFormGrows(after, t);
      } else if c == '\'' as int {
        ReadQuoteGrows(r, t);
      } else {
        ReadSymbolGrows(s1, t);
      }
    }
  }

  lemma {:induction false} ReadQuoteGrows(s: seq<Code>, t: Table)
    ensures Grows(t, ReadQuote(s, t).syms)
    decreases |s|, 2
  {
    ReadFormGrows(s, t);
  }

  lemma {:induction false} ReadListGrows(s: seq<Code>, term: Code, t: Table)
    ensures Grows(t, ReadList(s, term, t).syms)
    decreases |s|, 3
  {
    ListItemsGrows(SkipWhitespace(s), term, [], t);
  }

  lemma {:induction false} ListItemsGrows(s: seq<Code>, term: Code, acc: seq<Value>, t: Table)
    ensures Grows(t, ListItems(s, term, acc, t).syms)
    decreases |s|, 2
  {
    if s != [] && s[0] != term {
      var p := ReadForm(s, t);
      ReadFormGrows(s, t);
      if p.result.Ok? {
        ListItemsGrows(p.rest, term, acc + [p.result.value], p.syms);
        GrowsTrans(t, p.syms, ListItems(p.rest, term, acc + [p.result.value], p.syms).syms);
      }
    }
  }

  /** read_all only ever adds to the registry. */
  lemma {:induction false} ReadAllGrows(s: seq<Code>, acc: seq<Value>, t: Table)
    ensures Grows(t, ReadAllFrom(s, acc, t).syms)
    decreases |s|
  {
    var p := ReadForm(s, t);
    ReadFormGrows(s, t);
    if p.result.Ok? {
      ReadAllGrows(p.rest, acc + [p.result.value], p.syms);
      GrowsTrans(t, p.syms, ReadAllFrom(p.rest, acc + [p.result.value], p.syms).syms);
    }
  }

  /** A registry holding the boot names still holds them, under the same ids, after any reading. */
  lemma ReaderKeepsBoot(s: seq<Code>, t: Table)
    requires ExtendsBoot(t)
    ensures ExtendsBoot(ReadForm(s, t).syms)
    ensures ExtendsBoot(ReadAllForms(s, t).syms)
  {
    ReadFormGrows(s, t);
    GrowsKeepsBoot(t, ReadForm(s, t).syms);
    ReadAllGrows(s, [Symbol(DoId)], t);
    GrowsKeepsBoot(t, ReadAllForms(s, t).syms);
  }

  /** Every reserved name is a non-empty run of lower-case letters. */
  lemma SpecialNamesLetters(i: nat)
    requires i < |SpecialNames|
    ensures |SpecialNames[i]| > 0 && forall j :: 0 <= j < |SpecialNames[i]| ==> 'a' <= SpecialNames[i][j] <= 'z'
  {
  }

  /** The text of a reserved name is a token of constituents that is neither numeric nor a literal name. */
  lemma SpecialNameToken(w: seq<Code>, i: nat)
    requires i < |SpecialNames| && Text(w) == SpecialNames[i]
    ensures w != [] && forall j :: 0 <= j < |w| ==> IsConstituent(w[j])
    ensures !LooksNumeric(Text(w)) && Text(w) != "true" && Text(w) != "false" && Text(w) != "nil"
  {
    SpecialNamesLetters(i);
    forall j | 0 <= j < |w| ensures IsConstituent(w[j]) {
      assert Text(w)[j] == w[j] as char;
    }
  }

  /** A registry holding the boot names holds each reserved name under its boot id. */
  lemma SpecialNameId(t: Table, i: nat)
    requires ExtendsBoot(t) && i < |SpecialNames|
    ensures SpecialNames[i] in t.ids && t.ids[SpecialNames[i]] == QuoteId + i
  {
    BootTable();
    assert BootNames[PrimCount + i] == SpecialNames[i];
  }

  /**
   * Against a registry holding the boot names, the text of a reserved name
   * reads as the very symbol the evaluator dispatches on (`quote` as the
   * symbol the quote reader wraps with, `do` as the one read_all heads its
   * result with), and the registry is unchanged.
   */
  lemma ReadSpecialName(w: seq<Code>, rest: seq<Code>, t: Table, i: nat)
    requires ExtendsBoot(t)
    requires i < |SpecialNames| && Text(w) == SpecialNames[i]
    requires rest != [] && !IsConstituent(rest[0])
    ensures ReadForm(w + rest, t) == Parse(Ok(Symbol(QuoteId + i)), rest, t)
  {
    SpecialNameToken(w, i);
    SpecialNameId(t, i);
    ReadSymbolToken(w, rest, t);
  }

  /** The text `quote` as byte codes. */
  const QuoteCodes: seq<Code> := [113, 117, 111, 116, 101]

  lemma QuoteCodesText()
    ensures Text(QuoteCodes) == SpecialNames[0]
  {
    assert Text(QuoteCodes) == ['q', 'u', 'o', 't', 'e'];
  }

  /** The quote reader reads the form after the quote character and wraps it as `(quote form)`. */
  lemma ReadQuotedSymbol(w: seq<Code>, rest: seq<Code>, t: Table)
    requires w != [] && forall i :: 0 <= i < |w| ==> IsConstituent(w[i])
    requires !LooksNumeric(Text(w)) && Text(w) != "true" && Text(w) != "false" && Text(w) != "nil"
    requires rest != [] && !IsConstituent(rest[0])
    ensures var (t', id) := InternIn(t, Text(w));
      ReadForm(['\'' as int] + w + rest, t) == Parse(Ok(FromList([Symbol(QuoteId), Symbol(id)])), rest, t')
  {
    var s := ['\'' as int] + w + rest;
    assert SkipWhitespace(s) == s;
    assert s[1..] == w + rest;
    ReadSymbolToken(w, rest, t);
  }

  /** An opening parenthesis starts the list reader on what follows it. */
  lemma OpenParenReads(r: seq<Code>, t: Table)
    ensures ReadForm(['(' as int] + r, t) == ReadList(r, ')' as int, t)
  {
    var s := ['(' as int] + r;
    assert SkipWhitespace(s) == s && s[1..] == r;
  }

  /** Inside a list, a form that reads is collected and the loop goes on after it. */
  lemma ListItemsNext(s: seq<Code>, term: Code, acc: seq<Value>, t: Table)
    requires s != [] && s[0] != term && ReadForm(s, t).result.Ok?
    ensures var p := ReadForm(s, t);
      ListItems(s, term, acc, t) == ListItems(p.rest, term, acc + [p.result.value], p.syms)
  {
  }

  /** The closer ends the list with what has been collected. */
  lemma ListItemsClose(rest: seq<Code>, term: Code, acc: seq<Value>, t: Table)
    ensures ListItems([term] + rest, term, acc, t) == Parse(Ok(FromList(acc)), rest, t)
  {
    assert ([term] + rest)[1..] == rest;
  }

  /** A blank and then a symbol token right before the closer is the list's last element. */
  lemma LastSymbolOfList(w: seq<Code>, rest: seq<Code>, acc: seq<Value>, t: Table)
    requires w != [] && forall i :: 0 <= i < |w| ==> IsConstituent(w[i])
    requires !LooksNumeric(Text(w)) && Text(w) != "true" && Text(w) != "false" && Text(w) != "nil"
    ensures var (t', id) := InternIn(t, Text(w));
      ListItems([' ' as int] + w + [')' as int] + rest, ')' as int, acc, t) ==
        Parse(Ok(FromList(acc + [Symbol(id)])), rest, t')
  {
    var (t', id) := InternIn(t, Text(w));
    var tail := w + ([')' as int] + rest);
    var s2 := [' ' as int] + tail;
    assert s2 == [' ' as int] + w + [')' as int] + rest;
    ReadSymbolToken(w, [')' as int] + rest, t);
    assert SkipWhitespace(tail) == tail;
    assert SkipWhitespace(s2) == tail;
    assert ReadForm(s2, t) == ReadForm(tail, t);
    ListItemsNext(s2, ')' as int, acc, t);
    ListItemsClose(rest, ')' as int, acc + [Symbol(id)], t');
  }

  /** Input that does not start with a blank is left as it is by the blank skipper. */
  lemma NoBlankAhead(s: seq<Code>)
    requires s != [] && !IsWhitespace(s[0])
    ensures SkipWhitespace(s) == s
  {
  }

  /** Against a registry holding the boot names, the letters of `quote` read as the quote reader's own symbol. */
  lemma QuoteNameRead(s2: seq<Code>, t: Table)
    requires ExtendsBoot(t)
    requires s2 != [] && !IsConstituent(s2[0])
    ensures (QuoteCodes + s2)[0] == 113
    ensures ReadForm(QuoteCodes + s2, t) == Parse(Ok(Symbol(QuoteId)), s2, t)
  {
    QuoteCodesText();
    ReadSpecialName(QuoteCodes, s2, t, 0);
  }

  /** An opening parenthesis and the name `quote` start a list headed by the quote symbol. */
  lemma QuoteListHead(s2: seq<Code>, t: Table)
    requires ExtendsBoot(t)
    requires s2 != [] && !IsConstituent(s2[0])
    ensures ReadForm(['(' as int] + QuoteCodes + s2, t) == ListItems(s2, ')' as int, [Symbol(QuoteId)], t)
  {
    var s1 := QuoteCodes + s2;
    assert ['(' as int] + QuoteCodes + s2 == ['(' as int] + s1;
    OpenParenReads(s1, t);
    NoBlankAhead(s1);
    QuoteNameRead(s2, t);
    ListItemsNext(s1, ')' as int, [], t);
    assert [] + [Symbol(QuoteId)] == [Symbol(QuoteId)];
  }

  /** Against a registry holding the boot names, `(quote x)` reads as the quote symbol followed by the symbol `x`. */
  lemma QuoteFormRead(w: seq<Code>, rest: seq<Code>, t: Table)
    requires ExtendsBoot(t)
    requires w != [] && forall i :: 0 <= i < |w| ==> IsConstituent(w[i])
    requires !LooksNumeric(Text(w)) && Text(w) != "true" && Text(w) != "false" && Text(w) != "nil"
    ensures var (t', id) := InternIn(t, Text(w));
      ReadForm(['(' as int] + QuoteCodes + [' ' as int] + w + [')' as int] + rest, t) ==
        Parse(Ok(FromList([Symbol(QuoteId), Symbol(id)])), rest, t')
  {
    var id := InternIn(t, Text(w)).1;
    var s2 := [' ' as int] + w + [')' as int] + rest;
    assert ['(' as int] + QuoteCodes + [' ' as int] + w + [')' as int] + rest == ['(' as int] + QuoteCodes + s2;
    QuoteListHead(s2, t);
    LastSymbolOfList(w, rest, [Symbol(QuoteId)], t);
    assert [Symbol(QuoteId)] + [Symbol(id)] == [Symbol(QuoteId), Symbol(id)];
  }

  /**
   * Against a registry holding the boot names, `'x` abbreviates `(quote x)`:
   * the written-out form reads as the very same value, with the same
   * registry and the same stream left.
   */
  lemma QuoteAbbreviates(w: seq<Code>, rest: seq<Code>, t: Table)
    requires ExtendsBoot(t)
    requires w != [] && forall i :: 0 <= i < |w| ==> IsConstituent(w[i])
    requires !LooksNumeric(Text(w)) && Text(w) != "true" && Text(w) != "false" && Text(w) != "nil"
    requires rest != [] && !IsConstituent(rest[0])
    ensures ReadForm(['(' as int] + QuoteCodes + [' ' as int] + w + [')' as int] + rest, t) ==
      ReadForm(['\'' as int] + w + rest, t)
  {
    QuoteFormRead(w, rest, t);
    ReadQuotedSymbol(w, rest, t);
  }
}
