# A verified model of the RPython Lisp interpreter

This project models, in Dafny, the core of the small Lisp interpreter in
`src/lisp_in_x/in_rpython.py`. The model has three parts, and each part is
proved against a specification.

**Values, symbols and globals.**
- Runtime data is one immutable datatype (`Values.Value`): integers, strings, symbols, `nil`, booleans, pairs and function objects.
- The symbol registry (`Symbols`) interns text. Equal texts get one symbol, and a symbol is identified by the id it received when its text was first interned, so the interpreter's `is` comparisons on symbols become comparisons of ids.
- The ids of the boot-time names are fixed by the order in which the interpreter interns them: the 23 primitive names in registration order, then `quote`, `do`, `def`, `if`, `fn`, `cond`, `resolve` and `let`.
- The global table (`GlobalTable.Globals`) is a class whose dictionary field is updated in place. `reset_globals` refills it in a loop.

**The reader (`Reader`).**
- A character source with one character of pushback is a pair of classes.
- Each reader function is a method with the source's loops: the list, string, comment, quote and symbol readers, `interpret_symbol`, `read` and `read_all`.
- Each method is proved equal to a pure function of the characters still pending and of the registry's state.
- `ReaderLaws` states what those functions mean:
  - integers read back exactly;
  - symbols are interned;
  - strings are raw;
  - comments vanish;
  - `read_all` and the list reader keep the forms in input order;
  - reading only ever adds to the registry, and against a registry holding the boot names the reserved names read as the symbols the evaluator dispatches on;
  - the source's edge cases at end of input and at a closing bracket.

**The evaluator (`Machine`).**
- Continuation frames (nine kinds) and the persistent stack are datatypes.
- `Step` is each frame's `call_continuation`.
- The driver `Run` pops and calls frames until the stack is empty, with a fuel bound.
- `EvalAll` is the driver loop as a method, which applies global definitions to the `Globals` object.

On top of the machine, the laws are proved in big-step form:
- A run that succeeds never looks beneath the frames it was given (`EvalLaws.RunLift`). This makes the run of a sub-expression a unit.
- A run that fails, for any reason other than a missing parked value, fails the same way over any frames beneath (`EvalLaws.RunLiftFails`).
- A run whose own stack lacks a parked value that it pops can succeed over frames that supply one (`EvalLaws.MissingParkedValue`). Stacks built by evaluating an expression always hold the values they pop (`EvalLaws.EvaluationParks`).
- From that follow the application order (head first, then the arguments left to right, then the call with the arguments in source order), and a law for every special form (`FormLaws`).
- Lookup and binding are covered too: innermost binding wins and `let` shadows (`EnvLaws`), and so are the primitives (`PrimLaws`).

### Behaviour kept as the code has it

The model keeps these behaviours of the code:
- An empty `(do)` is not "nothing to evaluate": its frame takes the `cdr` of `nil` and fails (`FormLaws.EmptyDoFails`). So does `read_all` of an input with no forms, once evaluated.
- The list reader skips whitespace only before the first element. Whitespace, or a comment, before the closing bracket makes the symbol reader see the bracket, produce an empty token, and fail at its first character (`ReaderLaws.StrayCloser`, `ReaderLaws.BlankBeforeCloser`, `ReaderLaws.CommentBeforeCloser`).
- The evaluator fails in more ways than a malformed form and an unbound symbol:
  - calling a non-function;
  - a non-integer given to arithmetic;
  - a missing value frame;
  - running out of fuel.
  Each is a separate error value.

Other quirks are kept as well:
- `(if c t)` without an else branch is malformed, whatever `c` is.
- `(cond)` fails (`FormLaws.EmptyCondFails`). A test with nothing after it fails once it is evaluated, whether it is truthy or not: `(cond c)` fails (`FormLaws.LoneTestFails`), and so does a `cond` whose last test has no result (`FormLaws.CondExhaustedFails`).
- A `let` binding list that is empty or odd fails: `(let () ...)` (`FormLaws.EmptyLetFails`), `(let (x) ...)` (`FormLaws.LoneLetSymbolFails`), and a later symbol with no expression after it once the binding before it is made (`FormLaws.OddLetBindingFails`).
- A closure called with fewer arguments than formals leaves the extra formals unbound. More arguments than formals fail.
- A token that runs to the very end of the input is lost, and `read_all` ends without it.
- Only lower-case letters are symbol constituents.

## Model

| member | source | states |
|---|---|---|
| Values.CarOf | src/lisp_in_x/in_rpython.py:156-157 | `car` succeeds exactly on a pair and yields its first part; on anything else it fails as a malformed form |
| Values.CdrOf | src/lisp_in_x/in_rpython.py:159-160 | `cdr` succeeds exactly on a pair and yields its second part; on anything else it fails as a malformed form |
| Values.FromList | src/lisp_in_x/in_rpython.py:163-169 | the list `from_list` builds; its meaning is given by `Values.ElementsFromList` and `Values.FromListElements`, and its loop by `Values.ConsFromList` |
| Values.ConsFromList | src/lisp_in_x/in_rpython.py:163-169 | `from_list`'s backwards loop builds the nil-terminated list whose elements are exactly the input sequence |
| Values.ElementsFromList | src/lisp_in_x/in_rpython.py:163-169 | reading the elements of a list built by `from_list` gives back the sequence |
| Values.FromListElements | src/lisp_in_x/in_rpython.py:163-169 | every proper list is rebuilt exactly by `from_list` from its elements |
| Symbols.InternIn | src/lisp_in_x/in_rpython.py:63-70 | interning returns the id already recorded for the text, or records a fresh id; no other entry changes, and distinct texts keep distinct ids |
| Symbols.SymbolRegistry.constructor | src/lisp_in_x/in_rpython.py:60-61 | a new registry is empty |
| Symbols.SymbolRegistry.Intern | src/lisp_in_x/in_rpython.py:63-70 | a known text returns its symbol and leaves the registry unchanged; an unknown one gets a fresh symbol and exactly one new entry |
| Symbols.InternAll | src/lisp_in_x/in_rpython.py:63-70 | interning each text in order; its meaning is given by `Symbols.InternAllDistinct`, `Symbols.InternAllWellFormed` and `Symbols.InternAllSnoc` |
| Symbols.InternAllDistinct | src/lisp_in_x/in_rpython.py:63-70 | interning distinct new texts one after another gives them consecutive fresh ids and keeps every earlier entry |
| Symbols.InternAllWellFormed | src/lisp_in_x/in_rpython.py:63-70 | interning keeps ids unique and below the allocation counter |
| Symbols.BootTable | src/lisp_in_x/in_rpython.py:185-191 | after loading, the i-th boot name has id i and no other text is interned |
| Symbols.SymbolRegistry.LoadBootNames | src/lisp_in_x/in_rpython.py:185-191 | the registry after interning every boot name in load order is `InternAll` of them, which from an empty registry is the boot table |
| Symbols.SymbolRegistry.InternEach | src/lisp_in_x/in_rpython.py:185-191 | interning names one after the other, in order, leaves the registry at `InternAll` of them |
| Symbols.InternAllSnoc | src/lisp_in_x/in_rpython.py:63-70 | interning one more text after a sequence is interning the longer sequence |
| Symbols.InternGrows | src/lisp_in_x/in_rpython.py:63-70 | interning never drops or renumbers an entry and keeps the registry well-formed |
| Symbols.GrowsKeepsBoot | src/lisp_in_x/in_rpython.py:185-191 | a registry grown from one holding the boot names still holds them under their boot ids |
| Symbols.BootExtendsBoot | src/lisp_in_x/in_rpython.py:185-191 | the loaded registry holds every boot name under its boot id |
| Reader.CharSource.constructor | src/lisp_in_x/in_rpython.py:356-358 | an in-memory source stands in for the file; it will deliver exactly its input |
| Reader.CharSource.Read | src/lisp_in_x/in_rpython.py:360-364 | yields the next character and consumes it; at end of input yields none and stays empty |
| Reader.PushbackReader.constructor | src/lisp_in_x/in_rpython.py:368-371 | a new pushback reader holds no character and delivers exactly what its source will |
| Reader.PushbackReader.Read | src/lisp_in_x/in_rpython.py:373-378 | a pushed-back character is delivered first without touching the source; otherwise the source's next character; the pending stream loses its first character |
| Reader.PushbackReader.Unread | src/lisp_in_x/in_rpython.py:380-383 | pushing a character back puts it in front of the pending stream; the cell must be empty beforehand |
| Reader.SkipWhitespace | src/lisp_in_x/in_rpython.py:481-483 | the stream after skipping starts with no whitespace character and is no longer than before |
| Reader.SkipWhitespaceSpec | src/lisp_in_x/in_rpython.py:481-483 | skipping drops exactly a prefix of the stream, and every character of that prefix is whitespace |
| Reader.SkipWhitespacePrefix | src/lisp_in_x/in_rpython.py:481-483 | whitespace followed by a stream that does not start with whitespace skips to exactly that stream |
| Reader.SkipCommentSpec | src/lisp_in_x/in_rpython.py:416-421 | a comment ends just after the first newline; without a newline the input ends inside it |
| Reader.ReadStringFromSpec | src/lisp_in_x/in_rpython.py:407-414 | the string reader's loop appends the text before the first quote to what it has and resumes after that quote; without a quote the input ends inside the string |
| Reader.ReadStringSpec | src/lisp_in_x/in_rpython.py:407-414 | a string literal's value is exactly the raw text before the first quote |
| Reader.SymbolFromSpec | src/lisp_in_x/in_rpython.py:452-462 | the symbol reader's loop takes the longest run of constituents, leaves the next character pending, and fails when the input ends inside the run |
| Reader.ReadSymbolSpec | src/lisp_in_x/in_rpython.py:452-462 | a token is the longest run of constituents from the start character, interpreted by `interpret_symbol` |
| Reader.ReadForm | src/lisp_in_x/in_rpython.py:478-494 | `read` never grows the pending stream, and a successful read consumes at least one character; what it yields is given by `ReaderLaws.ReadAllFormsSpec`, `ReaderLaws.ReadListSpec`, `ReaderLaws.ReadSymbolToken`, `ReaderLaws.ReadIntegerBack`, `ReaderLaws.ReadStringLiteral` and `ReaderLaws.ReadSkipsComment` |
| Reader.ListItems | src/lisp_in_x/in_rpython.py:394-402 | the list reader's loop never grows the pending stream and consumes at least the closing bracket when it succeeds; the forms it collects are given by `ReaderLaws.ListItemsSpec` |
| Reader.ReadList | src/lisp_in_x/in_rpython.py:386-402 | the list reader after its opener; its result is given by `ReaderLaws.ReadListSpec`, `ReaderLaws.EmptyListRead` and `ReaderLaws.BlankBeforeCloser` |
| Reader.ReadQuote | src/lisp_in_x/in_rpython.py:433-434 | the quote reader; its meaning is given by `ReaderLaws.ReadQuotedSymbol` and `ReaderLaws.QuoteAbbreviates` |
| Reader.Interpret | src/lisp_in_x/in_rpython.py:468-475 | `interpret_symbol`; its meaning is given by `ReaderLaws.NumericToken`, `ReaderLaws.IntegerTokenValue`, `ReaderLaws.MinusIsSymbol` and `ReaderLaws.InterpretTwice` |
| Reader.ParseInteger | src/lisp_in_x/in_rpython.py:473-474 | the `int()` conversion of a numeric-looking token; its meaning is given by `ReaderLaws.IntegerTokenParses` and `ReaderLaws.DigitLedWithLetter` |
| Reader.SkipComment | src/lisp_in_x/in_rpython.py:416-421 | the comment reader's loop; its meaning is given by `Reader.SkipCommentSpec` |
| Reader.ReadString | src/lisp_in_x/in_rpython.py:407-414 | the string reader; its meaning is given by `Reader.ReadStringSpec` and `ReaderLaws.ReadStringLiteral` |
| Reader.ReadSymbol | src/lisp_in_x/in_rpython.py:452-462 | the symbol reader; its meaning is given by `Reader.ReadSymbolSpec` and `ReaderLaws.ReadSymbolToken` |
| Reader.ReadAllFrom | src/lisp_in_x/in_rpython.py:496-502 | `read_all`'s loop; its meaning is given by `ReaderLaws.ReadAllFromSpec` |
| Reader.ReadAllForms | src/lisp_in_x/in_rpython.py:496-502 | `read_all`; its meaning is given by `ReaderLaws.ReadAllFormsSpec`, `ReaderLaws.ReadAllBlank` and `ReaderLaws.TrailingTokenDropped` |
| Reader.InterpretSymbol | src/lisp_in_x/in_rpython.py:468-475 | the method's result and the registry's new state are those of the token classification `Interpret` |
| Reader.SymbolReader | src/lisp_in_x/in_rpython.py:452-462 | the method's result, pending stream and registry are those of `ReadSymbol` on the start character followed by the pending stream |
| Reader.StringReader | src/lisp_in_x/in_rpython.py:407-414 | the method's result and pending stream are those of `ReadString` |
| Reader.CommentReader | src/lisp_in_x/in_rpython.py:416-421 | the method consumes exactly through the next newline, or fails with end of input having consumed everything |
| Reader.QuoteReader | src/lisp_in_x/in_rpython.py:433-434 | the method reads one form and wraps it as `(quote form)`, as `ReadQuote` |
| Reader.ReadNonWhitespace | src/lisp_in_x/in_rpython.py:481-483 | the loop returns the first non-whitespace character and leaves what follows it pending, or reports end of input |
| Reader.ListReader | src/lisp_in_x/in_rpython.py:386-405 | the method's result, pending stream and registry are those of `ReadList` for its bracket |
| Reader.Read | src/lisp_in_x/in_rpython.py:478-494 | the method's result, pending stream and registry are those of `ReadForm` |
| Reader.ReadAll | src/lisp_in_x/in_rpython.py:496-502 | the method's result, pending stream and registry are those of `ReadAllForms` |
| ReaderLaws.IntegerTokenParses | src/lisp_in_x/in_rpython.py:473-474 | the decimal text of any integer, with a minus sign when negative, looks numeric and converts back to that integer |
| ReaderLaws.NumericToken | src/lisp_in_x/in_rpython.py:468-475 | a numeric-looking token is never a literal name: it becomes its integer, or fails the conversion, and interns nothing |
| ReaderLaws.IntegerTokenValue | src/lisp_in_x/in_rpython.py:468-475 | `interpret_symbol` of an integer's text is that integer, with the registry untouched |
| ReaderLaws.MinusIsSymbol | src/lisp_in_x/in_rpython.py:473-475 | a minus sign alone is not a number; it is interned as a symbol |
| ReaderLaws.DigitLedWithLetter | src/lisp_in_x/in_rpython.py:473-474 | a token that starts like a number but contains a letter fails the integer conversion |
| ReaderLaws.InterpretTwice | src/lisp_in_x/in_rpython.py:468-475 | interpreting a token again against the registry it produced yields the same value and changes nothing |
| ReaderLaws.TokenDispatch | src/lisp_in_x/in_rpython.py:485-494 | a stream that starts with a constituent goes to the symbol reader |
| ReaderLaws.ReadIntegerBack | src/lisp_in_x/in_rpython.py:452-475 | reading an integer's text followed by a delimiter yields that integer and leaves the delimiter pending |
| ReaderLaws.ReadSymbolToken | src/lisp_in_x/in_rpython.py:452-475 | a token that is neither a literal name nor numeric reads as the symbol the registry interns for its text |
| ReaderLaws.ReadSymbolAgain | src/lisp_in_x/in_rpython.py:452-475 | reading the same symbol text again yields the same symbol and leaves the registry as it was |
| ReaderLaws.ReadAllBlank | src/lisp_in_x/in_rpython.py:496-502 | an empty or all-whitespace input reads as `(do)` |
| ReaderLaws.TrailingTokenDropped | src/lisp_in_x/in_rpython.py:456-458 | a token running to the end of input makes `read` fail with end of input, and `read_all` ends without it |
| ReaderLaws.StrayCloser | src/lisp_in_x/in_rpython.py:468-475 | a closing bracket where a form should start is an empty token, which fails; nothing is interned |
| ReaderLaws.ReadStringLiteral | src/lisp_in_x/in_rpython.py:407-414 | a string literal reads as exactly the characters between its quotes, without escapes, and reading resumes after the closing quote |
| ReaderLaws.ReadSkipsComment | src/lisp_in_x/in_rpython.py:486-490 | a comment through its newline yields no form; `read` goes on with what follows |
| ReaderLaws.ReadAllFromSpec | src/lisp_in_x/in_rpython.py:496-502 | `read_all`'s loop appends the forms in the order they are read; end of input ends the list normally, any other failure is the result |
| ReaderLaws.ReadAllFormsSpec | src/lisp_in_x/in_rpython.py:496-502 | `read_all` yields `(do f1 ... fn)` with the forms in input order, unless a read fails otherwise than at end of input |
| ReaderLaws.ListItemsSpec | src/lisp_in_x/in_rpython.py:394-402 | the list reader's loop appends, in input order, the forms `read` yields one after another while the next character is not the closer; the closer ends the list, and a failed read or the end of input is the result |
| ReaderLaws.ReadListSpec | src/lisp_in_x/in_rpython.py:386-402 | a list is the forms read after its leading whitespace up to the closer, in input order |
| ReaderLaws.EmptyListRead | src/lisp_in_x/in_rpython.py:386-397 | whitespace between the opener and the closer is skipped and the list is empty |
| ReaderLaws.BlankBeforeCloser | src/lisp_in_x/in_rpython.py:394-402 | whitespace before the closer, after the first element, makes the list fail with an empty token, the closer left pending |
| ReaderLaws.CommentBeforeCloser | src/lisp_in_x/in_rpython.py:394-402 | a comment before the closer, after the first element, makes the list fail with an empty token, the closer left pending |
| ReaderLaws.InterpretGrows | src/lisp_in_x/in_rpython.py:468-475 | `interpret_symbol` only ever adds to the registry |
| ReaderLaws.ReadSymbolGrows | src/lisp_in_x/in_rpython.py:452-462 | the symbol reader only ever adds to the registry |
| ReaderLaws.ReadFormGrows | src/lisp_in_x/in_rpython.py:478-494 | `read` never drops or renumbers a registry entry and keeps the registry well-formed |
| ReaderLaws.ReadQuoteGrows | src/lisp_in_x/in_rpython.py:433-434 | the quote reader only ever adds to the registry |
| ReaderLaws.ReadListGrows | src/lisp_in_x/in_rpython.py:386-402 | the list reader only ever adds to the registry |
| ReaderLaws.ListItemsGrows | src/lisp_in_x/in_rpython.py:394-402 | the list reader's loop only ever adds to the registry |
| ReaderLaws.ReadAllGrows | src/lisp_in_x/in_rpython.py:496-502 | `read_all` only ever adds to the registry |
| ReaderLaws.ReaderKeepsBoot | src/lisp_in_x/in_rpython.py:478-502 | a registry holding the boot names holds them, under the same ids, after `read` and after `read_all` |
| ReaderLaws.ReadSpecialName | src/lisp_in_x/in_rpython.py:423-430 | against a registry holding the boot names, the text of each reserved name reads as the very symbol the evaluator and the quote reader use, and interns nothing |
| ReaderLaws.ReadQuotedSymbol | src/lisp_in_x/in_rpython.py:433-434 | a quote followed by a symbol token reads as `(quote symbol)`, with the delimiter left pending |
| ReaderLaws.OpenParenReads | src/lisp_in_x/in_rpython.py:478-494 | an opening parenthesis starts the list reader with `)` as its closer |
| ReaderLaws.ListItemsNext | src/lisp_in_x/in_rpython.py:398-402 | inside a list, a form that reads is collected and the loop goes on after it |
| ReaderLaws.ListItemsClose | src/lisp_in_x/in_rpython.py:395-396 | the closer ends the list with the forms collected so far |
| ReaderLaws.LastSymbolOfList | src/lisp_in_x/in_rpython.py:394-402 | a blank and then a symbol token right before the closer is read as the list's last element |
| ReaderLaws.QuoteListHead | src/lisp_in_x/in_rpython.py:423 | against a registry holding the boot names, `(quote` starts a list headed by the quote reader's own symbol |
| ReaderLaws.QuoteFormRead | src/lisp_in_x/in_rpython.py:423-434 | against a registry holding the boot names, `(quote x)` reads as the quote symbol followed by the symbol `x` |
| ReaderLaws.QuoteAbbreviates | src/lisp_in_x/in_rpython.py:433-434 | against a registry holding the boot names, `'x` and `(quote x)` read as the same form, leaving the same stream and registry |
| GlobalTable.GetGlobal | src/lisp_in_x/in_rpython.py:724-725 | a lookup succeeds exactly when the key is bound, with the bound value; otherwise it fails as unbound |
| GlobalTable.PrimTable | src/lisp_in_x/in_rpython.py:733-736 | the table `reset_globals` builds; its meaning is given by `GlobalTable.PrimTableUpToSpec`, `GlobalTable.PrimTableBoot` and `GlobalTable.PrimTableKeys` |
| GlobalTable.PrimTableUpToSpec | src/lisp_in_x/in_rpython.py:735-736 | after the first n registrations exactly the first n primitives are bound, each under the symbol of its position |
| GlobalTable.PrimTableBoot | src/lisp_in_x/in_rpython.py:185-191 | the name of primitive i is interned as symbol i, and after a reset that symbol is bound to primitive i |
| GlobalTable.PrimTableKeys | src/lisp_in_x/in_rpython.py:733-736 | after a reset only the primitives' symbols are bound; every other key misses |
| GlobalTable.Globals.constructor | src/lisp_in_x/in_rpython.py:718-719 | a new global table is empty |
| GlobalTable.Globals.DefGlobal | src/lisp_in_x/in_rpython.py:721-722 | binds or rebinds one key and changes nothing else |
| GlobalTable.Globals.Get | src/lisp_in_x/in_rpython.py:724-725 | the lookup over the object's current table, as `GetGlobal` |
| GlobalTable.Globals.Clear | src/lisp_in_x/in_rpython.py:727-728 | removes every binding |
| GlobalTable.ResetGlobals | src/lisp_in_x/in_rpython.py:733-736 | clearing and re-registering the primitives in order leaves exactly the start-up table |
| Machine.LookupEnv | src/lisp_in_x/in_rpython.py:740-748 | `lookup`; its meaning is given by `EnvLaws.LookupFound`, `EnvLaws.LookupSkips`, `EnvLaws.LookupGlobal` and `EnvLaws.LookupMalformed` |
| Machine.Bind | src/lisp_in_x/in_rpython.py:664-670 | the binding loop of `Lambda.invoke`; its meaning is given by `EnvLaws.BindSpec` and `EnvLaws.BindLookup` |
| Machine.Lookup | src/lisp_in_x/in_rpython.py:740-748 | the while loop down the association list computes `LookupEnv`, whose meaning `EnvLaws` states |
| Machine.BindArgs | src/lisp_in_x/in_rpython.py:664-670 | the binding loop computes `Bind`, whose meaning `EnvLaws.BindSpec` states |
| Machine.IntArg | src/lisp_in_x/in_rpython.py:295-298 | an operand has an integer exactly when it is an Integer, and that integer is its value |
| Machine.Identical | src/lisp_in_x/in_rpython.py:241-250 | identity is equality whenever it is known; it is unknown exactly for two equal strings, pairs or closures |
| Machine.PrimValue | src/lisp_in_x/in_rpython.py:217-308 | the `invoke` of each primitive other than `apply`; its meaning is given by `PrimLaws.ArithLaw`, `PrimLaws.CompareLaw`, `PrimLaws.EqLaw`, `PrimLaws.PairLaws`, `PrimLaws.PredicateLaws`, `PrimLaws.StepLaws` and the failure laws of `PrimLaws` |
| Machine.Invoke | src/lisp_in_x/in_rpython.py:322-345 | `invoke` for every function object (primitives, `apply`, vararg wrappers and, through `Bind`, closures at lines 664-672); its meaning is given by `PrimLaws.ApplyAndVarArg`, `PrimLaws.ClosureCall`, `PrimLaws.NotCallableLaw` and `EvalLaws.InvokeLift` |
| Machine.PopVals | src/lisp_in_x/in_rpython.py:556-558 | popping parked values; its meaning is given by `EvalLaws.PopValsParked` and `EvalLaws.PopValsErr` |
| Machine.PopArgs | src/lisp_in_x/in_rpython.py:550-560 | collecting an application's function and arguments; its meaning is given by `EvalLaws.PopArgsParked` and `EvalLaws.PopArgsErr` |
| Machine.CollectArgs | src/lisp_in_x/in_rpython.py:550-560 | the argument-collection loop computes `PopArgs`, whose meaning `EvalLaws.PopArgsParked` states |
| Machine.EvalSexpr | src/lisp_in_x/in_rpython.py:674-702 | `eval_sexpr`; its meaning is given by the laws of `FormLaws` for each special form and by `EvalLaws.ApplicationEntry` |
| Machine.EvalOne | src/lisp_in_x/in_rpython.py:704-714 | `eval_one`; its meaning is given by `EvalLaws.SelfEvaluating`, `EvalLaws.SymbolEvaluates` and `EvalLaws.ApplicationEntry` |
| Machine.ApplyStep | src/lisp_in_x/in_rpython.py:547-567 | EvalApply's `call_continuation`; its meaning is given by `EvalLaws.ParkRun`, `EvalLaws.FinalInvoke` and `EvalLaws.ApplicationOrder` |
| Machine.Step | src/lisp_in_x/in_rpython.py:524-651 | the `call_continuation` of each of the nine frames; its meaning is given by `EvalLaws.StepRun`, `EvalLaws.StepFails`, `EvalLaws.StepParks` and the run laws of `FormLaws` |
| Machine.Run | src/lisp_in_x/in_rpython.py:750-759 | the driver loop, which never gains fuel; its meaning is given by `EvalLaws.RunLift`, `EvalLaws.RunLiftFails`, `EvalLaws.RunParks` and `EvalLaws.SubLift` |
| Machine.Continue | src/lisp_in_x/in_rpython.py:755-757 | one driver iteration after the call, which never gains fuel; its meaning is given by `EvalLaws.StepRun` and `EvalLaws.StepFails` |
| Machine.Evaluate | src/lisp_in_x/in_rpython.py:750-759 | `eval_all`; its meaning is given by `EvalLaws.EvaluateIsSubRun`, `EvalLaws.EvaluationParks` and `Scenarios.ArithEvaluates` |
| Machine.EvalAll | src/lisp_in_x/in_rpython.py:750-759 | the driver loop's result and the registry's final table are those of the run `Evaluate` |
| EnvLaws.LookupFound | src/lisp_in_x/in_rpython.py:740-748 | lookup yields the value of the innermost binding of the symbol |
| EnvLaws.LookupSkips | src/lisp_in_x/in_rpython.py:740-748 | bindings of other symbols are passed over; the outer environment decides |
| EnvLaws.LookupGlobal | src/lisp_in_x/in_rpython.py:748 | in the empty environment a symbol is looked up in the global table, and found exactly when bound there |
| EnvLaws.LookupMalformed | src/lisp_in_x/in_rpython.py:742-743 | an environment that is not an association list makes lookup fail |
| EnvLaws.BindSpec | src/lisp_in_x/in_rpython.py:664-670 | with no more arguments than formals, each argument is bound to the formal in its position, the last innermost, in front of the captured environment; more arguments than formals fail |
| EnvLaws.BindLookup | src/lisp_in_x/in_rpython.py:664-670 | inside the call each supplied formal denotes its own argument, and a formal without an argument is looked up in the captured environment |
| EnvLaws.LetShadows | src/lisp_in_x/in_rpython.py:637-643 | a `let` binding shadows every outer binding of the same symbol |
| PrimLaws.ArithLaw | src/lisp_in_x/in_rpython.py:295-308 | `+`, `-` and `*` combine their first two integer arguments, ignore the rest and leave the stack alone |
| PrimLaws.CompareLaw | src/lisp_in_x/in_rpython.py:217-238 | `<`, `>`, `<=` and `>=` answer the comparison of their first two integer arguments |
| PrimLaws.FirstOperandChecked | src/lisp_in_x/in_rpython.py:217-238 | the ordering primitives, and `+`, `-`, `*` alike, fail on a non-integer first argument before looking for the second |
| PrimLaws.SecondOperandMissing | src/lisp_in_x/in_rpython.py:217-238 | with an integer first argument and no second, the ordering and arithmetic primitives fail as malformed |
| PrimLaws.EqLaw | src/lisp_in_x/in_rpython.py:241-250 | `=` compares integers by value and other values by identity, known for symbols, singletons, primitives and unequal values |
| PrimLaws.PairLaws | src/lisp_in_x/in_rpython.py:253-268 | `car` and `cdr` take a pair apart and `cons` builds one |
| PrimLaws.PairErrors | src/lisp_in_x/in_rpython.py:253-262 | `car` and `cdr` of anything but a pair fail as malformed |
| PrimLaws.PredicateLaws | src/lisp_in_x/in_rpython.py:270-283 | `nil?`, `cons?` and `symbol?` answer whether their argument is nil, a pair or a symbol |
| PrimLaws.StepLaws | src/lisp_in_x/in_rpython.py:285-293 | `inc` and `dec` add and subtract one |
| PrimLaws.ApplyAndVarArg | src/lisp_in_x/in_rpython.py:315-345 | `(apply f args)` is the call of `f` on `args`; `(vararg f)` makes a function that passes its whole argument list to `f` as one argument |
| PrimLaws.ClosureCall | src/lisp_in_x/in_rpython.py:664-672 | calling a closure binds its formals in front of its captured environment and pushes its body on the caller's stack, or fails as binding fails |
| PrimLaws.NotCallableLaw | src/lisp_in_x/in_rpython.py:561 | only function objects can be invoked |
| EvalLaws.PrimLift | src/lisp_in_x/in_rpython.py:217-220 | a primitive other than `apply` returns the stack it is given, whatever lies in it |
| EvalLaws.InvokeLift | src/lisp_in_x/in_rpython.py:664-672 | invocation only pushes onto the stack it is given, so the frames beneath are carried along unchanged |
| EvalLaws.PopValsLift | src/lisp_in_x/in_rpython.py:556-558 | popping parked values that are present does not depend on what lies beneath them |
| EvalLaws.PopValsErr | src/lisp_in_x/in_rpython.py:556-558 | popping parked values fails only on a frame that is not a parked value |
| EvalLaws.PopArgsErr | src/lisp_in_x/in_rpython.py:550-560 | collecting an application's arguments and function fails only on a frame that is not a parked value |
| EvalLaws.CallStepLift | src/lisp_in_x/in_rpython.py:549-561 | once its parked values are found, the invocation ending an application does not depend on the frames beneath, whether it succeeds or fails |
| EvalLaws.ApplyStepLift | src/lisp_in_x/in_rpython.py:547-567 | EvalApply's continuation does not depend on the frames beneath unless it fails for want of a parked value |
| EvalLaws.EvalSexprFails | src/lisp_in_x/in_rpython.py:674-702 | a malformed special form fails the same way whatever lies beneath |
| EvalLaws.EvalSexprLiftA | src/lisp_in_x/in_rpython.py:674-684 | `if`, `do`, `def` and `quote` push their frames on whatever stack they are given |
| EvalLaws.EvalSexprLiftB | src/lisp_in_x/in_rpython.py:685-702 | `cond`, `resolve`, `let`, `fn` and applications push their frames on whatever stack they are given |
| EvalLaws.EvalSexprLift | src/lisp_in_x/in_rpython.py:674-702 | `eval_sexpr` does not depend on the frames beneath, whether it succeeds or fails |
| EvalLaws.EvalOneLift | src/lisp_in_x/in_rpython.py:704-714 | `eval_one` does not depend on the frames beneath, whether it succeeds or fails |
| EvalLaws.StepLift | src/lisp_in_x/in_rpython.py:524-651 | every frame's continuation call that succeeds does not depend on the frames beneath |
| EvalLaws.RunLift | src/lisp_in_x/in_rpython.py:750-759 | a run that empties its stack behaves, over any frames beneath, as that run followed by running the frames beneath with its value, globals and fuel |
| EvalLaws.StepFailLift | src/lisp_in_x/in_rpython.py:524-651 | a continuation call that fails otherwise than for want of a parked value fails the same way whatever lies beneath |
| EvalLaws.RunLiftFails | src/lisp_in_x/in_rpython.py:750-759 | a run that fails otherwise than for want of a parked value fails the same way, with the same globals and fuel, over any frames beneath |
| EvalLaws.MissingParkedValue | src/lisp_in_x/in_rpython.py:550-560 | a run that fails for want of a parked function succeeds over a frame that supplies one, so the failure half of the lift needs its exception |
| EvalLaws.BindErr | src/lisp_in_x/in_rpython.py:664-670 | binding fails only as a malformed form |
| EvalLaws.LookupEnvErr | src/lisp_in_x/in_rpython.py:740-748 | lookup fails only on a malformed environment or an unbound symbol |
| EvalLaws.PopValsParks | src/lisp_in_x/in_rpython.py:556-558 | on a stack whose applications have their parked values, popping the values an application counts finds them all and leaves such a stack |
| EvalLaws.InvokeParks | src/lisp_in_x/in_rpython.py:322-345 | an invocation never fails for want of a parked value and leaves a stack whose applications have their parked values |
| EvalLaws.ApplyStepParks | src/lisp_in_x/in_rpython.py:547-567 | EvalApply's continuation finds every value it pops and keeps every pending application's parked values beneath it |
| EvalLaws.EvalSexprParks | src/lisp_in_x/in_rpython.py:674-702 | `eval_sexpr` pushes an application only with nothing parked beyond its head, and never fails for want of a parked value |
| EvalLaws.EvalOneParks | src/lisp_in_x/in_rpython.py:704-714 | `eval_one` keeps every pending application's parked values beneath it, and never fails for want of a parked value |
| EvalLaws.StepParks | src/lisp_in_x/in_rpython.py:524-651 | every continuation call keeps every pending application's parked values beneath it, and never fails for want of a parked value |
| EvalLaws.RunParks | src/lisp_in_x/in_rpython.py:750-759 | a run from such a stack never fails for want of a parked value |
| EvalLaws.EvaluationParks | src/lisp_in_x/in_rpython.py:750-759 | evaluating an expression, at the top level or as a sub-expression, never fails for want of a parked value |
| EvalLaws.StepRun | src/lisp_in_x/in_rpython.py:755-757 | one driver iteration pops the top frame, calls it and applies its global definition |
| EvalLaws.ParkRun | src/lisp_in_x/in_rpython.py:563-567 | with an argument left, EvalApply parks the incoming value and evaluates that argument |
| EvalLaws.StepFails | src/lisp_in_x/in_rpython.py:755-757 | a failing continuation call ends the evaluation with its error, keeping the global table as it was |
| EvalLaws.SubLift | src/lisp_in_x/in_rpython.py:750-759 | a sub-expression evaluated on top of any stack hands its value, globals and fuel to what lies beneath |
| EvalLaws.PopValsParked | src/lisp_in_x/in_rpython.py:556-558 | popping n parked values conses them, in parking order, in front of the list collected so far |
| EvalLaws.PopArgsParked | src/lisp_in_x/in_rpython.py:550-560 | argument collection finds the head deepest and the arguments in order, ending with the incoming value |
| EvalLaws.FinalInvoke | src/lisp_in_x/in_rpython.py:549-561 | the last continuation call of an application invokes the head on all the arguments, in order, on the stack beneath |
| EvalLaws.ArgsRunDone | src/lisp_in_x/in_rpython.py:549-561 | the argument loop with no argument left arrives at the call at once |
| EvalLaws.ArgsStep | src/lisp_in_x/in_rpython.py:563-567 | one round of the argument loop parks the incoming value and runs the next argument as a unit |
| EvalLaws.ArgsRunCons | src/lisp_in_x/in_rpython.py:563-567 | after its first argument the argument loop continues over the rest with that value parked |
| EvalLaws.ArgsRun | src/lisp_in_x/in_rpython.py:547-567 | the remaining arguments are evaluated left to right, each seeing the globals the previous left, and the call sees every value parked in order |
| EvalLaws.ApplicationEntry | src/lisp_in_x/in_rpython.py:701-702 | a form whose head is no special form evaluates its head first, with the argument loop waiting beneath |
| EvalLaws.ApplicationOrder | src/lisp_in_x/in_rpython.py:539-567 | head first, then arguments left to right, then the head's value invoked on the argument values in source order on the stack the form was on |
| EvalLaws.ApplicationReturns | src/lisp_in_x/in_rpython.py:561 | an application whose call returns normally continues from the call's value and stack |
| EvalLaws.EvaluateIsSubRun | src/lisp_in_x/in_rpython.py:750-759 | `eval_all` is the run of its expression in the empty environment on the empty stack |
| EvalLaws.SelfEvaluating | src/lisp_in_x/in_rpython.py:713-714 | an expression that is neither a pair nor a symbol evaluates to itself in one call |
| EvalLaws.SymbolEvaluates | src/lisp_in_x/in_rpython.py:711-712 | a symbol evaluates to what lookup finds for it, or fails as lookup fails |
| EvalLaws.EvalSeqConstants | src/lisp_in_x/in_rpython.py:713-714 | a sequence of constants evaluates to itself and defines nothing |
| FormLaws.QuoteLaw | src/lisp_in_x/in_rpython.py:683-684 | `(quote d)` yields `d` itself, unevaluated |
| FormLaws.IfLaw | src/lisp_in_x/in_rpython.py:602-614 | the test is evaluated first, and the else branch is taken exactly when it yields nil or false |
| FormLaws.IfNeedsElse | src/lisp_in_x/in_rpython.py:675-677 | an `if` without an else branch is malformed |
| FormLaws.DefLaw | src/lisp_in_x/in_rpython.py:592-600 | the expression is evaluated, the unevaluated key is bound globally to its value, and the value is the result |
| FormLaws.FnLaw | src/lisp_in_x/in_rpython.py:696-699 | `fn` yields a closure over the current environment whose body is `(do body...)` |
| FormLaws.DoRunLast | src/lisp_in_x/in_rpython.py:586-587 | a `do` frame with one expression left evaluates it in its place |
| FormLaws.DoRunStep | src/lisp_in_x/in_rpython.py:588-590 | a `do` frame with more expressions evaluates the first and keeps the rest |
| FormLaws.DoRun | src/lisp_in_x/in_rpython.py:578-590 | all expressions but the last are evaluated in turn, then the last in place of the whole |
| FormLaws.DoLaw | src/lisp_in_x/in_rpython.py:678-679 | `(do e1 ... en)` evaluates e1 to en in order, and its value is en's |
| FormLaws.EmptyDoFails | src/lisp_in_x/in_rpython.py:586 | `(do)` fails as malformed |
| FormLaws.LetRun | src/lisp_in_x/in_rpython.py:630-643 | the binding frames bind in sequence, each seeing the earlier ones, then run the body as a `do` |
| FormLaws.LetLaw | src/lisp_in_x/in_rpython.py:691-695 | `let` evaluates its bindings in sequence, each in the environment the earlier ones built, then runs its body in the final environment |
| FormLaws.EmptyLetFails | src/lisp_in_x/in_rpython.py:691-695 | `(let () body...)` fails as malformed at once, with the globals unchanged |
| FormLaws.LoneLetSymbolFails | src/lisp_in_x/in_rpython.py:691-695 | `(let (x) body...)` fails as malformed at once, with the globals unchanged |
| FormLaws.OddLetBindingFails | src/lisp_in_x/in_rpython.py:637-643 | a binding frame whose remaining list is a symbol with no expression fails as malformed |
| FormLaws.CondChosen | src/lisp_in_x/in_rpython.py:622-623 | a truthy test selects the expression after it |
| FormLaws.CondSkipped | src/lisp_in_x/in_rpython.py:624-628 | a falsy test moves on to the next test, or yields nil when none is left |
| FormLaws.CondRun | src/lisp_in_x/in_rpython.py:616-628 | the test frames evaluate tests in order until one is truthy, then the expression after it in place of the form; with none truthy the value is nil |
| FormLaws.CondLaw | src/lisp_in_x/in_rpython.py:685-687 | `cond` yields the expression paired with the first truthy test, or nil |
| FormLaws.EmptyCondFails | src/lisp_in_x/in_rpython.py:685-687 | `(cond)` fails as malformed at once, with the globals unchanged |
| FormLaws.CondExhaustedFails | src/lisp_in_x/in_rpython.py:621-628 | a `cond` frame with nothing after its test fails as malformed whatever the test's value |
| FormLaws.LoneTestFails | src/lisp_in_x/in_rpython.py:621-628 | `(cond c)` evaluates `c` and then fails as malformed, keeping the globals `c` left |
| FormLaws.ResolveLaw | src/lisp_in_x/in_rpython.py:646-651 | `resolve` evaluates its argument and looks the value up as a global key, failing when it is unbound |
| Scenarios.ArithRun | src/lisp_in_x/in_rpython.py:701-702 | `(f x y)` with `f` bound to `+`, `-` or `*` yields the operation on the two integers and leaves the globals as they were |
| Scenarios.ArithEvaluates | src/lisp_in_x/in_rpython.py:750-759 | `eval_all` of such a form at top level yields the operation's value |
| Scenarios.AddScenario | src/lisp_in_x/in_rpython.py:295-298 | `(+ 1 2)` against the start-up table yields 3 and defines nothing |

## Left out

- `println`, `load-file` and `read-file` are registered in the global table, but calling them fails as unsupported. They print to standard output or read files.
- `die` also fails as unsupported. It prints and then stops the program.
- `/` fails as unsupported. It is floor division under RPython and Python 2 but true division under Python 3, so its meaning depends on the host.
- `FileReader` is replaced by an in-memory character source (`Reader.CharSource`). End of input is a value rather than an `EOFError`.
- `run`, `entry_point`, `target` and the `__main__` block are left out. They are file and process I/O.
- `to_string` on values (`Cons.to_string` included), `Type` and `type()` are left out. They only produce display text.
- Reading back a printed value is stated only at the token level: integers, strings and symbols.
- The base `Fn.invoke` (which yields nil) is left out: no bare `Fn` object is ever created, since every function object is a primitive, a closure or a vararg wrapper.
- Python exceptions are modelled as error values that end the evaluation, like the uncaught exception. This covers an attribute missing on a non-pair, a missing dictionary key, an index on an empty string and a failed `int()`. Their Python types and messages are not modelled.
- Reader.ParseInteger: follows the `int()` of RPython and Python 2, so a digit-led token containing `_` fails. Under Python 3, `int("1_000")` would be 1000.
- Integers are unbounded. The machine-integer overflow of translated RPython is not modelled.
- Machine.Identical: object identity is not tracked for strings, pairs and closures. So `=` on two equal such values is an `IdentityUnknown` failure rather than a guess, and a global key of those kinds is never found.
- Machine.Run: the driver carries a fuel bound, and running out is an `OutOfFuel` failure. The source has no bound; it would loop forever on a non-terminating program. Nothing is proved about termination.
- Reader.PushbackReader.Unread: the source asserts that no character is already pending. The model makes that a precondition, and every reader meets it.
- The symbol registry and the global table are process-wide objects in the source. The model passes them explicitly.
- The reader's functions accept any registry, but the quote reader, `read_all` and the evaluator use the boot ids of `quote`, `do` and the other reserved names. The laws that tie a reserved name's text to its symbol (`ReaderLaws.ReadSpecialName`) assume a registry that holds the boot names (`Symbols.ExtendsBoot`), as the interpreter's does once loaded (`Symbols.SymbolRegistry.LoadBootNames`).
- EvalLaws.RunLiftFails: the failure half of the lift excludes a failure for want of a parked value, because over a base that supplies the value such a run can succeed (`EvalLaws.MissingParkedValue`).
- Recursion depth is not modelled: deeply nested input exhausts the reader's native stack.
