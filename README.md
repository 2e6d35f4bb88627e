# warplang interpreter core, modelled in Dafny

warplang is a small Lisp written in Ruby (`main.rb`). A line of text goes
through three stages:

- the tokenizer (`STDInport` and its `TOKENIZER` pattern) splits the line into tokens;
- the reader (`read_ahead`/`read`) classifies each token with `is_fixnum?` … `is_symbol?` and builds values of the `Warp::Model` classes;
- `evaluate` runs the result against one global `EnvTable`, named `ENV`, which holds the builtin lambdas.

`write` turns a value back into text.

This project models the following:

- **Tokenizer:** one step of the tokenizer is a function on the rest of the line. `STDInport` is a class whose `next_token` consumes it.
- **Reader:** the reader is a pair of mutually recursive functions. `read_ahead` and `read` are methods proved equal to them.
- **Values:** every value class is a constructor of one `Value` datatype. Three more constructors cover the rest:
  - the raw Ruby arrays that `quote` and `cdr` return (`Seq`);
  - Ruby `nil` (`Nil`);
  - the builtin lambdas (`Prim`).
- **Environment:** `EnvTable` is a class with its table and extra frames. `find` is a loop proved equal to a lookup function.
- **Builtins:** each lambda of `ENV` is a case of `Builtins.Apply`.
- **Evaluation:** `evaluate` is a function that returns the result and the new environment. A method that changes an `EnvTable` in place is proved to agree with it.

Errors that Ruby raises are values of one `Error` type. Cases where Ruby would do something this model does not describe give `Unmodelled`. Examples are `(+ true 1)`, `(+ 1.5 "a")`, `%` by a Float (whose value, and so whether it is zero, is not kept) and `<`, `>` or `=` on Floats, Strings or Lists. The full list is under "## Left out"; besides those cases, no other error path hides behind `Unmodelled`.

Modules, in dependency order:

| Module | Contents |
|---|---|
| `Base` | Option, Result, Error |
| `Numerals` | `Integer#to_s`, `String#to_i`, `is_fixnum?` |
| `Lexer` | tokenizer, `STDInport` |
| `Values` | `Warp::Model`, `to_s`, `bool`, `car`/`cdr`, `val` |
| `Classify` | the `is_*?` tests, the atom cases of `read_ahead` |
| `Reader` | `read_ahead`, `read` |
| `RoundTrip` | read/write properties |
| `Environment` | `EnvTable`, the initial `ENV` |
| `Builtins` | the `ENV` lambdas |
| `BuiltinFacts` | properties of the lambdas |
| `Evaluator` | `evaluate` |
| `EvalFacts` | properties of evaluation |

Where the written description of warplang and `main.rb` disagree, the model follows `main.rb`:

- **Integers.** They are unbounded (Ruby `Integer`), not 64-bit, so no overflow is modelled.
- **`list` and `++`.** They flatten only raw arrays (`Seq`). A nested List stays one element: `(list (list 1 2) 3)` has two elements (`BuiltinFacts.NestedListNotFlattened`).
- **Rebinding.** `bind` checks only the root table, with `exists?(ENV, …)`, not the extra frames. The check runs before the value is evaluated, so a `bind` of the same name nested in the value overwrites silently (`EvalFacts.NestedBindOverwrites`).
- **`head` and `tail`.** They give nil only when their argument is an array whose first element is not a List. An argument that is not an array (anything but a `quote` result) raises `NoMethodError`, and so does `tail` of a quoted empty List (`BuiltinFacts.TailOfQuoted`).
- **Closures.** There are no closures, `join` or parameter frames. `evaluate` never calls `add_frame`.
- **Empty products.** `(*)` is `0`, because the fold starts from `nil.to_i`.
- **`<` and `>` on words.** They compare Strings and Symbols by character code. Comparing an Integer with a Symbol raises (`Incomparable`), while `=` between them is `"false"`.

## Model

| member | source | states |
|---|---|---|
| Numerals.Digits | main.rb:97-99 | the decimal digits of a natural number are all digits and start with `0` only for zero |
| Numerals.Decimal | main.rb:97-99 | `Integer#to_s` is non-empty and holds only digits after an optional leading `-` |
| Numerals.LeadingDigits | main.rb:342-344 | the digit prefix `to_i` reads is maximal: all digits, followed by a non-digit or the end |
| Numerals.FixnumIsCanonical | main.rb:342-344 | `is_fixnum?` holds exactly for the tokens `Integer#to_s` can produce |
| Numerals.FixnumRoundTrip | main.rb:93-99 | `to_i` of `to_s` of any integer gives it back, and that text passes `is_fixnum?` |
| Lexer.SkipSpace | main.rb:4 | the leading `\s*` is a run of spaces and what is left starts with a non-space |
| Lexer.Line | main.rb:4 | the trailing `(.*)` is the longest newline-free prefix, stopped by a newline if any |
| Lexer.LiteralEnd | main.rb:4 | a string literal found by the pattern ends just after a closing `"` |
| Lexer.RunLength | main.rb:4 | a bare run is the longest prefix with no delimiter of `[\s('"`,;)]` |
| Lexer.Scan | main.rb:4 | the rest after a token never holds a newline |
| Lexer.Next | main.rb:19-38 | `next_token` gives the scanned token and rest; an empty token ends input only when nothing follows, and fails (never returns) exactly when the token is empty and the rest is not |
| Lexer.LiteralEndBody | main.rb:4 | the inside of a found literal matches `(?:[\\].\|[^\\"])*` |
| Lexer.EmptyTokenCases | main.rb:4 | the token is empty exactly at end of input or at an unterminated `"` |
| Lexer.ScanProgress | main.rb:19-38 | a non-empty token makes the remaining input shorter |
| Lexer.UnterminatedFixedPoint | main.rb:29-33 | after an unterminated `"` the scan repeats itself forever, so `next_token` recurses without end |
| Lexer.EmptyTokenRest | main.rb:29-33 | after an empty token, the next rest is empty exactly when this one is |
| Lexer.ScanShape | main.rb:4 | each token is taken from the front of the input and is a marker (`,` only where `,@` does not match), a string literal, a comment running to the end of the line, or a maximal bare run; the rest is the remainder of the line |
| Lexer.ScanSplits | main.rb:4 | a newline-free line is spaces, then the token, then the rest, with nothing lost |
| Lexer.ScanSkipsSpace | main.rb:4 | leading whitespace does not change the scan |
| Lexer.ScanPunct | main.rb:4 | `(`, `)`, `'`, backtick, and `,` not followed by `@`, are one-character tokens |
| Lexer.ScanCommaAt | main.rb:4 | `,@` is tried before `,` and is the token whatever follows it |
| Lexer.ScanComment | main.rb:4 | a `;` comment is the whole rest of the line, leaving nothing to scan |
| Lexer.ScanRun | main.rb:4 | a bare run followed by a delimiter is a whole token |
| Lexer.ScanLiteral | main.rb:4 | a string literal with no quote or backslash inside is one whole token, whatever follows it |
| Lexer.InPort.constructor | main.rb:7-17 | a string port starts with the whole input as its rest |
| Lexer.InPort.NextToken | main.rb:19-38 | `next_token` returns the token of `Next` and keeps its rest, or never returns |
| Values.Flatten | main.rb:258-263 | the items of a List never include a raw array |
| Values.FlattenAppend | main.rb:258-263 | flattening distributes over concatenation |
| Values.FlattenNoSeq | main.rb:258-263 | items without raw arrays are kept as they are |
| Values.NewList | main.rb:258-263 | `List.new` stores its argument flattened at every depth |
| Values.Truth | main.rb:277-284 | `bool` is the Boolean's own text, `"false"` for the empty List, `"true"` for every other value, and raises NoMethodError for arrays, nil and lambdas |
| Values.CarCdrSplit | main.rb:286-292 | `car` followed by `cdr` gives back the items of a non-empty List; `cdr` of the empty List is nil |
| Values.TrimEnd | main.rb:265-275 | `strip` on the text after `(` removes exactly the trailing run of whitespace and NUL |
| Classify.StripQuotes | main.rb:169-176 | text with no quoted span is kept; a plain double-quoted literal loses its quotes |
| Classify.Atom | main.rb:67-81 | a token read as an atom is a Fixnum, Double, Boolean, Char, String or Symbol |
| Classify.PlainLiteralIsString | main.rb:354-356 | every plain double-quoted literal passes `is_string?` |
| Classify.PlainLiteralIsStr | main.rb:67-76 | a plain `"…"` literal that `is_bool?` and `is_char?` pass over reads as the String of its inside |
| Classify.InfixSymbolChar | main.rb:346-360 | a token containing a word that starts with a symbol character passes `is_symbol?` |
| Classify.CharHasWord | main.rb:350-360 | every `is_char?` token also passes `is_symbol?` |
| Classify.CharHasHash | main.rb:350-352 | every `is_char?` token contains `#` |
| Classify.NumeralLineHasDigit | main.rb:362-364 | a line matching the numeral pattern ends in a digit |
| Classify.DoubleHasDigit | main.rb:358-364 | an `is_double?` token has a digit and so passes `is_symbol?` |
| Classify.UnknownTypeExactly | main.rb:67-81 | reading raises "Type of value is unknown" exactly when the token is neither a string nor a symbol |
| Classify.FixnumTokens | main.rb:67-68 | a token read as an Integer is the canonical text of that Integer, and every such text is read back to it |
| Classify.DecimalHasDigit | main.rb:97-99 | `Integer#to_s` ends in a digit |
| Classify.DecimalShape | main.rb:97-99 | `Integer#to_s` has no `+`, no `.`, no `-0` and no leading zero |
| Classify.LeadingZeroIsDouble | main.rb:67-70 | a numeral with a leading zero is read as a Double |
| Classify.PlusSignIsDouble | main.rb:67-70 | a numeral with a `+` sign is read as a Double |
| Classify.NegativeZeroIsDouble | main.rb:67-70 | `-0` is read as a Double |
| Classify.FractionIsDouble | main.rb:69-70 | `a.b` with digits is read as a Double |
| Classify.BooleanByInfix | main.rb:71-72 | any digit-free token containing `true` or `false` is read as a Boolean |
| Classify.TrueStoryIsBoolean | main.rb:71-72 | the quoted text `"true story"` is read as a Boolean, not a String |
| Classify.DottedNameIsSymbol | main.rb:77-78 | a dotted name of letters is read as a Symbol |
| Classify.AbIsSymbol | main.rb:77-78 | `a.b` is read as a Symbol |
| Classify.QuasiquoteTokensUnknown | main.rb:79-80 | backtick, `,`, `,@` and the empty token have no type |
| Classify.NoTestMatches | main.rb:67-81 | a token made only of characters that are neither quotes nor symbol characters matches no `is_*?` test and has no type |
| Reader.ReadForm | main.rb:43-82 | `read_ahead` never returns a raw array, and it only consumes input |
| Reader.ReadSeq | main.rb:44-58 | the list loop returns a List and only consumes input |
| Reader.ReadMacro | main.rb:61-66 | the quote branch builds a List and only consumes input |
| Reader.ReadAhead | main.rb:43-82 | the method returns the value of `ReadForm` on the port's input and leaves the port at its rest |
| Reader.ReadList | main.rb:44-58 | the `while` loop over `next_token` returns the value of `ReadSeq` on the port's input and leaves the port at its rest |
| Reader.ReadQuoted | main.rb:61-66 | the quote branch returns the value of `ReadForm` on the macro token and leaves the port at its rest |
| Reader.Read | main.rb:84-87 | `read` on a fresh port is `ReadString` |
| RoundTrip.ReadSeqSkipsSpace | main.rb:44-58 | whitespace inside a list changes nothing |
| RoundTrip.ReadSeqEmpty | main.rb:49-50 | input that ends inside a list raises "Unbalanced parens" |
| RoundTrip.ReadSeqClose | main.rb:47-48 | `)` ends the list with the items read so far |
| RoundTrip.ReadSeqItem | main.rb:52-53 | any other token is read as an item and the loop continues after it |
| RoundTrip.ReadFormOpen | main.rb:44-58 | `(` starts the list loop |
| RoundTrip.ReadFormAtom | main.rb:67-81 | any other token is read as its atom without consuming input |
| RoundTrip.QuoteIsSymbol | main.rb:42 | `quote` is read as a Symbol |
| RoundTrip.ReadFormQuote | main.rb:62-66 | `'x` is read as the List `(quote x)`, and errors of `x` propagate |
| RoundTrip.QuoteAtom | main.rb:42 | the macro `'` stands for a name that reads as the Symbol `quote` |
| RoundTrip.ReadFormMacro | main.rb:61-66 | after a macro token, the next form is read and the macro's symbol is put before it; the next form's error is the error |
| RoundTrip.CloseFirstFails | main.rb:60-61 | input that starts with `)` raises "Unexpected )" |
| RoundTrip.QuoteReadsAsQuoteForm | main.rb:61-66 | reading `'` followed by a form gives the `quote` List around that form |
| RoundTrip.Text | main.rb:265-275 | the printed text of a printable value is non-empty, single-line and ends in a non-space |
| RoundTrip.Joined | main.rb:265-275 | the items of a list joined by spaces are single-line and end in a non-space |
| RoundTrip.TrimEndSpace | main.rb:265-275 | `strip` removes exactly the separator after the last item |
| RoundTrip.WriteText | main.rb:556-562 | `write` of a printable value is `Text` |
| RoundTrip.ItemsTextJoined | main.rb:265-275 | List#to_s writes each item followed by a space |
| RoundTrip.FixnumReadsBack | main.rb:67-68 | a written Integer reads back as itself and stops at the next delimiter |
| RoundTrip.SymbolReadsBack | main.rb:77-78 | a written plain name reads back as the same Symbol |
| RoundTrip.BooleanReadsBack | main.rb:147-156 | a written `true` or `false` reads back as the same Boolean |
| RoundTrip.StrReadsBack | main.rb:213-219 | a written non-empty plain String reads back as the same String, whatever follows it |
| RoundTrip.ReadText | main.rb:43-82 | every printable value reads back from its written text |
| RoundTrip.ListReadsBack | main.rb:44-58 | a written List reads back as the same List |
| RoundTrip.PrintableFlat | main.rb:258-263 | printable items are kept by `List.new` |
| RoundTrip.ReadSeqPrinted | main.rb:44-58 | a written item inside a list is read as that item |
| RoundTrip.ReadItems | main.rb:44-58 | written items inside a list are read as those items, in order |
| RoundTrip.ReadItemsOpen | main.rb:49-50 | written items with no closing `)` raise "Unbalanced parens" |
| RoundTrip.ReadWrite | main.rb:84-87 | `read(write(v)) == v` for Integers, the Booleans `true` and `false`, non-empty plain Strings, plain Symbols and Lists of them |
| RoundTrip.MissingCloseUnbalanced | main.rb:49-50 | a list with its `)` missing raises "Unbalanced parens" |
| Environment.FirstFrame | main.rb:319-326 | the extra-frame search gives the value of the first frame whose entry is not nil, and fails with "Cannot found var" only when no frame has one |
| Environment.FindIn | main.rb:313-327 | `find` prefers the table's own non-nil entry, then the frames; it succeeds exactly when some table has a non-nil entry, and never returns nil |
| Environment.FindAfterBinding | main.rb:334-336 | after `add_var(k, v)`, `find(k)` gives `v` unless `v` is nil |
| Environment.FindOtherAfterBinding | main.rb:334-336 | `add_var` does not change the lookup of any other name |
| Environment.FindAfterFrame | main.rb:329-332 | a frame added later is consulted only for names nothing before it binds |
| Environment.FirstFrameAppend | main.rb:319-326 | searching frames with one appended agrees with the search before unless it failed |
| Environment.EnvTable.constructor | main.rb:304-307 | `EnvTable.new(env)` holds `env` and no extra frames |
| Environment.EnvTable.Find | main.rb:313-327 | the `find` loop returns `FindIn` of the current table and frames |
| Environment.EnvTable.AddFrame | main.rb:329-332 | `add_frame` appends one frame and keeps the table |
| Environment.EnvTable.AddVar | main.rb:334-336 | `add_var` overwrites the one entry and keeps the frames |
| Environment.InitialFinds | main.rb:380-514 | every builtin lambda is found under its own name in the initial `ENV` |
| Environment.Register | main.rb:380-514 | the table built from a list of builtins binds each key only to the builtin named by it, and only builtins of the list |
| Environment.InitialOnlyBuiltins | main.rb:380-514 | the initial `ENV` binds nothing but the builtins, each under its name |
| Builtins.FlooredMod | main.rb:411-419 | Ruby `%` takes the sign of the divisor and satisfies `a == b * floor(a / b) + r` |
| Builtins.FlooredModUnique | main.rb:411-419 | that remainder is the only one in the divisor's range |
| Builtins.FoldNums | main.rb:383-419 | once a Float joins the fold the result is a Float; Float `%` raises ZeroDivisionError on an Integer 0 divisor and is left undecided for a Float divisor |
| Builtins.Arith | main.rb:383-419 | `+ * - %` return a Double when any argument is one, and an Integer otherwise, whenever they succeed |
| Builtins.LexTrichotomy | main.rb:421-431 | string `<` is a strict order: asymmetric, and total on distinct strings |
| Builtins.ChainPairs | main.rb:421-437 | a comparison holds exactly when it holds for every neighbouring pair, and fails only when some pair cannot be compared |
| Builtins.CompareAll | main.rb:421-437 | the pairwise comparison loop returns `Comparison` |
| Builtins.ItemSeqs | main.rb:439-448 | `map(&:val)` over Lists gives each List's items as an array |
| BuiltinFacts.Ints | main.rb:383-419 | the integers of the arguments, position by position |
| BuiltinFacts.FoldAdd | main.rb:383-391 | folding `+` over Integers adds their sum |
| BuiltinFacts.FoldSub | main.rb:400-409 | folding `-` over Integers subtracts their sum |
| BuiltinFacts.FoldMul | main.rb:392-398 | folding `*` over Integers multiplies by their product |
| BuiltinFacts.SumOfFixnums | main.rb:383-391 | `+` of Integers is their sum, and `0` with no arguments |
| BuiltinFacts.ProductOfFixnums | main.rb:392-398 | `*` of Integers is their product, and `0` with no arguments |
| BuiltinFacts.DifferenceOfFixnums | main.rb:400-409 | `-` of Integers subtracts all later arguments from the first |
| BuiltinFacts.OneArgumentUnchanged | main.rb:383-419 | every arithmetic lambda returns a single Integer argument unchanged |
| BuiltinFacts.FoldMod | main.rb:411-419 | the `%` fold fails exactly when some divisor is zero, and otherwise lies in the last divisor's range |
| BuiltinFacts.ModuloOfFixnums | main.rb:411-419 | `%` of Integers raises ZeroDivisionError exactly when a later argument is 0, otherwise gives an Integer in the last divisor's range |
| BuiltinFacts.FoldNumsTotal | main.rb:383-409 | `+ * -` never fail on numbers |
| BuiltinFacts.DoubleContagion | main.rb:383-409 | `+ * -` with a Double among numbers give a Double |
| BuiltinFacts.FloatModByIntegers | main.rb:411-412 | after a Float, `%` by Integers succeeds exactly when no divisor is 0, and otherwise raises ZeroDivisionError |
| BuiltinFacts.FloatModZero | main.rb:411-412 | `%` with a leading Double and a later Integer 0 raises ZeroDivisionError |
| BuiltinFacts.ModByDouble | main.rb:411-412 | `%` by a Double divisor is not decided, since the divisor's value is not kept |
| BuiltinFacts.StringRejected | main.rb:386-415 | `+ - %` with a String and no Double raise the type-mismatch error |
| BuiltinFacts.IncreasingCons | main.rb:421-425 | a sequence is increasing exactly when its first step rises and the rest is increasing |
| BuiltinFacts.DecreasingCons | main.rb:427-431 | the same for decreasing |
| BuiltinFacts.LessChain | main.rb:421-425 | the `<` chain over Integers says whether they strictly increase |
| BuiltinFacts.GreaterChain | main.rb:427-431 | the `>` chain over Integers says whether they strictly decrease |
| BuiltinFacts.LessMeansIncreasing | main.rb:421-425 | `(< …)` of Integers is `"true"` exactly when they strictly increase |
| BuiltinFacts.GreaterMeansDecreasing | main.rb:427-431 | `(> …)` of Integers is `"true"` exactly when they strictly decrease |
| BuiltinFacts.EqualMeansAllSame | main.rb:433-437 | `(= …)` of Integers is `"true"` exactly when all are equal |
| BuiltinFacts.ComparisonOfNeighbours | main.rb:421-437 | a comparison is the conjunction of its neighbouring pairs, and `"true"` with fewer than two arguments |
| BuiltinFacts.MixedComparison | main.rb:421-437 | an Integer and a Symbol cannot be ordered, and are not equal |
| BuiltinFacts.OpaqueComparison | main.rb:421-437 | a Float, String or List first in a pair is not compared: `<`, `>` and `=` give `Unmodelled` |
| BuiltinFacts.FlattenItemSeqs | main.rb:439-448 | flattening the item arrays of Lists concatenates their items |
| BuiltinFacts.NoSeqOfLists | main.rb:439-448 | flattening leaves Lists as they are |
| BuiltinFacts.ConcatOfLists | main.rb:439-448 | `++` of Lists is the List of all their items in order |
| BuiltinFacts.ConcatOfStrings | main.rb:439-448 | `++` of Strings is their concatenated text |
| BuiltinFacts.ConcatRefusesMixes | main.rb:439-448 | `++` raises "Can't concatenate" exactly when the arguments are neither all Lists nor all Strings |
| BuiltinFacts.ListKeepsArguments | main.rb:511-513 | `list` makes a List of its arguments as given |
| BuiltinFacts.NestedListNotFlattened | main.rb:511-513 | a List argument of `list` stays one element |
| BuiltinFacts.ConsOntoLists | main.rb:488-496 | `cons` onto Lists puts the head before all their items |
| BuiltinFacts.ConsOntoList | main.rb:488-496 | `cons` onto one List puts the head in front |
| BuiltinFacts.ConsOntoString | main.rb:488-496 | `cons` onto a String prepends the head's text |
| BuiltinFacts.HeadOfQuoted | main.rb:497-503 | `head` of a quoted List is its first item |
| BuiltinFacts.TailOfQuoted | main.rb:504-510 | `tail` of a quoted List is the List of its later items, and raises on the empty List |
| BuiltinFacts.ConsHeadTail | main.rb:488-510 | `cons` of `head` and `tail` rebuilds a non-empty List |
| BuiltinFacts.StrCastIsWrite | main.rb:468-474 | `str!` of a non-List is the String of its written text |
| BuiltinFacts.SymCastJoins | main.rb:476-482 | `sym!` of Symbols is the Symbol of their joined names |
| BuiltinFacts.NamesText | main.rb:476-482 | the texts of Symbols are their names, concatenated |
| BuiltinFacts.CastsRejectLists | main.rb:468-482 | `str!` and `sym!` raise on any List argument |
| BuiltinFacts.BoundOfSymbols | main.rb:464-466 | `bound?` of Symbols holds exactly when each has a non-nil root entry |
| BuiltinFacts.NewlineArity | main.rb:381-382 | `#:n` and `#:g` take no arguments and return nil |
| BuiltinFacts.KindTestOfOne | main.rb:450-461 | each kind test on one value answers whether it is of that class |
| BuiltinFacts.KindTestsOfAtom | main.rb:450-486 | on a value read from a token, `fixnum?`, `double?`, `bool?`, `str?` and `sym?` answer exactly which of the reader's ordered tests decided the token |
| Evaluator.Eval | main.rb:515-554 | evaluation keeps the frames and never removes a root name, and a form without `bind` leaves the environment unchanged |
| Evaluator.EvalBind | main.rb:525-538 | `bind` keeps the frames and never removes a root name |
| Evaluator.EvalIf | main.rb:539-545 | `if` changes the environment only through the branches it evaluates |
| Evaluator.EvalApply | main.rb:546-550 | an application changes the environment only through its arguments |
| Evaluator.EvalArgs | main.rb:548-549 | evaluating the arguments gives one value per argument and changes the environment only through `bind` |
| Evaluator.Evaluate | main.rb:515-554 | `evaluate` on an `EnvTable` returns the result of `Eval` and leaves the table `Eval` describes |
| Evaluator.EvaluateBind | main.rb:525-538 | the `bind` branch agrees with `EvalBind` |
| Evaluator.EvaluateIf | main.rb:539-545 | the `if` branch agrees with `EvalIf` |
| Evaluator.EvaluateApply | main.rb:546-550 | the application branch agrees with `EvalApply` |
| Evaluator.EvaluateArgs | main.rb:548-549 | the argument loop agrees with `EvalArgs` |
| EvalFacts.SelfEvaluating | main.rb:516-517 | numbers, Booleans and Strings evaluate to themselves |
| EvalFacts.QuoteGivesRest | main.rb:523-524 | `(quote …)` gives the raw array of what follows `quote` |
| EvalFacts.HeadOfQuote | main.rb:497-503 | `(head (quote l))` gives the first item of `l` |
| EvalFacts.BuiltinNames | main.rb:380-514 | each builtin name evaluates to its lambda at start-up |
| EvalFacts.BindRefusesBound | main.rb:533-534 | binding a name the root table holds raises "Var already bound" and changes nothing |
| EvalFacts.BindStores | main.rb:535-538 | a fresh `bind` stores the evaluated value and returns it, or the frame lookup when it is nil |
| EvalFacts.BindAddsOneEntry | main.rb:535-538 | a fresh `bind` adds its name and no other |
| EvalFacts.NestedBindOverwrites | main.rb:533-538 | `(bind x (bind x 1))` succeeds, so a nested bind of the same name is overwritten |
| EvalFacts.IfChoosesOneBranch | main.rb:539-545 | `if` evaluates exactly one branch, chosen by the test's `bool` |
| EvalFacts.IfTakesThenBranch | main.rb:539-545 | the else branch is taken exactly for the empty List and Booleans other than `true` |
| EvalFacts.UnboundCallEvaluatesNothing | main.rb:546-547 | an unknown function name fails before any argument is evaluated |
| EvalFacts.AddExample | main.rb:383-391 | `(+ 1 2)` evaluates to `3`, leaving the environment alone, wherever `+` names the builtin addition (as it does at start-up) |

## Left out

- The REPL (`repl`, main.rb:564-583) and the printing in `write`'s rescue (main.rb:559-560) are I/O and are not modelled. `write` is `to_s`.
- `require 'byebug'` and the file mode of `STDInport` (main.rb:8-10), which reads a file, are not modelled. Only string ports are.
- `#:n` and `#:g` print. The model keeps only their arity and their nil result.
- Floats: a `Double` is an opaque value. Its arithmetic and its `to_s` are not modelled. `Builtins.Arith` states only that the result is a Double.
- `Builtins.FoldNums`: `%` by a Float divisor gives `Unmodelled`, because whether the divisor is 0.0 (Ruby raises ZeroDivisionError) is not kept.
- Mixed-type Ruby coercions give `Unmodelled`. These are:
  - arithmetic on non-numbers that have a `val`;
  - `<` and `>` with a Float, String or List as an operand. Ruby compares a Float with a number by value. It raises NoMethodError when a String or List is on the left, because its `val` is an Array, which has no `<`, and ArgumentError when one is on the right;
  - `=` with a Float, String or List as an operand. Ruby compares Floats by value and a String's `Char` objects by identity, so `(= "a" "a")` is `"false"` while `(= "" "")` is `"true"`;
  - `to_s` of Floats and lambdas;
  - Strings, Lists or Doubles used as hash keys;
  - a List head in `cons` onto Strings.
- `Classify.StripQuotes`: quoted tokens other than plain `"…"` literals give `UnsupportedLiteral`. These are tokens with a backslash, a `'…'` span outside a `"…"` literal or several quoted spans, and any token with text outside its one quoted span, such as a `;` comment holding `"a"` (Ruby keeps the span's inside, giving the String `a`). The look-behind scan of `Char::STRING_REGEX` is not modelled.
- `Lexer.Next`: the endless recursion of `next_token` on an unterminated `"` is the error `NeverReturns`. Deep recursion that would exhaust Ruby's stack is not modelled.
- Error messages are reduced to `Error` constructors. The message text, including the unbound variable name in `find`, is not kept.
- `String` values hold their text rather than an Array of `Char` objects.
- Ruby object identity is not modelled. Where it decides a result, as in `=` on Strings and Lists, the model gives `Unmodelled` (see above). `=` on Integers, Booleans, Chars and Symbols compares their `val`s, as Ruby does.
- `RoundTrip.ReadWrite` is stated only for Integers, the Booleans `true` and `false`, non-empty plain Strings, plain Symbols and Lists of them. The other values are left out for these reasons:
  - an empty String is written as nothing;
  - a String whose quoted text contains `true`, `false` or a `#:` word reads back as a Boolean or a Char;
  - a String holding a double quote or a backslash is not covered, since the model reads such literals as `UnsupportedLiteral` (see `Classify.StripQuotes` above);
  - a Char loses its quotes;
  - a Boolean with any other text is written as nil;
  - nil is written as nothing;
  - Doubles, Arrays and lambdas have no modelled text.
- `Environment.EnvTable.AddFrame` is modelled, but `evaluate` never calls `add_frame`.
