# Cores e Fragrâncias stock app — a Dafny model

This project models the core of a small shop's stock application:

- **The store** (`utils/database.py`). The `produtos` and `users` tables are held in
  memory by the class `Store.Database`. Each SQL statement of `add_produto`,
  `update_produto`, `delete_produto`, `mark_produto_as_sold` and `add_user` is a
  method that updates the table in place. Each method is proved against a function
  on rows (`NewProduto`, `Updated`, `Removed`, `Sold`). The read-only queries are
  functions. `get_all_produtos` and `get_all_users` sort by insertion sort over a
  total preorder. `import_produtos_from_csv` is a loop over the rows already read
  from the file. The loop is proved against `Planned`, the list of rows the import
  appends.
- **The vocabularies** `MARCAS`, `ESTILOS` and `TIPOS` (`Vocabulary`). They are
  sequences, so the duplicate "Kits de tratamento" in `TIPOS` is kept. The module
  also proves which entries the chat's title-casing can ever produce.
- **The chatbot** (`pages/chat_comando.py`). `Chat.Respond` states what one
  message does. A message produces the next `chat_state`, a reply kind, and the
  store operation it triggers, if any. `Chat.ChatSession.Process` performs the
  message step by step on the session and on a `Database`, and is proved to do
  what `Respond` says. `Dates` models the `DD/MM/AAAA` parsing
  (`strptime("%d/%m/%Y")` with calendar validity) and `date.isoformat()`. `Text`
  models the Python string operations the chat uses: `strip`, `lower`, `title`,
  `split`, `int` and `str`.
- **The two read-only pages**. `Listing` models the option lists and the three
  chained filters of `pages/estoque_completo.py`. It also models the sold-out
  comprehension of `pages/produto_vendido.py`.

The modules follow the program: `Wrappers`, `Text`, `Sequences`, `Dates`,
`Vocabulary`, `Store`, `Listing`, `Chat`, and `ChatProperties`, which holds the
lemmas about whole messages.

### Behaviour as written

The model follows the code, including where the code departs from what its
messages and help text suggest:

- The name step accepts any text, including the empty one. It is stored
  title-cased (`BlankNameAccepted`).
- The quantity step accepts negative integers (`EveryIntegerIsAQuantity`,
  `NegativeQuantityAccepted`).
- A product whose stock is negative is reported as an unknown id, and the bot
  keeps waiting (`SellByStock`).
- `mark_produto_as_sold` has no lower bound, so stock can go below zero
  (`OversellGoesNegative`).
- `ORDER BY role DESC` lists every `staff` user before every `admin` user
  (`StaffListedBeforeAdmin`).
- Vocabulary entries with a lower-case word can never be chosen in the chat,
  because the chat compares the title case of the answer. Examples are
  "Corpo e Banho" and "Perfumaria masculina" (`LowercaseWordsNeverAccepted`,
  `CorpoEBanhoNeverStored`).
- `vender <x> <y>`, or any text starting with `vender` that does not split
  into two words, waits for an id. A two-word text such as `vendera 5` sells by
  its second word, whatever the first word is (`VenderTwoWords`,
  `VenderAsksForId`).
- The price step accepts any text `float` accepts, "nan" included, and the
  quantity step accepts integers of any size. `add_produto` then raises at the
  date step: a NaN price is bound as NULL and breaks `preco REAL NOT NULL`, and
  an integer outside 64 bits raises OverflowError. The chat reports the error,
  returns to the initial state and adds nothing (`NotANumberPriceAccepted`,
  `UnstorableDraftIsNeverAdded`). In the CSV import the same values make the
  INSERT raise, so the whole import fails (`AbortedRowFailsTheImport`).
- The fallback reply "Resposta não esperada" (`pages/chat_comando.py:215`) is
  unreachable, because `Step` is an enumeration of the nine steps the code
  assigns.

## Model

| member | source | states |
|---|---|---|
| Vocabulary.Canonical | pages/chat_comando.py:78-100 | an answer is accepted exactly when the title case of its lower-cased text is listed, and then what is stored is that title case, a listed entry that is its own title case |
| Vocabulary.NotTitleCasedNeverAccepted | pages/chat_comando.py:79 | an entry that is not its own title case is never the title case of any typed text |
| Vocabulary.LowercaseWordsNeverAccepted | utils/database.py:30-38 | "Corpo e Banho" and "Perfumaria masculina" are never the title case of any text |
| Vocabulary.MixedCaseBrand | utils/database.py:26 | "EudorA" is accepted as the brand "Eudora" |
| Vocabulary.LowerCaseAccentedBrand | utils/database.py:26 | "o boticário" is accepted as "O Boticário" (Latin-1 case mapping) |
| Text.ToLower | pages/chat_comando.py:46 | lower-casing a character keeps whether it has a case, and leaves no upper-case letter |
| Text.ToUpper | pages/chat_comando.py:58 | upper-casing a character keeps whether it has a case, and leaves no lower-case letter |
| Text.IsSpace | pages/chat_comando.py:46 | the characters Python's `isspace` accepts, which `strip()` and `split()` remove; the `Trim` and `Strip` lemmas below are stated with it |
| Text.TrimStart | pages/chat_comando.py:46 | the result is no longer than the input and does not start with whitespace |
| Text.TrimStartIsSuffix | pages/chat_comando.py:46 | what `lstrip` keeps is the end of the input |
| Text.TrimStartDropsSpaces | pages/chat_comando.py:46 | everything `lstrip` drops is whitespace |
| Text.TrimEnd | pages/chat_comando.py:46 | the result is no longer than the input and does not end with whitespace |
| Text.TrimEndIsPrefix | pages/chat_comando.py:46 | what `rstrip` keeps is the start of the input |
| Text.TrimEndDropsSpaces | pages/chat_comando.py:46 | everything `rstrip` drops is whitespace |
| Text.Strip | pages/chat_comando.py:46 | the stripped text neither starts nor ends with whitespace |
| Text.StripIsInfix | pages/chat_comando.py:46 | `strip` keeps one contiguous part of the text, starting where the leading whitespace ends |
| Text.StripUnspaced | pages/chat_comando.py:46 | text without whitespace at either end is its own `strip` |
| Text.Lower | pages/chat_comando.py:46 | `lower` maps each character by itself and keeps the length |
| Text.LowerUncased | pages/chat_comando.py:46 | text without upper-case letters is its own `lower` |
| Text.Title | pages/chat_comando.py:58 | `title` keeps the length |
| Text.TitleKeepsCasedness | pages/chat_comando.py:58 | each character of the title case has a case exactly when the original character does |
| Text.TitleIdempotent | pages/chat_comando.py:58 | title-casing twice is title-casing once |
| Text.TitleOfLower | pages/chat_comando.py:79 | lower-casing before `title` does not change the result |
| Text.TitleImageIsFixedPoints | pages/chat_comando.py:79 | a text is the title case of some lower-cased text exactly when it is its own title case |
| Text.TokenLength | pages/chat_comando.py:177 | the leading token ends at the first whitespace character |
| Text.Words | pages/chat_comando.py:177 | `split()`: the maximal runs of non-whitespace characters, in order; `WordsOfTwo` and `WordsAreTokens` state what it returns |
| Text.WordsOfTwo | pages/chat_comando.py:177 | two non-empty words joined by one space split into those two words |
| Text.WordsAreTokens | pages/chat_comando.py:177 | every word `split` returns is non-empty and holds no whitespace |
| Text.DigitOf | pages/chat_comando.py:72 | the value of a decimal digit is at most 9 |
| Text.ParseInt | pages/chat_comando.py:72 | `int()` in base 10: whitespace around an optional sign and digits with single underscores; `ParseIntNeedsADigit`, `ParseIntOfString` and `ParseIntRefusesFileSeparator` state what it accepts |
| Text.ParseIntNeedsADigit | pages/chat_comando.py:72 | any text `int` accepts contains a digit, so the empty text and a lone sign are refused |
| Text.StripIntSpace | utils/database.py:240-241 | what `int()` strips: no space, `\t`..`\r` or non-ASCII whitespace is left at either end, and every character kept comes from the text |
| Text.ParseIntRefusesFileSeparator | utils/database.py:240-241 | `int("\x1c5")` is a ValueError: U+001C is not whitespace to `int()` |
| Text.ParseIntRefusesFileSeparatorBeforeNoBreakSpace | utils/database.py:240-244 | `int("\x1c5\xa0")` is a ValueError too: U+001C is never skipped, even in a text with non-ASCII characters |
| Text.ParseIntSkipsNoBreakSpace | utils/database.py:240-241 | `int("5\xa0")` is 5: non-ASCII whitespace at the ends is skipped |
| Text.NatDigits | pages/chat_comando.py:72 | the decimal digits of a natural number, with no leading zero |
| Text.IntToString | pages/chat_comando.py:72 | `str(n)` holds only digits and a minus sign, and ends with a digit |
| Text.ParseIntOfString | pages/chat_comando.py:72 | `int(str(n)) == n` for every integer |
| Text.StrLeTotal | utils/database.py:128 | any two strings are ordered one way or the other |
| Text.StrLeAntisymmetric | utils/database.py:128 | strings ordered both ways are equal |
| Text.StrLeTransitive | utils/database.py:128 | the string order is transitive |
| Text.StrLtTotal | pages/estoque_completo.py:29 | two different strings are strictly ordered one way or the other |
| Text.StrLe | utils/database.py:128 | string order by code point, a prefix first; the lemmas above prove it a total order |
| Sequences.InsertBy | utils/database.py:128 | inserting into a sorted list keeps it sorted and adds exactly that element |
| Sequences.SortBy | utils/database.py:128 | sorting yields a sorted permutation of the input |
| Sequences.InsertDistinct | pages/estoque_completo.py:29 | adding a value to a strictly increasing list keeps it strictly increasing, and the list holds exactly the old values and the new one |
| Sequences.SortedDistinct | pages/estoque_completo.py:29 | `sorted(set(values))` is strictly increasing and holds exactly the values |
| Sequences.Filter | pages/estoque_completo.py:45 | a comprehension keeps exactly the elements that pass, in their order, and is no longer than its input |
| Sequences.FilterKeepsAll | pages/estoque_completo.py:43 | a condition every element meets keeps the whole list |
| Sequences.FilterKeepsSorted | pages/produto_vendido.py:22 | filtering a sorted list leaves it sorted |
| Sequences.FilterSameCondition | pages/estoque_completo.py:45 | two conditions that agree on every element filter alike |
| Sequences.FilterTwice | pages/estoque_completo.py:44-49 | filtering twice is filtering once by the conjunction |
| Dates.DaysInMonth | pages/chat_comando.py:106 | every month has 28 to 31 days, and February has 29 exactly in leap years |
| Dates.IsValidDate | pages/chat_comando.py:106 | what `date()` accepts: a year from 1 to 9999, a month from 1 to 12 and a day within that month; `LeapDay` and `ParseOfPaddedFields` are stated with it |
| Dates.DayField | pages/chat_comando.py:106 | `%d` reads a day from 1 to 31 |
| Dates.MonthField | pages/chat_comando.py:106 | `%m` reads a month from 1 to 12 |
| Dates.YearField | pages/chat_comando.py:106 | `%Y` reads a year from 0 to 9999 |
| Dates.IndexOf | pages/chat_comando.py:106 | finds the first occurrence of a separator |
| Dates.ParseDayMonthYear | pages/chat_comando.py:106 | every date the parser returns exists in the calendar |
| Dates.DigitChar | pages/chat_comando.py:107 | the digit character of a value from 0 to 9 reads back as that value |
| Dates.Pad2 | pages/chat_comando.py:107 | two digits that read back as the number |
| Dates.Pad4 | pages/chat_comando.py:107 | four digits that `%Y` reads back as the year |
| Dates.IsoFormat | pages/chat_comando.py:107 | `isoformat` is ten characters with dashes at positions 4 and 7 |
| Dates.DayMonthYear | pages/chat_comando.py:106 | the typed form of a date is ten characters |
| Dates.ParseOfPaddedFields | pages/chat_comando.py:106 | zero-padded fields are read back as written, and the date is accepted exactly when it exists |
| Dates.ParseDayMonthYearOfFormatted | pages/chat_comando.py:106 | every real date typed as `DD/MM/AAAA` is accepted and read back unchanged |
| Dates.IsoFormatInjective | pages/chat_comando.py:107 | different dates have different ISO texts |
| Dates.LeapDay | pages/chat_comando.py:106 | `29/02/AAAA` is accepted exactly in leap years, and year 0 is refused |
| Dates.UnpaddedFields | pages/chat_comando.py:106 | `1/2/2024` is 1 February 2024 |
| Dates.NoThirtyFirstOfApril | pages/chat_comando.py:106-109 | `31/04/2024` is refused |
| Dates.IsoTextRefused | pages/chat_comando.py:106-109 | `2024-02-01` is refused |
| Store.NewProduto | utils/database.py:79-93 | a new row has the given columns, `vendido` 0 and no sale date |
| Store.IsInteger64 | utils/database.py:84 | the range of SQLite's 64-bit `INTEGER`, outside which binding raises OverflowError |
| Store.Storable | utils/database.py:80-84 | the columns can be written: the price is not NaN and the quantity fits in 64 bits; `AddProduto` succeeds exactly then |
| Store.FindProduto | utils/database.py:133-139 | finds a row with that id, or none exactly when no row has it |
| Sequences.FindBy | utils/database.py:133-139 | the element found has the key, and none is found exactly when no element has it |
| Store.FindProdutoWithUniqueIds | utils/database.py:81 | with increasing ids, looking up a row's id finds that row |
| Store.Updated | utils/database.py:141-152 | only the eight editable columns of the rows with that id change; ids, `vendido`, sale dates and other rows stay |
| Store.Removed | utils/database.py:165 | exactly the rows without that id remain, in their order |
| Store.Sold | utils/database.py:169-177 | the row with that id loses `quantity_sold` units, gets `vendido` 1 and the sale time; other rows stay |
| Store.UpdatedUnknownId | utils/database.py:141-152 | an update of an unknown id changes nothing |
| Store.RemovedUnknownId | utils/database.py:154-167 | a deletion of an unknown id changes nothing |
| Store.SoldUnknownId | utils/database.py:169-177 | a sale of an unknown id changes nothing |
| Store.OversellGoesNegative | utils/database.py:173 | selling a product with no stock leaves its quantity at -1 |
| Store.SoldFlagIsSticky | utils/database.py:115-177 | no insert, update, delete or sale resets `vendido` from 1 to 0 on a row still present |
| Store.NomeLeIsTotalPreorder | utils/database.py:128 | ordering by `nome` is total and transitive |
| Store.RoleDescUsernameLeIsTotalPreorder | utils/database.py:208 | ordering by role descending, then username, is total and transitive |
| Store.ListByNome | utils/database.py:125-131 | every row exactly once, names ascending |
| Store.ListUsers | utils/database.py:204-211 | every user exactly once, by role descending, then username ascending |
| Store.StaffListedBeforeAdmin | utils/database.py:208 | every `staff` user is listed before every `admin` user |
| Store.FindUser | utils/database.py:195-202 | finds a user with that name, or none exactly when nobody has it |
| Store.ParseRow | utils/database.py:236-257 | the three numbers are converted in order and the first failure decides: a ValueError skips the row, a missing field aborts the import; a row is inserted exactly when all three convert, `nome` is present, the price is not NaN and both integers fit in 64 bits, and it then carries the converted numbers and the file's other columns |
| Store.FloatCell | utils/database.py:239 | `float(row.get(c, 0))`: 0.0 for a missing column, a TypeError for a short line, a ValueError for a bad text |
| Store.IntCell | utils/database.py:240-241 | `int(row.get(c, 0))`: 0 for a missing column, a TypeError for a short line, a ValueError for a bad text |
| Store.Get | utils/database.py:253-255 | `row.get(c)`: the text of the column, or None |
| Store.Planned | utils/database.py:236-257 | the rows the import appends, or None when a row raises; `PlannedShape` and the lemmas below state what it is, and `ImportProdutosFromCsv` is proved against it |
| Store.PlannedShape | utils/database.py:236-259 | the import succeeds exactly when no row raises an uncaught error; it then appends at most one row per line, with consecutive ids |
| Store.SkippedRowLeavesNoTrace | utils/database.py:242-244 | a row with a non-numeric field contributes nothing, wherever it stands |
| Store.AbortedRowFailsTheImport | utils/database.py:236-257 | a row whose conversion or INSERT raises makes the whole import fail, wherever it stands |
| Store.NotANumberPriceNeverInserted | utils/database.py:239-257 | a price that reads as NaN is never inserted |
| Store.IdColumnIgnored | utils/database.py:246-256 | two files that differ only in their `id` column import the same rows |
| Store.NonNumericQuantitySkipped | utils/database.py:240-244 | a quantity of "abc" skips the row |
| Store.RemovedKeepsIds | utils/database.py:165 | deleting keeps the ids increasing and within the sequence |
| Store.Database.constructor | utils/database.py:73-105 | a new database has empty tables and sequence counters at 0 |
| Store.Database.AddProduto | utils/database.py:115-123 | succeeds exactly when the values can be written; then exactly one row is appended, with an id larger than every id issued before; otherwise nothing changes |
| Store.Database.GetAllProdutos | utils/database.py:125-131 | every row exactly once, names ascending |
| Store.Database.GetProdutoById | utils/database.py:133-139 | the row with that id, or none exactly when no row has it |
| Store.Database.UpdateProduto | utils/database.py:141-152 | fails exactly when the quantity is outside 64 bits, or the price is NaN and a row has that id; otherwise the table becomes `Updated`; the sold flags and all ids stay |
| Store.Database.DeleteProduto | utils/database.py:154-167 | the table becomes `Removed`; the photo file to delete is returned exactly when the row had a non-empty one |
| Store.Database.MarkProdutoAsSold | utils/database.py:169-177 | the table becomes `Sold`, with no lower bound on the quantity |
| Store.Database.AddUser | utils/database.py:183-193 | the user is stored with the digest of the password, exactly when the name is not taken; a taken name changes nothing |
| Store.Database.GetUser | utils/database.py:195-202 | the user with that name, or none exactly when nobody has it |
| Store.Database.GetAllUsers | utils/database.py:204-211 | every user exactly once, by role descending, then username ascending |
| Store.Database.InsertImported | utils/database.py:247-257 | one imported row is appended with the next AUTOINCREMENT id |
| Store.Database.ImportRow | utils/database.py:236-257 | one loop iteration follows the planned import: skip, insert, or abort |
| Store.Database.ImportProdutosFromCsv | utils/database.py:229-259 | the table gains exactly the planned rows, in file order, or stays as it was when a row raises |
| Listing.PresentValues | pages/estoque_completo.py:29-31 | exactly the non-empty values of the column |
| Listing.Options | pages/estoque_completo.py:29-31 | the options are strictly increasing and are exactly the non-empty values present |
| Listing.FilterBy | pages/estoque_completo.py:44-49 | one selectbox keeps exactly the rows that pass it |
| Listing.Filtered | pages/estoque_completo.py:43-52 | the page keeps exactly the rows that pass all three selectboxes; the count shown is at most the listing's length |
| Listing.FilteredIsOneFilter | pages/estoque_completo.py:43-49 | the three chained comprehensions are one filter by the conjunction |
| Listing.FilteredKeepsNameOrder | pages/estoque_completo.py:43-49 | the filtered rows keep the name order of `get_all_produtos` |
| Listing.OfferedMarcaIsNonEmpty | pages/estoque_completo.py:29-45 | choosing an offered brand never gives an empty page |
| Listing.NoFilterShowsAll | pages/estoque_completo.py:43 | with every selectbox on "Todas"/"Todos" the page shows the whole listing |
| Listing.SoldOut | pages/produto_vendido.py:22 | exactly the rows with `vendido` 1 and quantity 0 |
| Listing.SoldOutKeepsNameOrder | pages/produto_vendido.py:22 | the sold-out rows are in name order |
| Listing.SellingLastUnitListsIt | pages/produto_vendido.py:22 | selling the last unit puts the product on the page |
| Listing.OversoldIsNotListed | pages/produto_vendido.py:22 | a product oversold below zero is not on the page |
| Listing.RestockedIsNotListed | pages/produto_vendido.py:22 | restocking takes a product off the page, although it stays flagged as sold |
| Listing.NeverSoldIsNotListed | pages/produto_vendido.py:22 | a product never sold is never on the page |
| Chat.InitialFits | pages/chat_comando.py:39-40 | the initial state is idle with no answers, which meets the session invariant |
| Chat.Collected | pages/chat_comando.py:57-100 | each step has at most six answers collected |
| Chat.NextAddStep | pages/chat_comando.py:57-119 | each step of the add flow collects one more answer than the last; after the date the flow is over |
| Chat.DraftDetails | pages/chat_comando.py:113-117 | the inserted row has the collected answers, no photo, and the date given |
| Chat.Fits | pages/chat_comando.py:55-100 | the session invariant: the answers held are exactly those of the steps passed, and the brand, style and type held are listed; every operation's contract keeps it |
| Chat.StartsWith | pages/chat_comando.py:176 | `str.startswith`; `IdleCommand` states that only `adicionar produto` and texts starting with `vender` change the state |
| Chat.Validade | pages/chat_comando.py:103-109 | "nao" is no date, a real `DD/MM/AAAA` date is its ISO text, anything else is refused; `AnswerValidade` is stated with it |
| Chat.CommaToDot | pages/chat_comando.py:64 | commas become dots and nothing else changes |
| Chat.WithMarca | pages/chat_comando.py:201 | keeps exactly the rows of that brand, in order |
| Chat.SellStep | pages/chat_comando.py:130-156 | the sell step keeps the invariant, and a sale returns to the initial state |
| Chat.SellId | pages/chat_comando.py:132-154 | a sale is of that id, of a product in stock, and ends the operation; an unknown id keeps the state |
| Chat.AnswerNome | pages/chat_comando.py:57-60 | any text is taken title-cased, and the flow moves to the price |
| Chat.AnswerPreco | pages/chat_comando.py:62-68 | the state changes exactly when `float` accepts the text with commas as dots, and then stores that price |
| Chat.AnswerQuantidade | pages/chat_comando.py:70-76 | the state changes exactly when `int` accepts the text, and then stores that integer |
| Chat.AnswerMarca | pages/chat_comando.py:78-84 | the state changes exactly when the title case is in `MARCAS`, and then stores it |
| Chat.AnswerEstilo | pages/chat_comando.py:86-92 | the state changes exactly when the title case is in `ESTILOS`, and then stores it |
| Chat.AnswerTipo | pages/chat_comando.py:94-100 | the state changes exactly when the title case is in `TIPOS`, and then stores it |
| Chat.AnswerValidade | pages/chat_comando.py:102-127 | anything but "nao" or a real date is refused and changes nothing; otherwise the flow returns to the initial state and adds exactly one product with the answers when they can be written, and reports the error and adds nothing when they cannot |
| Chat.AddStep | pages/chat_comando.py:57-127 | each answer keeps the state or moves to the next step, keeping the answers already given |
| Chat.BusyAnswer | pages/chat_comando.py:49-156 | only the date step adds and only the sell step sells, and both end in the initial state |
| Chat.BusyRespond | pages/chat_comando.py:46-156 | the same, on the raw text |
| Chat.IdleCommand | pages/chat_comando.py:160-212 | idle commands never add a product; anything but `adicionar produto` and `vender…` changes neither the state nor the store |
| Chat.Respond | pages/chat_comando.py:45-215 | every message keeps the session invariant; an insertion happens only at the date step, and an insertion or sale ends in the initial state |
| Chat.ChatSession.constructor | pages/chat_comando.py:39-40 | a new session is in the initial state |
| Chat.ChatSession.Process | pages/chat_comando.py:45-215 | the session and the database change exactly as `Respond` says |
| Chat.ChatSession.ProcessCommand | pages/chat_comando.py:160-212 | the idle commands change the session and the database as `IdleCommand` says |
| Chat.ChatSession.ProcessBusy | pages/chat_comando.py:46-156 | a busy step changes the session and the database as `BusyRespond` says |
| Chat.ChatSession.ProcessAnswer | pages/chat_comando.py:49-156 | the same, on the stripped text |
| Chat.ChatSession.ProcessField | pages/chat_comando.py:57-100 | the steps before the date update the session as `AddStep` says |
| Chat.ChatSession.ProcessValidade | pages/chat_comando.py:102-127 | the date step calls `add_produto` and its session, table and reply are what `AnswerValidade` says, the failed insert included |
| Chat.ChatSession.ProcessSell | pages/chat_comando.py:130-156 | the sell step changes the session and the database as `SellStep` says |
| Chat.ChatSession.SellProduto | pages/chat_comando.py:133-154 | the sale of one unit changes the session and the database as `SellId` says |
| ChatProperties.CancelAlwaysWins | pages/chat_comando.py:46-53 | "cancelar" in any case, with any surrounding spaces, resets a busy session to the initial state, and changes nothing when idle |
| ChatProperties.AddFlowInOrder | pages/chat_comando.py:57-127 | a message in the add flow is refused, moves to the next step keeping the answers, or returns to the initial state |
| ChatProperties.BlankNameAccepted | pages/chat_comando.py:57-60 | a blank name is stored as the empty text |
| ChatProperties.EveryIntegerIsAQuantity | pages/chat_comando.py:70-74 | the text of any integer, negatives included, is stored as the quantity |
| ChatProperties.QuantityOfIntegerText | pages/chat_comando.py:70-74 | the quantity step stores the integer of `str(n)` and asks for the brand |
| ChatProperties.NegativeQuantityAccepted | pages/chat_comando.py:72 | "-3" is stored as the quantity -3 |
| ChatProperties.CorpoEBanhoNeverStored | pages/chat_comando.py:86-92 | no answer to the style step ever stores "Corpo e Banho" |
| ChatProperties.DateCompletesTheFlow | pages/chat_comando.py:102-127 | a real date typed as `DD/MM/AAAA` returns to the initial state; it adds the product with that date in ISO form, without a photo, when its values can be written, and otherwise reports the error and adds nothing |
| ChatProperties.NaoCompletesWithoutDate | pages/chat_comando.py:103-127 | "nao" returns to the initial state; it adds the product without a date when its values can be written, and otherwise reports the error and adds nothing |
| ChatProperties.NotANumberPriceAccepted | pages/chat_comando.py:62-66 | "nan" passes the price step: NaN is stored and the bot asks for the quantity |
| ChatProperties.UnstorableDraftIsNeverAdded | pages/chat_comando.py:102-127 | with a NaN price or a quantity outside 64 bits, no answer to the date step adds a product: it keeps waiting, cancels, or ends with the error |
| ChatProperties.SellByStock | pages/chat_comando.py:136-154 | in stock: one unit is sold and the remaining stock is reported; at zero: nothing is sold and the operation ends; negative: reported as not found |
| ChatProperties.SellAnswerReadsTheId | pages/chat_comando.py:132 | while waiting for an id, the text of an integer sells by that id |
| ChatProperties.NonNumericIdKeepsWaiting | pages/chat_comando.py:155-156 | "abc" is refused and the bot keeps waiting |
| ChatProperties.VenderTwoWords | pages/chat_comando.py:176-181 | an idle text starting with `vender` with two words answers its second word in the sell step |
| ChatProperties.VenderAsksForId | pages/chat_comando.py:182-186 | any other text starting with `vender` waits for an id with nothing collected |
| ChatProperties.VenderWithId | pages/chat_comando.py:176-181 | `vender <n>` in the initial state sells by the id `n` at once |
| ChatProperties.VenderUnknownIdWaits | pages/chat_comando.py:176-181 | `vender <n>` for an unknown id leaves the bot waiting for an id |
| ChatProperties.VenderCancelar | pages/chat_comando.py:176-181 | `vender cancelar` enters the sell step and cancels it in the same message |
| ChatProperties.EstoqueMarcaListsTheBrand | pages/chat_comando.py:198-209 | `estoque <m>` changes nothing and lists, in name order, exactly the products of the brand `title(strip(m))` |

## Left out

- The Streamlit interface is not part of this model: page layout, `chat_history` and the Portuguese texts of the replies. Replies are kinds; the listings they carry are kept.
- SQLite, connections and commits are not modelled. The tables are sequences in id order, and `sqlite_sequence` is a counter.
- `ORDER BY` leaves the order of equal names to SQLite. The model sorts them stably; the contracts state only sortedness and permutation.
- Files are not modelled: reading the CSV file (the import takes the rows as `csv.DictReader` yields them), `export_produtos_to_csv`, `generate_stock_pdf` and the removal of the photo file. `DeleteProduto` returns the name of the file the source would remove.
- `hash_password` (SHA-256) is the `digest` function given to `Database`.
- `float()` on a text is the parameter `parseFloat`, which gives a `Float`: a number, or NaN. Only the rewrite of commas to dots is explicit. Infinities are left to the parameter, as some `real`: SQLite stores them as REAL, so only the stored value is abstract.
- `datetime.now()` is the parameter `now` of the sale.
- The text of the exception shown by the chat's error reply (`pages/chat_comando.py:127`) is not kept; the reply is `AddFailed`. Failures of the database file itself (locked, unwritable) are not modelled.
- Chat.SellId: states only one direction of the in-stock case. Ids are unique only in a table whose ids increase, so the converse is `ChatProperties.SellByStock`, which requires that.
- Text.ParseInt: models `int()` on ASCII digits, a sign, surrounding whitespace and single underscores between digits. The whitespace follows CPython: space, `\t`..`\r` and every `isspace` character above U+007F are skipped, while U+001C..U+001F are not. Unicode decimal digits, which CPython reads as their ASCII values, and the limit on the number of digits are left out; the model refuses a text holding such digits.
- Dates.DayField: `%d` is `3[01]|[12]\d|0[1-9]|[1-9]| [1-9]`, and Python's `\d` matches any Unicode decimal digit ("1٥/01/2024" is day 15 there). The model reads ASCII digits only and refuses such a date.
- Dates.YearField: `%Y` is `\d\d\d\d` over Unicode decimal digits ("01/01/２０２４" is 2024 there). The model reads ASCII digits only and refuses such a year. `%m` uses ASCII ranges, so `Dates.MonthField` agrees.
- Text.Title and Text.Lower: the case mapping covers exactly A..Z and a..z, and U+00C0..U+00DE and U+00E0..U+00FE without U+00D7 and U+00F7, each letter paired with the one 32 code points away. Every other character is treated as uncased, letters included: ß U+00DF, ÿ U+00FF, µ U+00B5, ª U+00AA, º U+00BA and all letters beyond Latin-1. `lower` and `title` leave such a letter unchanged, and `title` then starts a new word after it: "straße" becomes "StraßE" where Python gives "Straße", and "ŝa" becomes "ŝA" where Python gives "Ŝa". Python's mappings of ſ U+017F and the Kelvin sign U+212A to ASCII letters are not modelled either, so "ſkincare" is not recognised as "Skincare". Every vocabulary entry is written in the modelled alphabet.
- Integers are unbounded except where values are written: `Store.IsInteger64` bounds what `add_produto`, `update_produto` and the import bind. An id outside 64 bits given to `get_produto_by_id`, `update_produto`, `delete_produto` or `mark_produto_as_sold` raises OverflowError in the source; the model treats it as an unknown id. Overflow of `quantidade - ?` inside SQLite is not modelled.
- Two sessions selling the same product at once are not modelled; every message is processed alone.
- The pages `gerenciamento_produto.py` and `gerenciamento_administrativo.py` are not part of this model.
