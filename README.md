# picsou: verified model of the CSV codec, the database session and the account/user containers

picsou is a personal-finance application. A database holds users, and a user
holds budgets and accounts. An account holds payment methods, scheduled
operations and operations, each in a hash map keyed by identifier. This project
models three parts of it in Dafny and proves properties of the model.

- **The CSV codec** of `PicsouModelService` is in `csv.dfy`, module `Csv`.
  - `csv_load_ops` is a per-character tokenizer. Its state is a field buffer, a field index and an in-quotes flag. The columns are year, month, day, amount, budget, recipient, payment method, description. A conversion failure drops every operation read so far.
  - `csv_dump_ops` writes one line per operation.
  - Both are loops, and both are modelled as methods (`ScanLine`, `LoadWith`, `DumpWith`). Each method is proved equal to a recursive specification function (`ScanFrom`, `ScanLines`, `LoadOps`, `DumpText`), and lemmas state the codec's properties about those functions.
- **The database session** of `PicsouModelService` is in `session.dfy`, class `Session.ModelService`. It has three fields: the open database, its file name and the unsaved-changes flag. A ghost field `connected` records whether the database's `modified` signal is connected to `notify_ui`, the only route by which the flag is set after creation. File access and JSON (de)serialisation become boolean parameters that say whether each step succeeds.
- **The containers `Account` and `User`** are in `account.dfy` and `user.dfy`.
  - They are classes whose hash maps are `map<Id, T>` fields.
  - The mutators have `modifies this`, and their contracts give the whole new state.
  - `listing.dfy` holds the listings they share: the values of a hash map in the map's order, `std::sort` by name, and the names in list order.
  - `ledger.dfy` holds the value records (operation, scheduled operation, payment method, budget, date) and fresh identifiers.

Modelling choices:
- **Numbers and identifiers.**
  - Identifiers are natural numbers. A new object gets an identifier its map does not use yet, which stands in for `QUuid::createUuid`.
  - Amounts are integers.
  - `QString::toInt`, `QString::toDouble` and `Operation::amount_str` are parameters: the `Parsers` record, and `amountStr`.
  - `QString::number` on an `int` is defined in full.
- **C++ semantics.**
  - `QByteArray::trimmed` strips the characters `isspace` accepts.
  - `QIODevice::readLine` keeps the `'\n'` that ends each line.
  - `QString::operator<` is modelled as the lexicographic order on characters, where a character is a Unicode scalar value (see `Listing.NameLess` under "Left out").
- **The quoted comma.** Inside quotes, the loader does not treat a `','` as a separator: the `case ','` branch only does something when `!instr`, and a `'"'` only flips the quote flag. Under the one-character reading of line 346, neither character is ever copied, and `Csv.LoadedFieldsClean` proves that no loaded text field holds a `','` or a `'"'`. Under the code as written, a plain character appends the rest of the line, quoted commas and quotes included, but then no operation is produced at all from a file without a NUL byte (`Csv.AsWrittenLoadsNothing`).
- **The buffer carries across lines.** `buffer` is cleared only by an unquoted `','`, so what follows the last separator of a line begins the first field of the next line. `Csv.CarryOver` states this under the one-character reading.
- **The two loader rules.** `buffer.append(c)` at app/picsoumodelservice.cpp:346 passes a `QByteArray::const_iterator`, which is a `const char*`. `QString::append(const char*)` appends the rest of the line, not one character. The loader is modelled both ways:
  - as written (`AppendRule.RestOfLine`, `Csv.CsvLoadOps`);
  - as evidently intended (`AppendRule.OneChar`, `Csv.CsvLoadOpsCorrected`).
- **The two dumper layouts.** `csv_dump_ops` writes seven separators per line, while the loader builds an operation only at the eighth. The dumper is modelled as written (`Layout.Unterminated`, `Csv.CsvDumpOps`) and with a `','` after the last field (`Layout.Terminated`, `Csv.CsvDumpOpsCorrected`).
- **The round-trip assumptions.**
  - `PlainAmounts`: the amount formatter writes neither `','` nor `'"'` nor `'\n'`. `Amount::to_str` is not part of this model; this is an assumption about it, which fails under a locale whose decimal point is `','`.
  - `SingleLine`: text fields hold no line break.
  - `Inverts`: `toInt` reads back `QString::number` of every number in the 32-bit range, and `toDouble` reads back every formatted amount. `QString::toInt` fails outside that range, so the round-trip lemmas also require each date's year, month and day to be 32-bit ints (`Dumpable`), as a `QDate` holds them.
  - `IntRejectsComma`: `toInt` rejects the empty string and any string with a `','`, as `QString::toInt` does.

## Model

| member | source | states |
|---|---|---|
| Ledger.FreshId | picsou/model/object/account.cpp:79-80 | a new object's identifier is not yet used by the map it goes into |
| Listing.NameLessIrreflexive | picsou/model/object/account.cpp:289-292 | no name is less than itself under QString's `<` |
| Listing.NameLessTransitive | picsou/model/object/account.cpp:289-292 | QString's `<` is transitive, so the comparator handed to std::sort is a strict order |
| Listing.NameLessTotal | picsou/model/object/account.cpp:289-292 | of two different names one is less than the other |
| Listing.KeysOf | picsou/model/object/account.cpp:296 | `values()` lists every entry of the hash map exactly once (a permutation of its keys), in an unspecified order |
| Listing.Elements | picsou/model/object/account.cpp:284 | `QSet::values()` lists exactly the set's members, each once |
| Listing.SortByName | picsou/model/object/account.cpp:297-299 | `std::sort` with the name comparator returns a permutation of its input in which names never decrease |
| Listing.NamesInOrder | picsou/model/object/account.cpp:307-309 | the names of a list of objects, one per object, in the same order; a list sorted by name gives names in non-decreasing order |
| Csv.TrimStart | app/picsoumodelservice.cpp:292 | `trimmed()` removes a prefix made only of whitespace and leaves a non-space first character |
| Csv.TrimEnd | app/picsoumodelservice.cpp:292 | `trimmed()` removes a suffix made only of whitespace and leaves a non-space last character |
| Csv.Trim | app/picsoumodelservice.cpp:292-293 | `trimmed()` leaves no whitespace at either end and no longer line, and gives the empty line, which the loop skips, exactly when the line is whitespace only |
| Csv.LineEnd | app/picsoumodelservice.cpp:292 | `readLine()` ends a line just after its first `'\n'`, or at the end of the file |
| Csv.Lines | app/picsoumodelservice.cpp:291-292 | definition: the lines `readLine()` returns until `atEnd()`, each ending just after a `'\n'` (`Csv.LineEnd`); specified by `Csv.LinesShape` |
| Csv.LinesShape | app/picsoumodelservice.cpp:291-292 | joined back, the lines are the file; none is empty, each but the last ends in `'\n'`, and no line holds a `'\n'` before its last character |
| Csv.LinesCons | app/picsoumodelservice.cpp:291-292 | a text that starts with a `'\n'`-ended line reads as that line followed by the lines of the rest |
| Csv.UpToNul | app/picsoumodelservice.cpp:346 | `QString::append(const char*)` copies the prefix of the string that ends just before its first NUL, and the whole string when there is none |
| Csv.Piece | app/picsoumodelservice.cpp:346 | what `buffer.append(c)` adds: a prefix of the rest of the line that starts with the character itself (unless it is a NUL); one character under the one-character reading |
| Csv.Record | app/picsoumodelservice.cpp:331-337 | the operation built at the eighth separator: unverified, dated `(y, m, d)`, with the parsed amount and the buffer as description |
| Csv.StoreField | app/picsoumodelservice.cpp:304-340 | the `switch (idx)` fails exactly when the year, month or day does not convert to an int or the amount does not convert to a number; it keeps the buffer, the index and the quote flag, and appends an operation exactly at index 7 |
| Csv.Step | app/picsoumodelservice.cpp:298-347 | one turn of the character loop: only an unquoted `','` can fail; the field index moves on exactly at an unquoted `','`; an operation is added only at the unquoted separator that ends field 7 |
| Csv.ScanFrom | app/picsoumodelservice.cpp:297-348 | definition: `Csv.Step` from a position to the end of a line, stopping at the first failure; specified by `Csv.ScanCounts` |
| Csv.ScanLines | app/picsoumodelservice.cpp:291-351 | definition: the line loop over trimmed lines, skipping blank ones, each restarting at index 0 with quotes off; specified by `Csv.OpsPerLine` and `Csv.ScanLinesAppend` |
| Csv.LoadOps | app/picsoumodelservice.cpp:280-362 | definition: the list csv_load_ops returns, that is the operations read from all lines, or none once a conversion failed; specified by `Csv.LoadedCount` and `Csv.FailureDropsEverything` |
| Csv.LoadedUnverified | app/picsoumodelservice.cpp:331-337 | under either append rule, no loaded operation is marked verified |
| Csv.ScanLine | app/picsoumodelservice.cpp:294-348 | the character loop over one trimmed line (restarting at index 0 with quotes off) computes `ScanFrom` |
| Csv.NextLine | app/picsoumodelservice.cpp:292-295 | one turn of the line loop: a blank trimmed line leaves the state as it is; any other line is scanned, and a failure ends the file |
| Csv.LoadWith | app/picsoumodelservice.cpp:291-361 | the line loop computes `LoadOps`: the operations of all lines, or none when any line failed |
| Csv.CsvLoadOps | app/picsoumodelservice.cpp:280-362 | csv_load_ops as written (the rest-of-line append) returns `LoadOps(RestOfLine, …)` |
| Csv.CsvLoadOpsCorrected | app/picsoumodelservice.cpp:280-362 | csv_load_ops with a one-character append returns `LoadOps(OneChar, …)` |
| Csv.ScanCounts | app/picsoumodelservice.cpp:297-343 | over a line, the field index grows by one per unquoted `','`, each `'"'` flips the quote flag, and exactly one operation is added when the index passes 7, with the earlier ones kept |
| Csv.OpsPerLine | app/picsoumodelservice.cpp:291-351 | a successful read adds one operation per non-blank line that has at least eight unquoted separators, and keeps the operations already read |
| Csv.LoadedCount | app/picsoumodelservice.cpp:291-361 | the result is empty, or it holds exactly one operation per line that has eight or more separators |
| Csv.ScanLinesAppend | app/picsoumodelservice.cpp:291-351 | reading two groups of lines one after the other is reading them joined |
| Csv.FailureDropsEverything | app/picsoumodelservice.cpp:354-359 | a failed conversion on any line empties the result, operations of earlier lines included |
| Csv.OneCharIsLocal | app/picsoumodelservice.cpp:297-347 | under the one-character append, each step depends on its own character only |
| Csv.Kept | app/picsoumodelservice.cpp:299-346 | under the one-character reading, the characters a field keeps: never a `'"'` or a `','`, and only characters of the input |
| Csv.FieldChars | app/picsoumodelservice.cpp:297-347 | under the one-character reading, characters without a field separator are appended to the buffer, except quotes and quoted commas, and flip the quote flag once per `'"'` |
| Csv.CarryOver | app/picsoumodelservice.cpp:289-295 | under the one-character reading, a line without a `','` adds no operation; its characters stay in the buffer at the head of the next line's first field |
| Csv.LoadedFieldsClean | app/picsoumodelservice.cpp:299-303 | under the one-character reading, no text field of any loaded operation contains a `'"'` or a `','` |
| Csv.IntFieldFails | app/picsoumodelservice.cpp:305-316 | with the rest-of-line append, the year, month or day reaches its separator with a `','` in the buffer (or an empty buffer), and `toInt` fails |
| Csv.SecondSeparatorFails | app/picsoumodelservice.cpp:309-311 | with the rest-of-line append, a line with two unquoted separators fails at the month at the latest |
| Csv.AsWrittenLoadsNothing | app/picsoumodelservice.cpp:346 | csv_load_ops as written returns an empty list for every file with no NUL byte |
| Csv.NatToString | app/picsoumodelservice.cpp:425-427 | `QString::number` of a natural number is a non-empty string of digits without a leading zero |
| Csv.NatToStringValue | app/picsoumodelservice.cpp:425-427 | those digits read back as the number |
| Csv.NumberToString | app/picsoumodelservice.cpp:425-427 | `QString::number` of an int starts with `'-'` exactly when it is negative; every other character is a digit |
| Csv.NumberToStringValue | app/picsoumodelservice.cpp:425-427 | the digits stand for the number's magnitude |
| Csv.Sanitize | app/picsoumodelservice.cpp:429-432 | `replace('"', '\'')` keeps the length and turns each `'"'` into `'\''`, leaving every other character, so no `'"'` remains |
| Csv.Quoted | app/picsoumodelservice.cpp:424-432 | a text argument as written: its sanitized text between two `'"'`, with no `'"'` inside |
| Csv.Join | app/picsoumodelservice.cpp:424 | definition: the eight arguments with a `','` between each two; specified by `Csv.JoinCount` |
| Csv.Line | app/picsoumodelservice.cpp:424-433 | the line of one operation: the joined fields, a `','` when terminated, and a final `'\n'` |
| Csv.DumpText | app/picsoumodelservice.cpp:423-434 | definition: the lines of the operations one after another, in list order; specified by `Csv.DumpTextSnoc` and `Csv.DumpLines` |
| Csv.DumpWith | app/picsoumodelservice.cpp:423-435 | the write loop writes `DumpText`, one line per operation in list order, and reports success whatever was written |
| Csv.CsvDumpOps | app/picsoumodelservice.cpp:420-438 | csv_dump_ops as written returns true and writes the unterminated lines |
| Csv.CsvDumpOpsCorrected | app/picsoumodelservice.cpp:420-438 | csv_dump_ops with a `','` after the description returns true and writes the terminated lines |
| Csv.DumpTextSnoc | app/picsoumodelservice.cpp:423-434 | writing one more operation appends exactly its line |
| Csv.FieldsNeutral | app/picsoumodelservice.cpp:424-432 | year, month, day and amount are unquoted and contain no separator, and each text field is a closed quote with no `'"'` inside |
| Csv.JoinCount | app/picsoumodelservice.cpp:424 | fields joined by `','` give one unquoted separator per gap and leave quotes closed |
| Csv.LineShape | app/picsoumodelservice.cpp:424 | each dumped line ends in its only `'\n'`, and trimmed it is the joined fields (followed by `','` when terminated) |
| Csv.DumpLines | app/picsoumodelservice.cpp:423-434 | the dumped text splits into exactly one line per operation, in order |
| Csv.DumpedFileLoadsNothing | app/picsoumodelservice.cpp:424 | a file written by csv_dump_ops loads as the empty list under either append rule, because every line has seven separators and an operation is built only at the eighth |
| Csv.StoreFields | app/picsoumodelservice.cpp:304-340 | for a date of 32-bit ints, the eight fields of a terminated line are stored into year, month, day, amount, budget, recipient, payment method and description, and exactly that operation is appended |
| Csv.ReloadLine | app/picsoumodelservice.cpp:297-348 | one terminated dumped line of an operation dated with 32-bit ints, read with the one-character append, adds its own operation and leaves the buffer empty |
| Csv.RoundTripTerminated | app/picsoumodelservice.cpp:424 | the corrected dump read by the corrected loader gives back every single-line operation dated with 32-bit ints, in order: unverified, with `'"'` turned into `'\''` and commas dropped from the text fields |
| Csv.RoundTripClean | app/picsoumodelservice.cpp:424 | for unverified operations dated with 32-bit ints whose texts hold no `'"'`, `','` or newline, the corrected load inverts the corrected dump exactly |
| Accounts.InsertAll | picsou/model/object/account.cpp:187-190 | the `for` loop of `QHash::insert` calls: every old key and every id of the batch is a key afterwards |
| Accounts.InsertAllKeys | picsou/model/object/account.cpp:187-190 | inserting a batch adds exactly the batch's keys |
| Accounts.InsertAllLast | picsou/model/object/account.cpp:187-190 | a key of the batch holds the operation of its last occurrence (QHash::insert replaces) |
| Accounts.InsertAllOthers | picsou/model/object/account.cpp:187-190 | keys outside the batch keep their operations |
| Accounts.Account.Empty | picsou/model/object/account.cpp:32-40 | an account built from a parent alone is empty, unarchived, with amount 0 and not valid |
| Accounts.Account.constructor | picsou/model/object/account.cpp:42-54 | the account takes the given name, notes, archived flag and initial amount, is valid and has empty maps |
| Accounts.Account.Update | picsou/model/object/account.cpp:56-66 | not guarded by the archived flag: overwrites the four attributes and leaves the maps |
| Accounts.Account.AddPaymentMethod | picsou/model/object/account.cpp:68-83 | succeeds exactly when the account is not archived and no payment method has the name; then inserts one method under a fresh id; errors say which guard failed; payment-method names stay distinct; nothing else changes |
| Accounts.Account.RemovePaymentMethod | picsou/model/object/account.cpp:85-104 | true exactly when not archived and the id was present; removes only that key; operations that name the method are untouched |
| Accounts.Account.AddScheduledOperation | picsou/model/object/account.cpp:106-130 | succeeds exactly when not archived, then inserts the one scheduled operation under a fresh id; nothing else changes |
| Accounts.Account.RemoveScheduledOperation | picsou/model/object/account.cpp:132-152 | true exactly when not archived and the id was present; removes only that key; the not-found and archived errors |
| Accounts.Account.AddOperation | picsou/model/object/account.cpp:154-178 | succeeds exactly when not archived, then inserts the one operation under a fresh id; nothing else changes |
| Accounts.Account.AddOperations | picsou/model/object/account.cpp:180-196 | when not archived, inserts every operation of the list in order; true exactly when not archived and the list is non-empty |
| Accounts.Account.RemoveOperation | picsou/model/object/account.cpp:198-218 | true exactly when not archived and the id was present; removes only that key; the not-found and archived errors |
| Accounts.Account.FindPaymentMethod | picsou/model/object/account.cpp:220-228 | the entry under the id, or none exactly when the id is absent |
| Accounts.Account.FindPaymentMethodByName | picsou/model/object/account.cpp:230-238 | a payment method with exactly that name, or none exactly when no method has it |
| Accounts.Account.FindScheduledOperation | picsou/model/object/account.cpp:240-248 | the entry under the id, or none exactly when the id is absent |
| Accounts.Account.FindOperation | picsou/model/object/account.cpp:250-258 | the entry under the id, or none exactly when the id is absent |
| Accounts.Account.MinYear | picsou/model/object/account.cpp:262-273 | the least year among operation dates and schedule start dates: a lower bound for all of them that one of them attains, or INT_MAX |
| Accounts.Account.Srcdst | picsou/model/object/account.cpp:275-285 | exactly the recipients of operations and scheduled operations, each once |
| Accounts.Account.PaymentMethods | picsou/model/object/account.cpp:294-301 | a permutation of the stored payment methods, sorted by name when asked |
| Accounts.Account.PaymentMethodsStr | picsou/model/object/account.cpp:303-311 | the names of `payment_methods(sorted)`, one per stored method, in its order, so in non-decreasing order when sorted |
| Users.User.Empty | picsou/model/object/user.cpp:26-30 | a user built from a parent alone has no name, no budget, no account and is not valid |
| Users.User.constructor | picsou/model/object/user.cpp:32-37 | the user takes the given name, is valid and has empty maps |
| Users.User.Update | picsou/model/object/user.cpp:39-56 | a rewrap is attempted exactly when both passwords are non-empty; a failed rewrap returns false with the name unchanged and the rewrap error; otherwise the name is set and it returns true |
| Users.User.AddBudget | picsou/model/object/user.cpp:58-69 | fails exactly when a budget has the name; otherwise inserts one budget under a fresh id; budget names stay distinct; accounts unchanged |
| Users.User.RemoveBudget | picsou/model/object/user.cpp:71-87 | true exactly when the id was present; removes only that key |
| Users.User.AddAccount | picsou/model/object/user.cpp:89-100 | fails exactly when an account has the name; otherwise inserts one new, valid, empty account with the given attributes under a fresh id; account names stay distinct; budgets unchanged |
| Users.User.RemoveAccount | picsou/model/object/user.cpp:102-118 | true exactly when the id was present; removes only that key |
| Users.User.Budgets | picsou/model/object/user.cpp:125-132 | a permutation of the stored budgets, sorted by name when asked |
| Users.User.BudgetsStr | picsou/model/object/user.cpp:134-142 | the names of `budgets(sorted)`, one per stored budget, in its order, so in non-decreasing order when sorted |
| Users.User.Accounts | picsou/model/object/user.cpp:149-156 | a permutation of the stored accounts, sorted by name when asked |
| Users.User.FindBudget | picsou/model/object/user.cpp:158-166 | the entry under the id, or none exactly when the id is absent |
| Users.User.FindBudgetByName | picsou/model/object/user.cpp:168-176 | a budget with exactly that name, or none exactly when no budget has it |
| Users.User.FindAccount | picsou/model/object/user.cpp:178-186 | the entry under the id, or none exactly when the id is absent |
| Users.User.FindAccountByName | picsou/model/object/user.cpp:188-196 | an account with exactly that name, or none exactly when no account has it |
| Session.ModelService.constructor | app/picsoumodelservice.cpp:27-34 | the service starts with no database, no file name and no unsaved changes |
| Session.ModelService.IsDbOpened | app/picsoumodelservice.cpp:159-162 | true exactly when a database is open |
| Session.ModelService.NewDb | app/picsoumodelservice.cpp:46-68 | fails without change when a database is open; otherwise installs the new database, sets the file name, marks the session modified and connects the database's `modified` signal to notify_ui |
| Session.ModelService.OpenDb | app/picsoumodelservice.cpp:70-105 | fails without change when a database is open, the file does not open or its text is not JSON; otherwise installs the database before reading it, so a rejected read fails with a database left open, the old file name and no connection to notify_ui; success sets the file name and makes that connection |
| Session.ModelService.SaveDbAs | app/picsoumodelservice.cpp:112-143 | succeeds exactly when a database is open, serialises, the file opens and every byte is written; then sets the file name and clears the modified flag; otherwise nothing changes |
| Session.ModelService.SaveDb | app/picsoumodelservice.cpp:107-110 | save_db_as under the current file name |
| Session.ModelService.CloseDb | app/picsoumodelservice.cpp:145-157 | false without change when nothing is open; otherwise clears the file name and the modified flag; no database is open and nothing is connected afterwards |
| Session.ModelService.NotifyUi | app/picsoumodelservice.cpp:218-222 | reached only through the connection made by a successful new_db or open_db; sets the modified flag and nothing else |
| Session.ModelService.Terminate | app/picsoumodelservice.cpp:41-44 | terminate (and the destructor) close whatever is open and leave no database, no file name and no connection |
| Session.RetryAfterRejectedRead | app/picsoumodelservice.cpp:92-100 | after a rejected read the open database is not connected to notify_ui, so its changes never mark the session modified; opening again and creating a new database both fail until close_db, after which opening succeeds |
| Session.NewSaveModify | app/picsoumodelservice.cpp:60-63 | a new database is unsaved; saving clears the flag; a notified change sets it again |

## Left out

- XML and JSON import and export (`xml_load_ops`, `json_load_ops`, `xml_dump_ops`, `json_dump_ops`): they are thin wrappers over Qt's XML and JSON readers, whose behaviour is not part of this model.
- The `load_ops` and `dump_ops` wrappers, `initialize`, and the service's `find_user` and `find_account`: they only open a file, dispatch on the format or forward to the database.
- File access: `QFile` opening, reading and writing, `QJsonDocument::fromJson`, `PicsouDB::read` and `PicsouDB::write` become the boolean parameters of the session methods. The CSV codec works on the file's text as a string.
- Bytes and encodings: text is `seq<char>`. The UTF-8 encoding of `toUtf8()` at app/picsoumodelservice.cpp:433, and the byte-to-QString conversion of the loader, are not modelled.
- Floating point: `Amount` is an integer. `toDouble` and `amount_str` are parameters, and the round-trip lemmas require that the parser reads back the formatted amount.
- QDate validity: a date is the raw year, month, day triple.
- Cryptography: `init_wkey` in the user constructor, and the rewrap in `User::update`, which is the boolean `rewrapOk`.
- JSON `read` and `write` of `Account` and `User`: they rely on macros that are not part of this model.
- Session.ModelService.NotifyUi: the `emit modified()` calls inside `Account` and `User` are not tied to it. In the source each change of an open, connected database reaches notify_ui through the signal chain. In the model, `NotifyUi` is a separate call that a caller makes after a change, so the model does not prove that every mutation marks the session modified. The `connect` calls of new_db and open_db (app/picsoumodelservice.cpp:63, :100) are modelled by `Session.ModelService.connected`, and `NotifyUi` requires it.
- Other Qt signals (`emit updated`), parent pointers and `set_parent` in `add_operations`: no modelled state depends on them.
- The database version constants `PICSOU_DB_MAJOR` / `PICSOU_DB_MINOR`, and the content of a created or loaded database: a `Session.Database` value records only how it was opened.
- Schedules: only the first day (`from`) is kept, since no other part of a schedule is read by the modelled code.
- `srcdst()` of an operation and of a scheduled operation is modelled as its recipient.
- Csv.LoadWith: the field index is a natural number. The 32-bit `int idx` of the source would overflow only after 2^31 separators on one line.
- Accounts.Account.RemoveScheduledOperation: the "doublons deleted" branch (QHash::remove returning more than 1) cannot happen, because a hash key occurs once, so it is not modelled. The same holds for RemoveOperation and the other removals.
- Accounts.Account.AddPaymentMethod: the maps hold value records, while the source stores shared pointers. `find_*` hands out the stored object itself, and that object can be renamed through its own handle (`update(name)`, declared at model/paymentmethod.h:15). Payment-method name uniqueness is therefore kept by the account's own methods only. Users.User.AddBudget keeps budget names distinct in the same limited sense: budgets are shared pointers too, and the `Budget` class is not part of this model.
- Listing.NameLess compares characters as Unicode scalar values, while `QString::operator<` compares UTF-16 code units. The two orders agree except when a character above U+FFFF is compared with one in U+E000 to U+FFFF; there they disagree, so sorting by name may order such names differently from the source.
- Csv.Record: the seven-argument `Operation` constructor called at app/picsoumodelservice.cpp:331 is not part of this model. The model assumes it builds an unverified operation, as `verified = false`.
- Users.User.AddAccount: account-name uniqueness is kept by the user's own adders only. `Accounts.Account.Update` can rename an account to a name another account of the same user has, as the source allows; the model does not claim otherwise.
- Listing.SortByName: std::sort is not stable, so the order among equal names is left open.
- Accounts.Account.Srcdst: the order of the recipients (QSet order) is left open.
- Accounts.Account.FindPaymentMethodByName: which of several same-named entries is found (hash order) is left open. The same holds for Users.User.FindBudgetByName and Users.User.FindAccountByName.
- Listing.KeysOf: the hash map's iteration order is left open.
- UI, dialogs, tree items, translations, the console service and the header-only records are outside this model.

## Findings

| source | as written | input that shows it | evidently intended | confidence | as-written member | corrected member |
|---|---|---|---|---|---|---|
| app/picsoumodelservice.cpp:346 | `buffer.append(c)` passes the iterator, a `const char*`, so the whole rest of the line (up to its NUL) is appended for each plain character | the line `2020,1,2,10,"b","r","p","d",`: the year buffer becomes `2020,1,2,…` plus the suffixes that follow, `toInt` fails, and the file loads as nothing | `buffer.append(*c)`, one character | not executed | Csv.AsWrittenLoadsNothing | Csv.RoundTripTerminated |
| app/picsoumodelservice.cpp:424 | the format string puts seven `','` between the eight fields and none after the last, while the loader stores the description and builds the operation only at an eighth `','` | any list of operations whose text fields hold no '\n' (`AllSingleLine`), dumped with an amount conversion that writes no quote, comma or '\n' (`PlainAmounts`): csv_dump_ops writes lines that csv_load_ops reads back as the empty list | a `','` after `"%7"`, as in `…,"%7",\n` | not executed | Csv.DumpedFileLoadsNothing | Csv.RoundTripClean |
