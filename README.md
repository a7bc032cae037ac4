# fb2me metadata layer in Dafny

This project models the in-memory metadata layer of fb2me, a desktop editor for the metadata of FictionBook (FB2) files, and the rules that present that layer in the book table:

- `Persons` covers an author description. It has name fields, a nickname and an identifier. It also has append-only lists of home pages and e-mail addresses, the validity rule, and the two full-name formatters.
- `FileRecords` covers one book's metadata. It holds setter and getter fields, plus append-only lists of genres with a match percentage, authors, and sequences (series) with a book number. The author list is projected to "Last First Middle" names.
- `FB2Records` covers the earlier, reduced record.
- `Table` covers the table model. Its record list only grows. The rest are pure views: the column count, item flags, header names, check states, the rules for accepting edits, and each cell's contents: the exact text of the six text cells and the size as a number.
- `Text` holds the string services the source takes from Qt. These are decimal text of integers (`QString::number`), joining a string list, and mapping over a list. Decimal text and joining each come with a reverse (parsing, splitting) and a round-trip lemma. Mapping has a pointwise contract instead.

## How the source is represented

- Objects whose methods change fields are classes: `Person`, `FileRecord`, `FB2Record` and `TableModel`. Each setter's frame (`modifies this`field`) names its own field only, so it cannot touch another one.
- The source keeps authors in a `QVector<Person>`, which stores copies. The table's record vector is never declared in the headers; it is taken to hold `FileRecord` copies (see "Where the code and the headers disagree"). So the model has value snapshots, `PersonData` and `RecordData`, taken with `Data()`. `AddAuthor` and `OnAppendRecord` store such a copy.
- `qint64` sizes are `Int64` and `int` genre matches and sequence numbers are `Int32`, both bounded subset types.
- `QVariant` is `Variant`, a value that is either absent, text or a number.
- The default arguments (src/filerecord.h:210, 290) are default parameter values, named `FullGenreMatch` (100) for `AddGenre` and `Unnumbered` (0) for `AddSequence`, so a caller may leave the argument out as in C++.
- Qt's `QString::arg` substitutes all placeholders at once. Every formatter is therefore plain concatenation with the separators fixed.

## Where the code and the headers disagree

The model follows the `.cpp` bodies:

- `TableModel::onAppendRecord` is declared with an `FB2Record`. Its other members, though, call `getEncoding`, `getAuthorList`, `getGenresList` and `getSequenceList`, and only `FileRecord` has those. `FileReader` also emits `FileRecord` values (src/filereader.cpp:74-85). So the table holds `FileRecord` snapshots.
- `FB2Record::addGenre` appends to a genre list that src/fb2record.h does not declare. The model gives `FB2Record` that list.
- src/person.h:204 declares the initial-letter accessor `const`. This changes nothing in a value model.
- fb2me's rename templates appear only as two settings keys (src/consts.h:61-68). No code for them is in the modelled files.

## Model

| member | source | states |
|---|---|---|
| `Persons.Person.constructor` | src/person.cpp:22-25 | A default person has every name, the nickname, the id and both lists empty |
| `Persons.Person.FromNames` | src/person.cpp:27-31 | Sets exactly the first and last name, all else empty; such a person is correct iff both names are non-empty |
| `Persons.Person.FromNickname` | src/person.cpp:33-36 | Sets exactly the nickname, all else empty; such a person is correct iff the nickname is non-empty |
| `Persons.IsCorrectWithoutNickname` | src/person.cpp:38-41 | Without a nickname, a person is correct exactly when first and last name are both non-empty |
| `Persons.IsCorrectIgnoresOtherFields` | src/person.cpp:38-41 | Validity does not depend on middle name, home pages, e-mails or id |
| `Persons.FullNameWords` | src/person.cpp:43-51 | With blank-free parts, splitting the LFM name at blanks gives [last, first, middle] and the FML name gives [first, middle, last] |
| `Persons.PersonData.FullNameLFM` | src/person.cpp:43-46 | Length is first + middle + last + 2; position by position it is the last name, a blank, the first name, a blank, the middle name; an empty middle name leaves a trailing blank |
| `Persons.PersonData.FullNameFML` | src/person.cpp:48-51 | Length is first + middle + last + 2; position by position it is the first name, a blank, the middle name, a blank, the last name; an empty middle name leaves a double blank after the first name |
| `Persons.Person.SetFirstName` | src/person.cpp:53-61 | The getter returns the new first name; nothing else changes |
| `Persons.Person.SetMiddleName` | src/person.cpp:63-71 | The getter returns the new middle name; nothing else changes; validity is unchanged |
| `Persons.Person.SetLastName` | src/person.cpp:73-81 | The getter returns the new last name; nothing else changes |
| `Persons.PersonData.FirstLetterOfLastName` | src/person.cpp:83-86 | Needs a non-empty last name; gives a one-character prefix of it |
| `Persons.Person.SetNickname` | src/person.cpp:88-96 | The getter returns the new nickname; nothing else changes; a non-empty nickname makes the person correct |
| `Persons.Person.AddHomePage` | src/person.cpp:98-101 | Count grows by one, the last page is the argument, earlier pages are unchanged, nothing else changes |
| `Persons.Person.GetHomePageCount` | src/person.cpp:103-106 | The count is the length of the full home-page list |
| `Persons.Person.GetHomePageByNumber` | src/person.cpp:108-116 | Needs 0 <= n < count; gives the n-th page of the full list in the order added |
| `Persons.Person.AddEmail` | src/person.cpp:118-121 | Count grows by one, the last address is the argument, earlier ones are unchanged, nothing else changes |
| `Persons.Person.GetEmailCount` | src/person.cpp:123-126 | The count is the length of the full e-mail list |
| `Persons.Person.GetEmailByNumber` | src/person.cpp:128-136 | Needs 0 <= n < count; gives the n-th address of the full list in the order added |
| `Persons.Person.SetId` | src/person.cpp:138-146 | The getter returns the new id; nothing else changes; validity is unchanged |
| `FileRecords.FileRecord.constructor` | src/filerecord.cpp:39-43 | A fresh record is unarchived and unselected with empty title, name, encoding and lists; size is left as it was |
| `FileRecords.FreshRecord` | src/filerecord.cpp:39-43 | The fresh-record value is unarchived, unselected, with no genres, authors or sequences |
| `FileRecords.FileRecord.SetSize` | src/filerecord.cpp:45-53 | The getter returns the new size; nothing else changes |
| `FileRecords.FileRecord.SetFileName` | src/filerecord.cpp:55-63 | The getter returns the new file name; nothing else changes |
| `FileRecords.FileRecord.SetIsArchive` | src/filerecord.cpp:65-73 | The getter returns the new flag; nothing else changes |
| `FileRecords.FileRecord.SetBookTitle` | src/filerecord.cpp:75-83 | The getter returns the new title; nothing else changes |
| `FileRecords.FileRecord.AddGenre` | src/filerecord.cpp:85-94 | The genre list read back grows by one, keeps its prefix and ends with (name, match); nothing else changes |
| `FileRecords.FileRecord.SetEncoding` | src/filerecord.cpp:96-104 | The getter returns the new encoding; nothing else changes |
| `FileRecords.FileRecord.AddAuthor` | src/filerecord.cpp:106-109 | The author list grows by one, keeps its prefix and ends with a copy of the author; nothing else changes |
| `FileRecords.RecordData.AuthorList` | src/filerecord.cpp:111-122 | One entry per author; entry i is the LFM full name of the i-th author |
| `FileRecords.FileRecord.GetAuthorList` | src/filerecord.cpp:111-122 | The loop yields exactly one LFM full name per author, in the order added |
| `FileRecords.FileRecord.AddSequence` | src/filerecord.cpp:124-132 | The sequence list read back grows by one, keeps its prefix and ends with (name, number); nothing else changes |
| `FileRecords.FileRecord.SetSelected` | src/filerecord.cpp:134-142 | The getter returns the new mark; nothing else changes |
| `FB2Records.FB2Record.constructor` | src/fb2record.cpp:31-34 | A fresh record is not archived and has no genres |
| `FB2Records.FB2Record.SetSize` | src/fb2record.cpp:36-44 | The getter returns the size; only the size field may change |
| `FB2Records.FB2Record.SetFileName` | src/fb2record.cpp:46-54 | The getter returns the name; only the name field may change |
| `FB2Records.FB2Record.SetIsArchive` | src/fb2record.cpp:56-64 | The getter returns the flag; only the flag field may change |
| `FB2Records.FB2Record.SetBookTitle` | src/fb2record.cpp:66-74 | The getter returns the title; only the title field may change |
| `FB2Records.FB2Record.AddGenre` | src/fb2record.cpp:76-79 | (name, match) is appended at the end; only the genre list may change |
| `Table.TableModel.constructor` | src/tablemodel.cpp:31-33 | A new model holds no rows |
| `Table.Flags` | src/tablemodel.cpp:35-46 | Every item is enabled; exactly the check column is also user-checkable |
| `Table.ColumnCount` | src/tablemodel.cpp:54-58 | Always 8, the end marker of the column enumeration, one past the file-size column |
| `Table.ColumnCountBoundsCells` | src/tablemodel.cpp:54-58 | No column at or past the column count shows a value in the display, check-state or any other role, and a horizontal header exists exactly for sections 1 up to the column count |
| `Table.TableModel.RowCount` | src/tablemodel.cpp:48-52 | One row per stored record; every row below the count reads its own stored record |
| `Table.TableModel.Data` | src/tablemodel.cpp:60-127 | A value exists iff the index is valid and either display role on columns 1..7 or check-state role on column 0; check state is always Unchecked; each display column shows its field or formatted cell |
| `Table.TableModel.RecordAt` | src/tablemodel.cpp:71 | An in-range row gives that row's record, any other row a default-made record |
| `Table.ArchiveCell` | src/tablemodel.cpp:90-100 | The archive cell is "yes" iff archived and "no" iff not |
| `Table.HeaderData` | src/tablemodel.cpp:129-172 | A header text exists iff display role, horizontal, section 1..7, and it is that column's name |
| `Table.ColumnNamesDistinct` | src/tablemodel.cpp:137-163 | The seven header names are pairwise distinct |
| `Table.SetData` | src/tablemodel.cpp:174-194 | Accepts iff the index is valid and the role is check-state, whatever the value; it is a function, so it stores nothing |
| `Table.TableModel.OnAppendRecord` | src/tablemodel.cpp:206-211 | Row count grows by one, earlier rows unchanged, the new last row is a copy of the record, the message is `File "<name>" added` |
| `Table.TableModel.GetFormattedGenresList` | src/tablemodel.cpp:213-225 | The loop's result equals the genre cell of the row's record |
| `Table.GenresCellLines` | src/tablemodel.cpp:213-225 | No genres give ""; otherwise splitting at line breaks gives one line per genre in order, with k - 1 breaks |
| `Table.GenreLineParts` | src/tablemodel.cpp:221 | A genre line is name, " (", the match's decimal text, "%)"; the match is read back from it |
| `Table.TableModel.GetFormattedSeriesList` | src/tablemodel.cpp:227-239 | The loop's result equals the series cell of the row's record |
| `Table.SeriesCellLines` | src/tablemodel.cpp:227-239 | No sequences give ""; otherwise splitting at line breaks gives one line per sequence in order, with k - 1 breaks |
| `Table.SeriesLineParts` | src/tablemodel.cpp:235 | A series line is name, " - ", the number's decimal text; the number is read back from it |
| `Table.AuthorsCellLines` | src/tablemodel.cpp:74-76 | No authors give ""; otherwise the author cell splits at line breaks into exactly the authors' LFM names in order |
| `Text.IntToStringRoundTrip` | src/tablemodel.cpp:221 | Parsing the decimal text of an integer gives back the integer |
| `Text.IntToStringInjective` | src/tablemodel.cpp:235 | Distinct numbers have distinct decimal texts |
| `Text.SplitJoin` | src/tablemodel.cpp:224 | Joining pieces free of the separator and splitting again gives back the pieces |
| `Text.JoinSeparatorCount` | src/tablemodel.cpp:238 | k pieces joined hold exactly k - 1 separators |

## Left out

- `FileRecord::unzipFile` and `zipFile` (src/filerecord.cpp:144-224) are left out because they are calls into the miniz archive library and the file system.
- `FileReader`, `Reader`, the main window, the record editor, the settings dialogs and `main` are left out. They are threads, file and XML I/O, and GUI code.
- `TableModel::onBeginReading` and `onEndReading` are left out. They only signal a model reset to the Qt view.
- `trUtf8` translation is not modelled. Every user-visible text is the untranslated English string.
- The emitted `EventMessage` signal is modelled as the returned message.
- Qt roles other than display and check-state are one `OtherRole`. The source treats all of them alike.
- `Table.TableModel.RecordAt`: a row out of range reads a default-made record. Its size is uninitialised memory in the source, and the model gives it size 0.
- `Table.GetState` is deliberately given no contract of its own. It is constant Unchecked, as the source's placeholder is, and `Table.TableModel.Data` states that.
- The `status` field of both records is left out. No code assigns or reads it.
- The `BookAuthor` field of `FB2Record` is left out. No `FB2Record` method touches it.
- `Persons.Person.GetHomePageAll` and `GetEmailAll` have no contracts of their own. The count, by-number and add contracts state that they hold every entry in the order added.
- `FB2Records.FB2Record` setters state only the new value of their field. Their field-level frames guarantee that no other field changes.
- `FB2Records.FB2Record` has no value snapshot. The one place that stores a record by value, `onAppendRecord` (src/tablemodel.cpp:206-208), is modelled as storing a `FileRecord` (see "Where the code and the headers disagree"), so `FB2Record` needs none.
- `Person::getFirstLetterOfLastName` on an empty last name is undefined in the source (`QString::at(0)`). The model makes a non-empty last name a precondition.
- `Persons.PersonData.FirstLetterOfLastName`: Dafny strings are sequences of Unicode scalar values, while a `QString` holds UTF-16 code units. For a last name starting outside the Basic Multilingual Plane, the source's `at(0)` yields half of a surrogate pair, but the model yields the whole character. Likewise every length in the model (the full-name lengths, for instance) counts characters where Qt counts code units.
- `Persons.PersonData.IsCorrect` is a predicate with no contract of its own. Its meaning is stated by `IsCorrectWithoutNickname`, `IsCorrectIgnoresOtherFields` and the constructor and setter contracts.
- `FileRecords.FileRecord.GetGenresList` and `GetSequenceList` (src/filerecord.cpp:90-94, 129-132) have no contracts of their own. The `AddGenre` and `AddSequence` contracts read the lists back through them.
- `Table.ColumnName` has no contract of its own. `Table.HeaderData` returns it and `Table.ColumnNamesDistinct` states that the names differ.
- The plain field getters of `Person`, `FileRecord` and `FB2Record` (`GetFirstName`, `GetMiddleName`, `GetLastName`, `GetNickname`, `GetId`, `GetSize`, `GetFileName`, `IsArchive`, `GetBookTitle`, `GetEncoding`, `IsSelected`) have no contracts of their own. Each setter's contract states what its getter returns afterwards.
- Integer overflow of `QVector::count()` beyond `int` is not modelled. Counts are unbounded naturals.
