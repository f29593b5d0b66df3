# Laravel migration builder: a verified model of its core

The library builds a Laravel migration from objects that describe a database table. It covers three object kinds:

- a `Column` carries a name, a type and a set of attributes;
- a `ForeignKey` carries a referencing column, a referenced column, a referenced table and an optional on-delete action;
- a `Table` carries a name, the `timestamps` and `softDelete` flags, and the columns and keys added to it.

The name setters check their argument against a name pattern, and `setType` against the list of supported types. As intended (see "## Findings"), `setOnDelete` checks its argument against the list of actions. `setLength`, `setDefaultValue`, `setAutoIncrement` and `setUnsigned` check the column's current type. `setDefaultValue` and `setUnsigned` also check its auto-increment flag. `setComment`, `setNullable`, `setUnique`, `setIndex`, `setTimestamps` and `setSoftDelete` check nothing. A failed check throws an exception. Every throwing setter except `setLength` leaves the object unchanged. `setLength` stores the length before it checks the fractional part, so a rejected fractional part leaves the new length in place.

A `Migration` renders a table as three blocks of schema-builder statements:

- the columns;
- the special columns (`softDeletes`, `timestamps`);
- the foreign keys.

Each block has one statement per line, and each line is indented by twelve spaces.

The model has one module per source file, plus two support modules:

- `Support`: error values and result types. Each exception the source throws is an `Error` value; the value records which exception class is thrown.
- `Text`: the PHP string primitives used: `implode`, `explode`, `str_replace`, integer formatting, `is_numeric` and the `(int)` cast.
- `Naming`: the two identifier patterns, `Column::validateName` and `Table::validateName`.
- `Columns` (`Column.php`):
  - the value record `ColumnState`, one function per setter;
  - the constructor;
  - the class `Column`, whose methods update its fields in place and are proved against those functions.
- `ForeignKeys` (`ForeignKey.php`): the same structure, with `KeyState` and the class `ForeignKey`.
- `Tables` (`Table.php`): the value record `TableState` and the class `Table`. The class holds references to `Column` and `ForeignKey` objects, as the source's collections do.
- `Migrations` (`Migration.php`, the `build*` methods): the statements as functions, and the class `Migration`, which builds the same text by appending, as the source does.

A setter is modelled as a step that returns the new state together with `Pass` or `Fail(error)`. After `Fail`, the state is unchanged, except for the length that `setLength` stored. A constructor returns a `Result`.

## Model

| member | source | states |
|---|---|---|
| Naming.QuotedIdentifierMeaning | src/Column.php:393-396 | The quoted alternative of the column-name pattern, read by an automaton, accepts exactly the strings made of one or more double-quoted segments with no inner quote. |
| Naming.PlainIdentifierMeaning | src/Column.php:393-396 | The plain alternative accepts exactly a letter or `_` followed by any number of letters, digits and `_`. |
| Naming.TableNameMeaning | src/BlackBrickSoftware/LaravelMigrationBuilder/Table.php:160-163 | A table name is 1 to 128 characters: a letter or `_` first, then letters, digits, `@`, `$`, `#` or `_`. |
| Naming.RejectsDigitStartOrSpace | src/Column.php:393-396 | A string that starts with a digit, or holds a space, and does not start with a quote, is neither a column name nor a table name. |
| Naming.PlainColumnNameIsTableName | src/BlackBrickSoftware/LaravelMigrationBuilder/Table.php:160-163 | A plain column name of at most 128 characters is a table name; `a@b` is a table name but not a column name. |
| Columns.ColumnState.SetName | src/Column.php:213-222 | Succeeds exactly for valid column names; on failure throws `InvalidArgumentException` and changes nothing; on success changes only the name. |
| Columns.ColumnState.SetType | src/Column.php:231-240 | Succeeds exactly for the nineteen supported types; on failure reports the type and changes nothing; on success changes only the type. |
| Columns.ColumnState.SetLength | src/Column.php:250-265 | Succeeds exactly when the type takes a length and, if a fractional part is given, also takes one. A type without a length reports `LengthNotSupported` and nothing changes. A rejected fractional part reports `FractionalNotSupported`. With a length type the length is always stored, even when the fractional part is then rejected. |
| Columns.ColumnState.SetDefaultValue | src/Column.php:275-287 | Succeeds exactly on a type with defaults and no auto-increment. The auto-increment refusal has its own error. A refusal changes nothing; success stores the value. |
| Columns.ColumnState.SetComment | src/Column.php:295-301 | Always succeeds and stores the comment. |
| Columns.ColumnState.SetAutoIncrement | src/Column.php:310-321 | Succeeds exactly on the five integer types. Whatever the flag, it then makes the column unsigned and stores `false` as the default; it touches no other field. |
| Columns.ColumnState.SetNullable | src/Column.php:329-335 | Always succeeds and sets the flag. |
| Columns.ColumnState.SetUnique | src/Column.php:343-349 | Always succeeds and sets the flag. |
| Columns.ColumnState.SetIndex | src/Column.php:357-363 | Always succeeds and sets the flag. |
| Columns.ColumnState.SetUnsigned | src/Column.php:373-385 | Succeeds exactly on the integer types, unless it would turn off `unsigned` on an auto-increment column. Another type throws `InvalidArgumentException` and reports the type. Turning an auto-increment column signed throws `RuntimeException` (`SignedAutoIncrement`). A failure changes nothing, and an auto-increment column stays unsigned. Success sets the flag. |
| Columns.ApplyKeepsCoherent | src/Column.php:250-385 | Every setter keeps both facts: a fractional part only next to a length, and auto-increment only on an unsigned column. |
| Columns.AfterKeepsCoherent | src/Column.php:250-385 | Any series of setter calls keeps both facts, whichever calls threw. |
| Columns.ApplyKeepsLegal | src/Column.php:213-385 | Every setter except `setType` keeps every attribute within the whitelist of the column's type. |
| Columns.AfterKeepsLegal | src/Column.php:213-385 | A series of calls without `setType` keeps the column legal. |
| Columns.SetTypeBreaksLegal | src/Column.php:231-240 | `setType` does not re-check the attributes already set: a `string` column of length 255 can be retyped to `integer` and keep its length. |
| Columns.RunFromKeeps | src/Column.php:182-203 | The option setters after the first keep the column legal and coherent, and keep its name, type and auto-increment flag. |
| Columns.RunFromNone | src/Column.php:168-204 | Absent option keys make no call and leave the column as it is. |
| Columns.ConstructedColumn | src/Column.php:168-204 | As intended, with the `autoIncrement` key reaching `setAutoIncrement`. Errors come in the constructor's order: a bad name first, then an unsupported type, then `autoIncrement` on a non-integer type. A constructed column is legal and coherent, has the given name and type, and has auto-increment on exactly when the option is `true`. |
| Columns.ConstructedFromOptions | src/Column.php:168-204 | As intended, with a valid name and a supported type, construction succeeds exactly when the type admits every given option (`OptionsAccepted`). The conditions are: `autoIncrement` needs an integer type; `length` needs a length type, and `fractional` beside it a fractional type; `defaultValue` needs a type with defaults and no auto-increment; `unsigned` needs an integer type and cannot turn an auto-increment column signed. On success the column is the one the options describe (`Described`). Each given key sets its attribute, a `fractional` counts only beside a `length`, and `autoIncrement` also makes the column unsigned with the default `false` unless `defaultValue` or `unsigned` overrides that. |
| Columns.ConstructedAsWrittenNeverAutoIncrements | src/Column.php:179-180 | As written, a constructed column is legal and coherent and never has auto-increment on. |
| Columns.ConstructedFromOptionsAsWritten | src/Column.php:168-204 | As written, with a valid name and a supported type, construction succeeds exactly when the type admits every given option read as written (`OptionsAcceptedAsWritten`). The conditions are: `autoIncrement`, passed to `setDefaultValue`, needs a type with defaults; `length` needs a length type, and `fractional` beside it a fractional type; `defaultValue` needs a type with defaults; `unsigned` needs an integer type. On success the column is `DescribedAsWritten`. Auto-increment is off. The default is the `defaultValue` option if given, else `"1"` or `""` from the `autoIncrement` option if given, else absent. The column is unsigned exactly when the `unsigned` option is `true`. |
| Columns.ConstructWithoutOptions | src/Column.php:168-172 | Without options, a new column has its name and type and every property default. |
| Columns.AutoIncrementOptionAsWritten | src/Column.php:179-180 | As written, the `autoIncrement` option stores `"1"` or `""` as the default and leaves auto-increment off. On a type without defaults, such as `text`, it throws the default-value error. |
| Columns.AutoIncrementOption | src/Column.php:179-180 | As intended, the option on an integer type sets auto-increment, makes the column unsigned and stores `false` as the default; nothing else changes. |
| Columns.DefaultValueAfterAutoIncrement | src/Column.php:176-188 | With the intended routing, the fixed option order applies `autoIncrement` before `defaultValue`. So giving both keys, with `autoIncrement` true, throws the auto-increment error. The order does not avoid that exception. With `autoIncrement` false, the default is stored. |
| Columns.AccountColumns | src/Commands/ExampleCommand.php:68-76 | The example's `id` column gets the default `"1"` as written, and becomes an unsigned auto-increment column as intended. Its `name` column gets length 255. |
| Columns.Column.Perform | src/Column.php:179-203 | One optional setter call on the object has exactly the effect and outcome of the corresponding setter function. |
| Columns.States | src/BlackBrickSoftware/LaravelMigrationBuilder/Table.php:110-116 | The values of a list of column objects: one per object, in order. |
| ForeignKeys.KeyState.SetColumn | src/ForeignKey.php:64-72 | Succeeds exactly for valid column names; a failure changes nothing; success changes only `column`. |
| ForeignKeys.KeyState.SetReferences | src/ForeignKey.php:81-89 | Succeeds exactly for valid column names, with its own error; success changes only `references`. |
| ForeignKeys.KeyState.SetOn | src/ForeignKey.php:98-106 | Succeeds exactly for valid table names; success changes only `on`. |
| ForeignKeys.KeyState.SetOnDeleteAsWritten | src/ForeignKey.php:115-127 | As written, succeeds only for null, which it stores; every non-null action throws `UnexpectedValueException` and changes nothing. |
| ForeignKeys.KeyState.SetOnDelete | src/ForeignKey.php:115-127 | As intended, accepts null and the three listed actions and stores them; any other action throws and changes nothing. |
| ForeignKeys.AsWrittenRejectsListedActions | src/ForeignKey.php:34-38 | As written, even a listed action is rejected; as intended, it is stored. |
| ForeignKeys.CascadeAction | src/ForeignKey.php:115-127 | `cascade` is rejected as written and stored as intended. |
| ForeignKeys.ApplyKeepsOnDeleteSupported | src/ForeignKey.php:64-127 | Every setter, under both readings of `setOnDelete`, keeps the action null or a listed one. |
| ForeignKeys.AfterKeepsOnDeleteSupported | src/ForeignKey.php:64-127 | Any series of setter calls, with the corrected `setOnDelete`, keeps the action null or a listed one. |
| ForeignKeys.AfterKeepsLegal | src/ForeignKey.php:64-127 | Any series of setter calls, with the corrected `setOnDelete`, keeps a legal key legal: three valid names and a supported action. |
| ForeignKeys.ConstructedKey | src/ForeignKey.php:47-55 | As intended, with `setOnDelete` checking the given action. Construction succeeds exactly when the three names are valid and any given action is null or listed. Errors come in the constructor's order: an invalid column, then an invalid referenced column, then an invalid table, then an unlisted action. A new key holds the arguments, is legal, and has a null action unless the option is given. |
| ForeignKeys.ConstructedKeyAsWritten | src/ForeignKey.php:47-55 | As written, construction succeeds exactly when the three names are valid and no non-null action is given. With valid names, any non-null action, a listed one included, throws `UnexpectedValueException`. A new key never holds an action. Without a non-null action it agrees with the intended constructor. |
| ForeignKeys.UserKey | src/ForeignKey.php:47-55 | As intended: `user_id` → `id` on `users` with `cascade` is built; `no action` is refused; `user id` is refused as a column name. |
| ForeignKeys.UserKeyAsWritten | src/ForeignKey.php:47-55 | As written, `user_id` → `id` on `users` with `cascade` is refused with the on-delete error. |
| ForeignKeys.KeyStates | src/BlackBrickSoftware/LaravelMigrationBuilder/Table.php:124-133 | The values of a list of key objects: one per object, in order. |
| Tables.TableState.SetName | src/BlackBrickSoftware/LaravelMigrationBuilder/Table.php:65-74 | Succeeds exactly for valid table names; a failure changes nothing; success changes only the name. |
| Tables.TableState.AddColumn | src/BlackBrickSoftware/LaravelMigrationBuilder/Table.php:110-116 | Appends the column at the end, keeps the earlier columns, and changes nothing else. There is no duplicate check. |
| Tables.TableState.AddForeignKey | src/BlackBrickSoftware/LaravelMigrationBuilder/Table.php:124-133 | Accepts the key exactly when its column is on the table and then appends it. Otherwise it reports the missing column and changes nothing. |
| Tables.ConstructedTable | src/BlackBrickSoftware/LaravelMigrationBuilder/Table.php:43-56 | A table is built exactly when its name is valid. It has no columns or keys. `timestamps` defaults to on and `softDelete` to off unless an option overrides them. |
| Tables.HasColumnAppend | src/BlackBrickSoftware/LaravelMigrationBuilder/Table.php:141-152 | After an append, a name is found exactly when it was found before or is the new column's name. |
| Tables.AddColumnKeepsResolved | src/BlackBrickSoftware/LaravelMigrationBuilder/Table.php:110-116 | Adding a column keeps every foreign key pointing at a column of the table. |
| Tables.AddForeignKeyKeepsResolved | src/BlackBrickSoftware/LaravelMigrationBuilder/Table.php:124-133 | Adding a key, accepted or not, keeps every key pointing at a column of the table. |
| Tables.PerformAllKeepsResolved | src/BlackBrickSoftware/LaravelMigrationBuilder/Table.php:65-133 | Any series of table operations keeps every key pointing at a column of the table. |
| Tables.DuplicateColumnNames | src/Commands/Example.php:68-75 | Two columns named `id` are both kept; a key on `id` is then accepted, and a key on a missing column is refused. |
| Tables.Table.SetName | src/BlackBrickSoftware/LaravelMigrationBuilder/Table.php:65-74 | The object's name changes as the value's does, and the outcome is the same. |
| Tables.Table.ColumnExists | src/BlackBrickSoftware/LaravelMigrationBuilder/Table.php:141-152 | The scan returns true exactly when some column of the table has that exact name. |
| Tables.Table.AddForeignKey | src/BlackBrickSoftware/LaravelMigrationBuilder/Table.php:124-133 | The very key object is appended exactly when its column is present, matching the value function. |
| Migrations.ClauseAt | src/Migration.php:169-186 | The clause built for each of the six positions has that position's rank. |
| Migrations.ClausesFromMeaning | src/Migration.php:159-186 | The clauses from a position on come in strictly increasing rank. A clause is among them exactly when its rank is at least that position and its field is set. |
| Migrations.ClausesMeaning | src/Migration.php:159-186 | Each clause appears exactly when its field says so: nullable, unique, index, unsigned, a comment with its text, a default with its argument. The clauses come in the fixed order. |
| Migrations.BuiltThenRest | src/Migration.php:135-190 | The text built so far, followed by the clauses still to come, is the creation call followed by all the clauses. |
| Migrations.StatementIsClauses | src/Migration.php:135-193 | A column statement is its creation call, the text of its clauses in order, and `;`. |
| Migrations.IncrementsTypes | src/Migration.php:143-147 | The five auto-increment types render as `tinyIncrements`, `smallIncrements`, `increments`, `mediumIncrements` and `bigIncrements`. |
| Migrations.IncrementsKeepsOtherTypes | src/Migration.php:143-147 | A type without `i` or `I` keeps its name under both replacements. |
| Migrations.DefaultOfInteger | src/Migration.php:161-163 | An integer's own text as default gives that same text as the unquoted argument of `->default(...)`. |
| Migrations.DefaultOfText | src/Migration.php:160-167 | A non-numeric, non-empty default becomes a quoted argument. An empty one, `false` and null give no default clause. |
| Migrations.StatementShape | src/Migration.php:135-193 | Every column statement starts with `$table->`, is longer than that, and ends with `;`. |
| Migrations.StatementOneLine | src/Migration.php:135-193 | A statement has no newline when the column's strings have none. |
| Migrations.StatementWithoutClauses | src/Migration.php:159-190 | A column that gets no clause renders as its creation call and `;`. |
| Migrations.StatementWithOnlyDefault | src/Migration.php:159-190 | A column whose only clause is its default renders as the creation call, `->default(a)` and `;`. |
| Migrations.AutoIncrementStatement | src/Migration.php:143-147 | An unsigned auto-increment column with no other clause renders as the increments call with no length, then `->unsigned();`. |
| Migrations.AccountIdAsWrittenStatement | src/Migration.php:159-162 | The example's `id` column as written renders as `$table->integer('id')->default(1);`. |
| Migrations.AccountIdStatement | src/Migration.php:143-147 | The example's `id` column as intended renders as `$table->increments('id')->unsigned();`. |
| Migrations.AccountNameStatement | src/Migration.php:148-157 | The example's `name` column renders as `$table->string('name',255);`. |
| Migrations.AccountStatements | src/Commands/ExampleCommand.php:68-76 | From constructor options to text: as written, `id` gets `->default(1)`; as intended, it becomes `increments`. `name` gets its length. |
| Migrations.TwoColumns | src/Migration.php:114-126 | Two columns give their two indented statements joined by a newline. |
| Migrations.AccountColumnsBlock | src/Commands/ExampleCommand.php:68-76 | As intended, the example's two columns, built from their constructor options, render as the indented `increments` line for `id`, a newline, and the indented `string('name',255)` line. |
| Migrations.AccountTable | src/Commands/ExampleCommand.php:65-76 | As intended, the example's `Account` table with `timestamps` off and its two columns, all built from their constructor options, renders the indented `increments` line for `id`, a newline and the indented `string('name',255)` line. It renders no special line and no key line. |
| Migrations.AccountTableAsWritten | src/Commands/ExampleCommand.php:65-76 | As written, the same table's column block starts with the indented `$table->integer('id')->default(1);` line. |
| Migrations.KeyStatementShape | src/Migration.php:239-259 | Every key statement starts with `$table->foreign('` and ends with `;`. It is one line when the key's names and action hold no newline. |
| Migrations.KeyStatementAction | src/Migration.php:252-256 | An on-delete action adds `->onDelete('a')` just before the `;` and changes nothing else in the statement. |
| Migrations.LinesIndentedAndTerminated | src/Migration.php:114-259 | Every line of the three blocks starts with the twelve-space indent and ends with `;`. |
| Migrations.UserKeyStatement | src/Migration.php:239-259 | The intended key from `user_id` to `id` on `users` with `cascade` renders as `$table->foreign('user_id')->references('id')->on('users')->onDelete('cascade');`. |
| Migrations.ColumnsBlock | src/Migration.php:114-126 | No columns give the empty string. Otherwise the block's lines are the indented column statements, one per column, in order. |
| Migrations.SpecialBlock | src/Migration.php:200-211 | The block holds the soft-deletes line exactly when `softDelete` is on and the timestamps line exactly when `timestamps` is on, in that order. |
| Migrations.ForeignKeysBlock | src/Migration.php:218-230 | No keys give the empty string. Otherwise the block's lines are the indented key statements, one per key, in order. |
| Migrations.Migration.BuildColumn | src/Migration.php:135-193 | The appending method produces exactly the column's statement. |
| Migrations.Migration.BuildColumns | src/Migration.php:114-126 | The loop produces exactly the column block of the table's current columns. |
| Migrations.Migration.BuildSpecialColumns | src/Migration.php:200-211 | The method produces exactly the special block of the table's flags. |
| Migrations.Migration.BuildForeignKey | src/Migration.php:239-259 | The method produces exactly the key's statement, with `->onDelete('a')` when an action is set. |
| Migrations.Migration.BuildForeignKeys | src/Migration.php:218-230 | The loop produces exactly the key block of the table's current keys. |
| Text.SplitJoin | src/Migration.php:125 | Splitting at newlines undoes `implode("\n", …)` when no piece holds a newline. |
| Text.IntToStringRoundTrip | src/Migration.php:161-162 | Formatting an integer gives a numeric string whose `(int)` cast is that integer. |
| Text.ReplaceAllAbsent | src/Migration.php:146-147 | `str_replace` leaves a subject without the search string unchanged. |
| Text.ReplaceAllAvoids | src/Migration.php:146-147 | `str_replace` introduces no character found in neither the subject nor the replacement. |

The class methods not listed above are:

- `Columns.Column.SetName` … `SetUnsigned`, `Columns.Column.NewWith`, `New`, `NewAsWritten` and `SetOptions`;
- `ForeignKeys.ForeignKey.NewNamed`, `New`, `NewAsWritten` and its setters, `SetOnDeleteAsWritten` among them;
- `Tables.Table.New`, `SetTimestamps`, `SetSoftDelete` and `AddColumn`.

Each setter method ensures that the object's new value and outcome are those of the function of the same name on the value record (`ColumnState`, `KeyState`, `TableState`). The other methods are tied to these functions:

- `Tables.Table.SetTimestamps` and `SetSoftDelete` ensure the old value with only that flag replaced.
- `Columns.Column.SetOptions` ensures the result of `RunFrom` over its list of calls.
- `Columns.Column.NewWith` ensures `ConstructWith`, and `ForeignKeys.ForeignKey.NewNamed` ensures `Named`.
- Each `New` follows the corrected constructor (`Construct`), and each `NewAsWritten` the constructor as written (`ConstructAsWritten`). `Tables.Table.New` follows `Tables.Construct`.

## Left out

- String escaping: a quote inside a name, comment or default is copied verbatim, as in the source. The model states no validity property of the generated PHP.
- Letters in the name patterns are ASCII letters only. Neither pattern has the `/u` flag, so the source matches bytes, not characters. `[[:alpha:]]` matches ASCII letters only. `\p{L}` and `\p{N}` test each byte as a Latin-1 code point, so a lone byte such as `0xE9` passes while the UTF-8 encoding of `é` fails. The model differs from the source only on non-ASCII bytes. The table pattern's `/i` flag changes nothing for these classes.
- `$` in PCRE also matches before one trailing newline, so `"id\n"` passes both patterns in the source. The model rejects it.
- `Column::validateName` contains `$$`. The second `$` is a redundant end anchor, and the model reads the pattern without it.
- Text.NumericValue: the `(int)` cast is unbounded here. PHP saturates an out-of-range numeric string at the 64-bit limits, so a default beyond them would render differently.
- ForeignKeys.NullInArray: only the loose `in_array` of a null needle among strings is modelled, which is all `setOnDelete` uses: null is compared as `""`. PHP's loose comparison of numeric strings by value (`"01"` equals `"1"`) is not modelled.
- `is_numeric` is modelled for decimal integer strings with an optional sign. Decimal fractions, exponents and surrounding whitespace are not modelled, and neither is the `(int)` cast of such strings.
- Type juggling at the setter boundaries is not modelled. The source passes option values to typed parameters; the model takes them as already of the right type. The one conversion that matters, `true`/`false` given to `setDefaultValue(string)`, is modelled as `"1"`/`""`.
- `ForeignKey` does not extend `Base` in the source, although `Column` and `Table` do. Reading a protected property of a `ForeignKey` from outside the class therefore fails in PHP. So `Table::addForeignKey`, which reads `$foreignKey->column` (src/BlackBrickSoftware/LaravelMigrationBuilder/Table.php:126), cannot succeed as written, and neither can `buildForeignKey`. The model reads the fields directly.
- Namespaces and autoloading are not modelled:
  - `Column`, `Table` and `Base` are declared in `BlackBrickSoftware\LaravelMigrationBuilder`;
  - `ForeignKey` and `Migration` are declared in `BlackBrickSoftware\MigrationBuilder`, so `Migration`'s unqualified `Base`, `Table`, `Column` and `ForeignKey` do not all resolve as written.
- `Base.php`, `Columns.php` and `ForeignKeys.php` are modelled only as sequences.
  - The magic `__get` and `__isset` are not modelled; the model reads fields directly.
  - The `ArrayObject` collections become `seq` fields.
  - An `empty()` test on an `ArrayObject` is never true. The early `return ''` in `buildColumns`, `buildForeignKeys` and `columnExists` therefore never fires; `implode` of no lines gives `''` anyway, and the scan of no columns returns false.
- The rest of `Migration.php` is not part of this model: the constructor's name and path, `setName`, `writeMigration`, the stub substitution and the file system. Nor are the commands and service providers, beyond the example tables used as scenarios.
- Columns.Column.SetOptions: the source makes the eight option calls in eight `if` statements. The model runs a loop over the list of calls it is given, in order, and stops at the first exception. `Column.NewAsWritten` passes the calls as written, with the `autoIncrement` key sent to `setDefaultValue`. `Column.New` passes the corrected calls, with the key sent to `setAutoIncrement`.
- Tables.TableState.AddForeignKey: the table holds references, so a column renamed after a key was added can leave the key pointing at no column. `KeysResolved` is proved for the table's operations only, not for changes made through aliases.
- Migrations.ColumnsBlock and Migrations.ForeignKeysBlock require a newline-free text, because with a newline inside a name the split does not recover the lines. The join itself is defined for all inputs.

## Findings

| source | as written | input that shows it | evidently intended | confidence | as-written member | corrected member |
|---|---|---|---|---|---|---|
| src/ForeignKey.php:120 | The membership test checks `$this->type`, a property the class does not have (null), so every non-null action throws | `new ForeignKey('user_id', 'id', 'users', ['onDelete' => 'cascade'])` throws "Unsupport On Delete value" | Check `$onDelete` against the list: accept `restrict`, `cascade`, `set null` | high; not executed | ForeignKeys.AsWrittenRejectsListedActions | ForeignKeys.KeyState.SetOnDelete |
| src/Column.php:179-180 | The `autoIncrement` option is passed to `setDefaultValue`, so an `id` column gets the default `'1'` and never auto-increments | `new Column('id', 'integer', ['autoIncrement' => true])` renders `$table->integer('id')->default(1);` | Pass it to `setAutoIncrement`, giving `$table->increments('id')->unsigned();` | high; not executed | Columns.AutoIncrementOptionAsWritten | Columns.AutoIncrementOption |
