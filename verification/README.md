# Node scripts code generator — Dafny model

A model of the batch code generator in this repository, written in Dafny with its properties proved.
The generator first turns the rows of two SQL Server metadata queries into `tables.json`.
That object maps each table name to its columns and, where it has them, its stored procedures.
From the table data, one script per artefact produces C# source files and SQL stored-procedure scripts:

- entity interfaces and partial classes;
- core templates and model interfaces;
- filters;
- stored-procedure constants;
- the list, view, insert, update and delete procedure scripts.

Every generator works the same way:

- it walks the table keys that `walkthroughTableData` selects (the include list, else every key, less the exclude list);
- it fills a template's `{{key}}` placeholders from a `replacements` object;
- it writes the result to a file.

The replacements object belongs to the template module and every call shares it.

One Dafny module per source file:

| module | source |
|---|---|
| `Utils` | `utils.js`: template filling, using and inheritance blocks, table selection |
| `Config` | `config.js`: paths, local overrides, feature toggles, the SQL Server to .NET type table |
| `SpCustom` | `config-sp-custom.js`: parent and child table families, custom list parameters and filters |
| `DataFromDatabase` | `generate-data-from-database.js`: grouping query rows into the table data |
| `Entities` | `generate-code_entities.js` |
| `CoreTemplates` | `generate-code_core-templates.js` |
| `CoreModels` | `generate-core-models.js` |
| `Filters` | `generate-filters.js` |
| `SpConstants` | `generate-code_sp-constants.js` |
| `SpList`, `SpView`, `SpInsert`, `SpUpdate`, `SpDelete` | the five stored-procedure script generators |
| `TypeProcedureChecker` | `sql-checkers/type-procedure-checker.js`: parameter count and type warnings |

The helper modules `Wrappers`, `Strings`, `Seqs` and `JsObject` model a few things:

- `Option` and `Result`;
- JavaScript string operations;
- sequence facts;
- JavaScript objects, whose key order matters here, as sequences of key and value pairs.

Assigning to a key updates that key in place or appends it.

The form of the model follows the form of the code:

- Pure computations are functions.
- Loops are methods proved against a function that specifies them.
- Each template module, with its shared `replacements`, is a class whose methods reassign that field.
- Configuration and generator state that scripts update field by field are classes as well.

Where a script can stop on an error (a child table missing from the table data), the model returns a `Result`.
The state left behind is stated as well.

Behaviour worth knowing that the model follows as written:

- In the insert script, line 44 of `generate-sp-insert-scripts.js` sets the default clause of every nullable column without a default value to ` = null`.
  The ` = NULL` fallback after it therefore never applies (`SpInsert.NullableWithoutDefault`).
- The update script has no special case for `Is_Default` and `Is_System` (`SpUpdate.NoSpecialFlags`).
- The procedure pass calls `DefaultValue.replace` on every parameter row without the guard the column pass has.
  A parameter whose default is SQL `NULL` therefore throws, and nothing is saved (`DataFromDatabase.ProcessResultData` returns `None`).
- Filling a template substitutes keys in the replacements object's key order.
  The order of the keys decides the text: for any two distinct brace-free keys, a value holding the
  other key's placeholder is rewritten by it when that key comes later and survives when it came
  earlier (`Utils.KeyOrderMatters`).
- The filters script rewrites the shared column objects it processes.
  The model carries the rewritten table data and proves that no file shows the rewrite (`Filters.RewriteInvisible`).

## Model

| member | source | states |
|---|---|---|
| Utils.ReplaceTemplate | utils.js:12-27 | a template that is not a string fails with "The template must be a string"; a string template has every key's `{{key}}` replaced in key order, then every tab expanded to four spaces when `replaceTab` is set |
| Utils.FillTemplate | utils.js:18-26 | the replacement loop followed by the tab rewrite yields exactly `Filled`: substitution key by key in `Object.keys` order, then tab expansion |
| Utils.FilledHasNoTab | utils.js:24 | with `replaceTab` the result holds no tab character |
| Utils.PlaceholderNotInOther | utils.js:20-22 | the placeholder `{{a}}` of one brace-free key never occurs inside that of another key, so replacing one key leaves the other's placeholder alone |
| Utils.KeyOrderMatters | utils.js:20-22 | keys are replaced one after another in key order: for distinct brace-free keys a and b and any x, `{{a}}` with a := `{{b}}` then b := `x` gives `x`, while with b := `x` first it gives `{{b}}` |
| Utils.PlainTemplateUnchanged | utils.js:12-27 | a template with no `{{` and no tab comes back unchanged whatever the replacements |
| Utils.UsingText | utils.js:61-80 | the using block is empty exactly when there are no usings |
| Utils.GetUsingTemplate | utils.js:61-80 | no usings give ""; otherwise one `using X;` line per element in order, then a blank line; the one-element shortcut agrees with the loop |
| Utils.GetInheritanceTemplate | utils.js:82-96 | no interfaces give ""; otherwise `" : "` followed by the names joined with `", "`, duplicates kept |
| Utils.InheritanceText | utils.js:82-96 | the inheritance text is empty exactly when there are no interfaces |
| Utils.SelectedTables | utils.js:98-117 | every table the walk visits is a key of the table data and passes the include and exclude lists |
| Utils.WalkthroughTableData | utils.js:98-117 | the callback is called for exactly the selected tables, in key order |
| Utils.SelectedTablesCount | utils.js:98-117 | the callback runs for a table as often as it occurs among the keys when the lists select it, and never otherwise |
| Config.DotNetTypeOf | config.js:68-99 | a .NET type is found exactly for the 30 SQL Server types the mapping lists |
| Config.TextTypesMapToString | config.js:68-99 | char, nchar, varchar, nvarchar, text, ntext and xml all map to `string` |
| Config.DateTypesMapToDateTime | config.js:73-88 | date, datetime, datetime2 and smalldatetime map to `DateTime`; datetimeoffset maps to `DateTimeOffset` |
| Config.IntegerAndBitTypes | config.js:69-80 | bit maps to `bool`, bigint to `long`, int to `int` |
| Config.NoMappedTypeIsNullable | config.js:68-99 | no mapped .NET type is empty or already ends in `?` |
| Config.PrefixPath | config.js:101-159 | a table the folder dictionary lists gets its folder, and any other table the empty folder |
| Config.OverriddenGet | config.js:58-62 | after the local toggles are copied, a toggle named locally has the local value and every other toggle keeps its previous value |
| Config.Configuration.constructor | config.js:4-28 | the defaults: schema `JFW`, no include list, `LOG4NET` excluded, empty suffix lists, the six default toggles |
| Config.Configuration.ApplyLocalConfig | config.js:30-65 | without a local file nothing changes; with one, each setting takes the local value only when one is supplied (a schema only when non-empty) and the toggles are overwritten key by key |
| SpCustom.BrandFamily | config-sp-custom.js:4-27 | Brand's alias map names Brand and its three children; each child is in `spChildTables`, ignores `Brand_ID` and the four audit columns, and the suffixes Email, Setting and Profile differ |
| SpCustom.DeviceFamily | config-sp-custom.js:28-49 | Device's two children are aliased, listed in `spChildTables`, ignore `Device_ID` and the audit columns, and have distinct suffixes |
| SpCustom.UserFamily | config-sp-custom.js:50-123 | User's two children are aliased, listed in `spChildTables`, ignore `User_ID` and the audit columns, and have distinct suffixes |
| SpCustom.NoChildren | config-sp-custom.js:3-367 | an entry without child tables meets the family invariant once its alias map names it |
| SpCustom.TwoChildren | config-sp-custom.js:28-49 | an entry with two aliased children, each in `spChildTables` ignoring the parent's key and the audit columns, with different suffixes, meets the family invariant |
| SpCustom.ThreeChildren | config-sp-custom.js:4-27 | the same for an entry with three children whose suffixes differ pairwise |
| SpCustom.FamilyInvariant | config-sp-custom.js:3-367 | every `spConfig` entry names itself in its alias map, and every child table it lists is aliased, has a `spChildTables` entry ignoring the parent's key and the audit columns, and has a suffix no sibling shares |
| SpCustom.CustomParametersComplete | config-sp-custom.js:3-294 | every custom parameter carries a non-empty SQL name and type and a non-empty C# property name and type |
| SpCustom.OnlyThreeParents | config-sp-custom.js:3-294 | a `spConfig` entry has child tables exactly when it is Brand, Device or User |
| DataFromDatabase.ToDataTypeSqlWithLength | generate-data-from-database.js:43-53 | the four character types get their length in parentheses, `MAX` for a negative length; every other type is returned unchanged |
| DataFromDatabase.BoolDefault | generate-data-from-database.js:72-79 | for a bool column `0` becomes `false` and `1` becomes `true`; any other default, or any non-bool column, keeps its default |
| DataFromDatabase.NormaliseColumnSpec | generate-data-from-database.js:60-167 | a column record keeps the row's name, SQL type and nullability; its .NET type gets `?` exactly when nullable and not `string`; its default loses parentheses and has the bool rewrite; encrypted, protected and read-only are set exactly for the listed table/column pairs and the four always-read-only columns, and protected implies read-only |
| DataFromDatabase.NullableSuffix | generate-data-from-database.js:81-87 | the column's .NET type is non-empty and ends in `?` exactly when the column is nullable and its base type is not `string` |
| DataFromDatabase.BaseHasNoSuffix | generate-data-from-database.js:65 | the looked-up .NET type, mapped or `undefined`, is never empty and never ends in `?` |
| DataFromDatabase.DefaultHasNoParentheses | generate-data-from-database.js:70 | a column default never contains `(` or `)` |
| DataFromDatabase.ColumnsKeys | generate-data-from-database.js:60-180 | the first reduce keys the tables by name, each once, in the order each table first appears among the rows |
| DataFromDatabase.ColumnsGrouped | generate-data-from-database.js:60-180 | a table is present exactly when some row names it, and then its columns are the normalised columns of its rows, in input order, with no procedures |
| DataFromDatabase.AddColumnElsewhere | generate-data-from-database.js:169-175 | adding a column to one table leaves every other table unchanged |
| DataFromDatabase.AddColumnHere | generate-data-from-database.js:169-175 | adding a column to a table appends it to that table's columns, creating the table with only that column the first time |
| DataFromDatabase.CollectColumns | generate-data-from-database.js:60-180 | the column loop yields the first reduce's tables, each table holding exactly its rows' columns in order |
| DataFromDatabase.NormaliseParameter | generate-data-from-database.js:188-219 | for a row whose default is not `NULL` (line 194 throws on `NULL`), a parameter keeps the row's name and SQL type, carries the mapped .NET type without `?`, a default with carriage returns removed and the bool rewrite, and is required exactly when that default is empty |
| DataFromDatabase.NewProcedure | generate-data-from-database.js:230-236 | a new procedure carries the procedure name, the name qualified as `[schema].[name]`, and the row's parameter as its only parameter |
| DataFromDatabase.AddParameterTables | generate-data-from-database.js:221-254 | one procedure row adds no table, removes none and leaves every table's columns unchanged |
| DataFromDatabase.AddParameterAt | generate-data-from-database.js:221-254 | one row changes only the procedure its name selects: it creates it with the row's parameter, or appends the parameter to it; a row naming an unknown table changes nothing |
| DataFromDatabase.AddParameterProcedures | generate-data-from-database.js:221-238 | after one parameter row a known table has a `procedures` object exactly when it had one before or the row's procedure name selects it |
| DataFromDatabase.ProceduresGrouped | generate-data-from-database.js:183-257 | on tables without procedures the second reduce keeps the table set and the columns; a table gets a `procedures` object exactly when some parameter row names it, and each procedure of a known table is created by its first row and collects all its rows' parameters in input order; rows naming unknown tables are dropped |
| DataFromDatabase.CollectStep | generate-data-from-database.js:183-257 | one more row with a default extends the reduce by one `AddParameter` step |
| DataFromDatabase.CollectProcedures | generate-data-from-database.js:183-257 | the procedure loop fails exactly when some parameter row has a `NULL` default, and otherwise yields the second reduce's result |
| DataFromDatabase.ProcessResultData | generate-data-from-database.js:56-260 | there is no result exactly when some parameter row has a `NULL` default; otherwise the result has one table per table name in first-appearance order, each holding exactly its rows' columns in order; a table has a `procedures` object exactly when some parameter row names it, and each procedure is the grouping of its parameter rows |
| DataFromDatabase.NoProceduresYet | generate-data-from-database.js:169-172 | the tables the first reduce builds carry no `procedures` entry |
| Entities.NullableType | generate-code_entities.js:122-125 | a type without `?` other than `string` gets a `?`; a type already holding `?`, or `string`, is kept |
| Entities.PropertyColumns | generate-code_entities.js:88-102 | the interface's property columns are exactly the columns other than the five base columns and `Is_System`, in column order |
| Entities.InterfaceColumnsShape | generate-code_entities.js:88-137 | the interface gains one `IHasIsSystem` per `Is_System` column after the interfaces it had, and one property per property column, in column order, from the encrypted or the plain definition |
| Entities.AnyColumnLast | generate-code_entities.js:104-114 | some column satisfies a test after one more column exactly when one did before or the new column does |
| Entities.CountAppendOne | generate-code_entities.js:104-114 | `push(x)` raises the count of `x` by one and leaves every other count alone |
| Entities.InterfaceSystemOnce | generate-code_entities.js:104-114 | `System` is never added to the interface usings a second time |
| Entities.InterfaceSystemUsing | generate-code_entities.js:104-114 | `System` ends up in the interface usings exactly when it was there at the start or a property column has type `DateTime` or `DateTime?` |
| Entities.HandleColumnForInterface | generate-code_entities.js:88-137 | one column's handler changes the interface parts exactly as the column step of the reference fold |
| Entities.NonKeyColumns | generate-code_entities.js:140-155 | the columns that get a constant are exactly those not named `ID`, in column order |
| Entities.PartialParsings | generate-code_entities.js:157-174 | every column, `ID` included, gets one parse line in column order, encrypted columns from the encrypted definition |
| Entities.PartialConstants | generate-code_entities.js:140-155 | every column except `ID` gets one constant, in column order |
| Entities.HandleColumnForPartial | generate-code_entities.js:139-179 | one column's handler adds the constant (unless `ID`) and the parse line of the reference step |
| Entities.FindColumn | generate-code_entities.js:183-185 | the lookup finds nothing exactly when no column has the parameter's Pascal name, and otherwise returns the first such column |
| Entities.Find | generate-code_entities.js:183-185 | the search loop returns the first column with the given Pascal name, or nothing |
| Entities.ParameterDefault | generate-code_entities.js:192-204 | `Is_System` and non-nullable columns without default get no clause; a column with a default gets ` ?? <default>`; a nullable column without default gets ` ?? (object)DBNull.Value` |
| Entities.ParameterEntries | generate-code_entities.js:226-234 | the mapped parameters have one entry per procedure parameter, in order |
| Entities.ParameterEntriesMatch | generate-code_entities.js:183-190 | an entry is missing exactly when no table column has the parameter's Pascal name |
| Entities.EntryTexts | generate-code_entities.js:74-75 | `join` prints a missing entry as the empty string and keeps every other entry's text |
| Entities.ProcessParameter | generate-code_entities.js:182-220 | one parameter's entry is missing for an unknown column and otherwise the filled parameter definition with its default clause |
| Entities.MapParameters | generate-code_entities.js:226-234 | the `map` loop yields the reference entries |
| Entities.HandleParametersForPartial | generate-code_entities.js:181-239 | insert and update parameters are the mapped parameters of the `Insert` and `Update` procedures, and empty when the table has no such procedure |
| Entities.ImplementType | generate-code_entities.js:242-260 | `ID`, `Is_System`, the two date columns, `Username` and `Email_Address` keep their type; every other column gets the nullable type |
| Entities.EncryptedColumns | generate-code_entities.js:291-296 | the columns that get a backing field are exactly the encrypted ones, in order |
| Entities.ImplementColumnsShape | generate-code_entities.js:241-302 | every column gets one property; the fields gain exactly the encrypted columns' fields, in column order |
| Entities.CountFront | generate-code_entities.js:269-285 | `unshift(x)` raises the count of `x` by one and leaves every other count alone |
| Entities.ImplementUsingsOnce | generate-code_entities.js:269-285 | `Jfw.Helpers` and `System` are each in the implementation usings at most once, `Jfw.Helpers` exactly when a column is encrypted (or it was there) and `System` exactly when a column has a date type (or it was there) |
| Entities.HandleColumnForImplement | generate-code_entities.js:241-302 | one column's handler changes usings, properties and fields exactly as the reference step |
| Entities.FieldsShape | generate-code_entities.js:311-323 | the fields start with an empty line, then the encrypted fields, then a closing empty line only when there is at least one encrypted column |
| Entities.InterfaceFile | generate-code_entities.js:23-24 | the interface's write request is for `I<table>Entity<suffix>.cs` in the interfaces directory |
| Entities.PartialFile | generate-code_entities.js:32-33 | the partial class's write request is for `<table>Entity<suffix>.cs` in the implementations directory |
| Entities.ImplementFile | generate-code_entities.js:43-44 | the implementation's write request is for `<table>Entity.cs` in the implementations directory, without the suffix |
| Entities.EmptySuffixCollides | generate-code_entities.js:33-44 | with an empty file suffix the partial class and the implementation are requested at the same path, the implementation's request last; which text reaches the disk is not modelled |
| Entities.SuffixSeparates | generate-code_entities.js:33-44 | with a non-empty suffix the two files get different paths |
| Entities.InheritedInterfacesOrder | generate-code_entities.js:305-317 | the inherited interfaces are the defaults, then `IBaseEntity<I<table>Entity>`, then one `IHasIsSystem` per `Is_System` column |
| Entities.HandleColumns | generate-code_entities.js:313-317 | the column loop builds the interface, partial and implementation parts of the three reference folds |
| Entities.GenerateEntities | generate-code_entities.js:22-346 | one table yields exactly the interface, partial and implementation files, in that order |
| CoreTemplates.ClassTemplateFiles | generate-code_core-templates.js:18-29 | one file per class template, in template order, at `<entityClasses>/<prefix>/<table><outputSuffix>.cs`, holding the template with `entityName` filled in |
| CoreTemplates.GenerateTemplate | generate-code_core-templates.js:18-29 | the template loop writes exactly the class-template files, in order |
| CoreTemplates.ColumnType | generate-code_core-templates.js:58-70 | the property type is the .NET type, with `?` added exactly when the column is not `Is_System` or a date audit column, the type has no `?` and is not `string` |
| CoreTemplates.ExtraSetters | generate-code_core-templates.js:162-180 | one setter per child table, in child order, each the extend definition filled with the entity, the child table and the column |
| CoreTemplates.IdColumn | generate-code_core-templates.js:54-101 | a parent's `ID` column adds nothing without child tables; with them it adds only the extended-id property carrying one setter per child table, and no method |
| CoreTemplates.EncryptedColumn | generate-code_core-templates.js:122-152 | an encrypted column gets the encrypted property (unless an extended audit property was chosen) and only the encrypted getter |
| CoreTemplates.ReadOnlyColumn | generate-code_core-templates.js:130-152 | a read-only column that is neither encrypted nor protected gets the read-only property and only the plain getter |
| CoreTemplates.FullAccessorColumn | generate-code_core-templates.js:133-160 | every other column gets the full-accessor property, the getter and the setter, in that order |
| CoreTemplates.ProtectedColumnHasNoMethod | generate-code_core-templates.js:126-152 | when the protected getter definition is missing, a protected column gets its property and no method |
| CoreTemplates.ColumnsPartsGrow | generate-code_core-templates.js:53-183 | the property and method lists only grow, by at most one property and two methods per column |
| CoreTemplates.AllSkippedAddNothing | generate-code_core-templates.js:54-56 | columns that are all skipped leave both lists unchanged |
| CoreTemplates.ChooseTemplates | generate-code_core-templates.js:83-139 | the `switch` and `??` chain chooses the property, getter and setter definitions of the reference column step |
| CoreTemplates.GetExtraSetters | generate-code_core-templates.js:162-180 | the `forEach` loop yields the reference setters |
| CoreTemplates.ProcessColumn | generate-code_core-templates.js:53-181 | one column's handler changes the two lists exactly as the reference column step |
| CoreTemplates.ProcessColumns | generate-code_core-templates.js:183 | the column loop yields the reference fold over the table's columns |
| CoreTemplates.IndexOf | generate-code_core-templates.js:242 | `indexOf` is -1 exactly when the item is absent, and otherwise the position of its first occurrence |
| CoreTemplates.RemovedAbsent | generate-code_core-templates.js:241-246 | removing an absent item leaves the list unchanged |
| CoreTemplates.RemovedFirstOnly | generate-code_core-templates.js:241-246 | removing a present item takes out its first occurrence only, keeping every other element in order |
| CoreTemplates.RemovedCount | generate-code_core-templates.js:241-246 | removing a present item lowers its count by exactly one |
| CoreTemplates.RemoveItem | generate-code_core-templates.js:241-246 | the `indexOf`/`splice` method yields the reference removal |
| CoreTemplates.IndexOfIs | generate-code_core-templates.js:242 | a position holding the item with no earlier occurrence is what `indexOf` returns |
| CoreTemplates.PropertiesFile | generate-code_core-templates.js:37-194 | a table's properties file is requested at `<entityClasses>/<prefix>/<table>.Properties.cs` |
| CoreTemplates.ChildFile | generate-code_core-templates.js:211-237 | a child table's file is requested at `<entityClasses>/<prefix>/<parent>.Properties.<suffix>.cs` |
| CoreTemplates.IgnoredGrows | generate-code_core-templates.js:217-219 | the ignored child columns only grow: a column ignored for an earlier child is ignored for every later one |
| CoreTemplates.ChildrenRunFailureStays | generate-code_core-templates.js:208-238 | once the child loop has failed it writes nothing more |
| CoreTemplates.ChildrenRunFiles | generate-code_core-templates.js:208-238 | without a failure the child loop appends one file per child table, in order, each at its suffix's path |
| CoreTemplates.ChildTableWritesNothing | generate-code_core-templates.js:33-35 | a table listed in `spChildTables` gets no properties file of its own |
| CoreTemplates.PropertiesFileFirst | generate-code_core-templates.js:37-197 | every other table's first file is its properties file; without child tables it is the only one |
| CoreTemplates.ChildrenRunPrefix | generate-code_core-templates.js:208-238 | the child loop keeps the write requests made before it, in order, and only adds after them |
| CoreTemplates.FamilyChildColumnsIgnored | generate-code_core-templates.js:42-219 | when the generator is given the shipped `spConfig`, for each of its families `ID`, the parent's key and the four audit columns never reach a child table's file |
| CoreTemplates.ProcessChildren | generate-code_core-templates.js:208-238 | the child loop yields the reference run over the child tables |
| CoreTemplates.ChildrenRunSplit | generate-code_core-templates.js:208-238 | running the child loop on a prefix and then on the rest is running it on all children |
| CoreTemplates.GenerateImplementTemplate | generate-code_core-templates.js:31-239 | one table's run yields the reference files and failure |
| CoreTemplates.WalkOutputPrefix | generate-code_core-templates.js:257-260 | the write requests made by an earlier point of the walk are a prefix of the final ones |
| CoreTemplates.WalkOutputStops | generate-code_core-templates.js:257-260 | after a failure the walk writes nothing more and reports that failure |
| CoreTemplates.TableStepTemplates | generate-code_core-templates.js:257-260 | every table reached without failure gets its class-template files before its properties files |
| CoreTemplates.GenerateCoreTemplates | generate-code_core-templates.js:257-260 | the script yields the reference walk over the selected tables, in key order |
| Filters.KindOf | generate-filters.js:32-77 | a column name takes exactly one branch: the five base columns are skipped, `Is_Default` and `Is_System` are flags, `UID` is a GUID key, any other name containing `_ID` is a foreign key, the rest are plain |
| Filters.Rewritten | generate-filters.js:50-65 | processing a column changes nothing of it but its .NET type, which becomes `string` exactly for the handled key columns |
| Filters.RewrittenAll | generate-filters.js:216-220 | after the `forEach` every column of the list is its rewritten self, in order |
| Filters.ColumnType | generate-filters.js:93-103 | the property type gets `?` exactly when the type is not `string` and the column is not nullable |
| Filters.ConditionTemplate | generate-filters.js:127-147 | an encrypted column takes the encrypted condition; otherwise `string`, the two DateTime types and every other type each take their own condition |
| Filters.AddOnce | generate-filters.js:40-132 | the item is present afterwards, the list only grows, the item's count rises only when it was absent, and no other count changes |
| Filters.SkippedColumn | generate-filters.js:33-64 | a base column, and the parent's key in a child table, add nothing and are not rewritten |
| Filters.FlagColumn | generate-filters.js:39-125 | `Is_Default` and `Is_System` add their filter interface once and no property, but still one parameter name, one short column and one condition, and no setter |
| Filters.KeyColumn | generate-filters.js:49-75 | a handled key column becomes `string`, adds exactly one list setter and one setter, never brings the date usings, gets its property, and takes the string condition unless encrypted |
| Filters.NonKeyColumn | generate-filters.js:62-77 | any other column adds no setter |
| Filters.RewriteInvisible | generate-filters.js:50-220 | processing a column that an earlier call rewrote gives the same lists as processing it as read from the database, and two rewrites commute, so the shared mutation never shows in any file |
| Filters.ColumnUsingsOk | generate-filters.js:80-132 | a column keeps every using at most once and the two date usings together, and brings `System` exactly when it has a DateTime type |
| Filters.FlagInterfacesOk | generate-filters.js:39-48 | a flag keeps `IFilter` first and each flag interface at most once |
| Filters.WithColumnConsistent | generate-filters.js:30-155 | one column keeps the lists consistent and only lets them grow |
| Filters.CustomListsKeep | generate-filters.js:160-213 | the custom parameters add one property and one parameter each and touch neither the usings, the interfaces nor the setters |
| Filters.ColumnsListsConsistent | generate-filters.js:216 | the columns of a table keep the lists consistent and only let them grow |
| Filters.Handled | generate-filters.js:33-64 | the handled columns are exactly those not skipped |
| Filters.HandledConcat | generate-filters.js:33-64 | the handled columns keep the column order: the selection distributes over concatenation |
| Filters.HandledOne | generate-filters.js:33-64 | a single column is handled exactly when it is not skipped |
| Filters.PropertyColumns | generate-filters.js:31-111 | the columns that get a property are handled columns other than the two flag columns, no more than the handled ones |
| Filters.ColumnsListsCounts | generate-filters.js:105-154 | one parameter name, one short column and one condition per handled column, and one property per handled column that is not a flag column |
| Filters.AnyDateTimeLast | generate-filters.js:80-90 | a handled DateTime column is among the first columns or is the last one |
| Filters.SystemUsingIffDateTime | generate-filters.js:80-90 | the date usings are present after the columns exactly when they were before or a handled column has a DateTime type after the rewrite |
| Filters.ChildrenRunConsistent | generate-filters.js:219-221 | the child tables keep the lists consistent and only let them grow |
| Filters.ChildrenRunFailureStays | generate-filters.js:219-221 | once a child table is missing the loop stays failed with that error |
| Filters.ChildrenRunKeys | generate-filters.js:219-221 | processing the child tables never adds or removes a table of the shared object |
| Filters.TableRunProperties | generate-filters.js:18-221 | a call keeps the lists consistent with `IFilter` first, keeps the table keys, and puts the custom parameters before any column in every list they touch |
| Filters.FirstMissing | generate-filters.js:219-220 | finds nothing exactly when every child table is present, and otherwise the first absent one |
| Filters.ChildrenRunFails | generate-filters.js:219-221 | a call fails exactly when a configured child table is missing from the tables, and the error names the first such child |
| Filters.SwitchOnName | generate-filters.js:31-77 | the `switch` skips exactly the skipped columns, rewrites the key columns, adds the flag interfaces and setters of the reference step, and suppresses the property exactly for the two flags |
| Filters.ProcessColumn | generate-filters.js:30-155 | one column's handler yields the reference lists and the rewritten column |
| Filters.AddFragments | generate-filters.js:79-154 | the statements after the `switch` add the usings, property, parameter, short column and condition of the reference step |
| Filters.PushOnce | generate-filters.js:40-41 | the guarded push is `AddOnce` |
| Filters.AddDateUsings | generate-filters.js:80-90 | a DateTime column brings `System` and `System.Data.SqlTypes`, once |
| Filters.ChooseCondition | generate-filters.js:127-147 | an encrypted column brings `Jfw.Helpers` once; the chosen condition is the reference condition |
| Filters.ProcessColumns | generate-filters.js:216 | the column loop yields the reference lists and the rewritten columns |
| Filters.ProcessCustomParameters | generate-filters.js:160-213 | the custom-parameter loop yields the reference lists, in key order |
| Filters.WalkRunKeys | generate-filters.js:246-248 | the walk keeps the table keys, so every selected table is found when its turn comes |
| Filters.WalkRunFiles | generate-filters.js:246-248 | without an error the walk writes one file per selected table, in walk order, at `<filters>/<table>Filter<suffix>.cs` |
| Filters.FilterGenerator.constructor | generate-filters.js:10-16 | the generator starts from the given templates, tables and replacements object |
| Filters.FilterGenerator.ProcessChildren | generate-filters.js:219-221 | the child loop yields the reference lists and rewrites each child in the shared tables, failing at the first missing child |
| Filters.FilterGenerator.GenerateFilters | generate-filters.js:18-244 | a call rewrites the shared tables as the reference run does; on success it assigns the nine replacements in order and returns the filled template; on a missing child it leaves only `EntityName` assigned |
| Filters.FilterGenerator.AssignTexts | generate-filters.js:223-239 | the eight texts after `EntityName` are assigned in source order over the shared replacements object |
| Filters.FilterGenerator.Generate | generate-filters.js:246-248 | the walk yields the reference files, shared tables, replacements and stopping error |
| Filters.WalkRunFailureStays | generate-filters.js:246-248 | a walk that met an error writes nothing more |
| CoreModels.InterfaceContents | generate-core-models.js:17-27 | one interface definition per table, in key order, each with the table's name filled in |
| CoreModels.EveryTableHasInterface | generate-core-models.js:20-27 | every table of the data gets its interface in the shared interfaces file |
| CoreModels.GenerateInterfaces | generate-core-models.js:15-36 | the loop over the tables yields the interfaces file: its path and the template filled with the joined definitions |
| CoreModels.ModelNames | generate-core-models.js:51-53 | one `I<child>Model` per child table, in order |
| CoreModels.InheritedInterfaces | generate-core-models.js:45-54 | an unconfigured table inherits nothing; a configured one inherits one model interface per child table, in order |
| CoreModels.IgnoredColumns | generate-core-models.js:47-58 | `ID` is always ignored first; a child table also ignores its configured columns, and every other table ignores only `ID` |
| CoreModels.Setter | generate-core-models.js:64 | the setter is empty exactly for read-only columns and `set; ` otherwise |
| CoreModels.ModelColumnType | generate-core-models.js:65-76 | the model type gets `?` exactly when the column is not nullable, not `string`, and not `Is_System` or a date audit column |
| CoreModels.Kept | generate-core-models.js:62 | the columns that get a definition are exactly those not ignored |
| CoreModels.KeptConcat | generate-core-models.js:62 | the kept columns keep the column order: the selection distributes over concatenation |
| CoreModels.KeptOne | generate-core-models.js:62 | a single column is kept exactly when it is not ignored |
| CoreModels.ColumnTexts | generate-core-models.js:90-104 | one filled column definition per kept column, in order |
| CoreModels.ModelColumnsTexts | generate-core-models.js:61-105 | the column definitions are those of the kept columns, in column order, encrypted columns from the encrypted definition |
| CoreModels.ModelUsings | generate-core-models.js:78-88 | `System` is the only using, added at most once, and present exactly when a kept column has a DateTime type |
| CoreModels.ModelFile | generate-core-models.js:40-115 | a table's model interface is requested at `I<table>Model<suffix>.cs` in the model-interfaces directory |
| CoreModels.FamilyChildIgnores | generate-core-models.js:56-62 | for a configured family, a child's model interface never shows `ID`, the parent's key or the four audit columns |
| CoreModels.HandleModelColumn | generate-core-models.js:61-105 | one column's callback changes usings and definitions exactly as the reference step |
| CoreModels.GenerateModelInterface | generate-core-models.js:38-116 | one table yields exactly its reference model file |
| CoreModels.ModelFiles | generate-core-models.js:120-122 | one model file per walked table |
| CoreModels.ModelFilesAt | generate-core-models.js:120-122 | the walk's i-th file is the i-th selected table's model interface, path and content, at that table's model path |
| CoreModels.GenerateCoreModels | generate-core-models.js:118-122 | the script writes the interfaces file and then one model file per selected table, in key order |
| SpConstants.ProcedureConstants | generate-code_sp-constants.js:26-37 | one constant per procedure, in key order, each the definition filled with the procedure's key and schema-qualified name |
| SpConstants.ConstantsContent | generate-code_sp-constants.js:15-38 | a table without `procedures` yields nothing; otherwise its constants |
| SpConstants.GetStoredProceduresConstantsContent | generate-code_sp-constants.js:15-38 | the `map` loop yields the reference constants, or nothing for a table without procedures |
| SpConstants.AllConstantsCount | generate-code_sp-constants.js:66-81 | the constants file holds exactly one constant per procedure of every table |
| SpConstants.AllConstantsPrefix | generate-code_sp-constants.js:66-81 | the constants of earlier tables come first, unchanged, in table order |
| SpConstants.XmlTerm | generate-code_sp-constants.js:56 | the XML term is the parameter name, followed by `*` exactly when the parameter is required |
| SpConstants.XmlItems | generate-code_sp-constants.js:53-59 | one item per parameter, in order: its term and its SQL type with length |
| SpConstants.XmlNodes | generate-code_sp-constants.js:48-60 | one procedure node per procedure, in key order, keyed by the procedure's key and listing its parameters |
| SpConstants.ProcedureItems | generate-code_sp-constants.js:53-59 | the parameter loop yields the reference items |
| SpConstants.GenerateStoredProcedureXmlNodes | generate-code_sp-constants.js:40-61 | the procedure loop yields the reference nodes |
| SpConstants.NodesMatchConstants | generate-code_sp-constants.js:66-81 | the XML document has exactly as many procedure nodes as the constants file has constants |
| SpConstants.GenerateSpConstants | generate-code_sp-constants.js:63-90 | the script yields the constants file and the XML nodes of every table with procedures, in key order |
| SpList.CustomParameterLines | generate-sp_list-scripts.js:39-48 | one parameter line per custom parameter, in key order, from its SQL name and type |
| SpList.CustomFilterLines | generate-sp_list-scripts.js:39-53 | one filter per custom parameter, with tabs expanded to four spaces, in reverse key order because each is put in front |
| SpList.WithLinesAdds | generate-sp_list-scripts.js:20-29 | the duplicate-checked push keeps the old list as a prefix, adds only lines not yet present, each once, and loses no requested line |
| SpList.ParametersDeduplicated | generate-sp_list-scripts.js:20-88 | the custom parameter lines come first and unchecked; every later line occurs once in the whole list; the lines present are exactly the custom lines and the lines the columns ask for |
| SpList.FilterCount | generate-sp_list-scripts.js:31-88 | one filter per custom parameter and one per column other than the four audit columns |
| SpList.CustomFiltersFirst | generate-sp_list-scripts.js:50-52 | the custom filters come before every column filter |
| SpList.ColumnContribution | generate-sp_list-scripts.js:56-88 | audit columns add nothing; key columns (`ID` or containing `_ID`) a `VARCHAR(MAX)` parameter and a list filter; DateTime columns `_From` and `_To` parameters of the upper-cased type and one date-range filter; every other column a parameter of its upper-cased type and a plain filter |
| SpList.CustomFragments | generate-sp_list-scripts.js:39-54 | the custom-parameter loop yields the reference parameter lines and filters |
| SpList.BuildFragments | generate-sp_list-scripts.js:15-88 | the parameter and filter lists of one table are the reference lists |
| SpList.PushLines | generate-sp_list-scripts.js:20-29 | pushing a column's lines with the duplicate check is the reference push |
| SpList.ListTemplate.constructor | generate-sp_list-scripts.js:10-11 | the template module starts with its three replacement keys |
| SpList.ListTemplate.GetStoredProcedureContent | generate-sp_list-scripts.js:15-95 | the three shared replacements are all overwritten with this table's texts, so the script depends only on this table, never on an earlier call |
| SpList.ListTemplate.Generate | generate-sp_list-scripts.js:97-107 | the file is the scripts of the selected tables, in key order, joined by a blank line; the shared replacements are left holding the last table's texts, or unchanged when no table is walked |
| SpList.ListScriptsAt | generate-sp_list-scripts.js:100-103 | the walk yields one script per selected table, in order, the i-th being that table's script |
| SpList.OverwriteAll | generate-sp_list-scripts.js:90-92 | assigning the three keys of a replacements object that has exactly those keys leaves exactly the three new values |
| SpView.ChildClauses | generate-sp-view-scripts.js:115-135 | one clause per child table, in `childTables` order, filled with the child's and the parent's names and aliases |
| SpView.ViewReplacements | generate-sp-view-scripts.js:142-151 | after a successful call the shared replacements hold exactly the eight keys, in first-assignment order, with this table's texts |
| SpView.OthersLeftOut | generate-sp-view-scripts.js:14-165 | a table outside Brand, Device and User adds nothing to the output |
| SpView.AllowListConfigured | generate-sp-view-scripts.js:14-19 | every allow-listed table has a `spConfig` entry, so the shipped configuration never reads an undefined `spCustom` |
| SpView.ParametersNotDeduplicated | generate-sp-view-scripts.js:30-37 | unlike the list script, every parameter line is pushed whatever is already there: the count is the sum of the columns' counts |
| SpView.ColumnContribution | generate-sp-view-scripts.js:48-88 | a skipped column adds nothing; a key column a `VARCHAR(MAX)` parameter and a list filter with its own table's alias; a DateTime column `_From` and `_To` parameters and a date-range filter; any other column a parameter and a plain filter |
| SpView.SkippedColumns | generate-sp-view-scripts.js:48-63 | audit columns are skipped everywhere; in a child table also `ID`, `UID` and the parent's key; in the parent table nothing else |
| SpView.ProcessColumn | generate-sp-view-scripts.js:26-89 | one column appends exactly its parameter and filter lines |
| SpView.ProcessColumns | generate-sp-view-scripts.js:112-139 | the column loop appends the columns' lines in column order |
| SpView.ProcessChildren | generate-sp-view-scripts.js:115-140 | the child loop yields the reference shares, failing at the first child missing from the tables |
| SpView.ProcessChild | generate-sp-view-scripts.js:116-139 | one child adds its FROM, SELECT and keyword clauses, then its columns with its own alias |
| SpView.FailureStaysShares | generate-sp-view-scripts.js:115-140 | once a child has failed, the children after it change nothing |
| SpView.ChildrenSharesClauses | generate-sp-view-scripts.js:125-135 | on success the FROM, SELECT and keyword clauses follow `childTables` order |
| SpView.ChildrenSharesKeepPrefix | generate-sp-view-scripts.js:115-140 | the parameter and filter lines of the custom parameters and the parent's columns stay first |
| SpView.ChildrenSharesLast | generate-sp-view-scripts.js:115-140 | one more child keeps an earlier failure, and otherwise fails exactly when that child is missing |
| SpView.ChildrenSharesFail | generate-sp-view-scripts.js:137 | the child loop fails exactly when some child table is missing from the tables |
| SpView.ChildrenSharesFirstMissing | generate-sp-view-scripts.js:137 | a failure names the first missing child table |
| SpView.BuildFragments | generate-sp-view-scripts.js:19-140 | the lists of an allow-listed table are the reference lists: custom parameters first, then the parent's columns, then each child's clauses and columns |
| SpView.ViewTemplate.constructor | generate-sp-view-scripts.js:13 | the template module starts with its five replacement keys |
| SpView.ViewTemplate.GetStoredProcedureContent | generate-sp-view-scripts.js:16-154 | outside the allow list it returns nothing and changes nothing; an allow-listed table without configuration or with a missing child fails; otherwise the shared replacements become this table's eight texts and the script is the filled template |
| SpView.ViewTemplate.Generate | generate-sp-view-scripts.js:156-169 | the file is the non-empty scripts of the selected tables, in key order, joined by a blank line, or the first error; the shared replacements are left as the last table that reached them set them before the walk ended, or unchanged |
| SpView.ReplacementsAfterFailureStays | generate-sp-view-scripts.js:156-169 | once the walk has failed, the later tables no longer change the shared replacements |
| SpView.FailureStays | generate-sp-view-scripts.js:159-165 | once a table has failed, later tables do not change the outcome |
| SpView.AssignmentsGiveViewReplacements | generate-sp-view-scripts.js:142-151 | the eight assignments in source order give the same replacements whether this is the first call or a later one |
| SpView.FirstFourAssignments | generate-sp-view-scripts.js:142-146 | the first four assignments rewrite existing keys in place |
| SpView.NextTwoAssignments | generate-sp-view-scripts.js:144-146 | the filter and keyword-filter assignments rewrite existing keys in place |
| SpView.FirstTwoAssignments | generate-sp-view-scripts.js:142-143 | the precondition and parameter assignments rewrite existing keys in place |
| SpView.LastFourAssignments | generate-sp-view-scripts.js:147-151 | the last four assignments add the three child-era keys on the first call only |
| SpView.LastFourFirstCall | generate-sp-view-scripts.js:147-151 | on the first call the two clause keys and `entityAlias` are new and go last, in assignment order |
| SpView.LastFourLaterCall | generate-sp-view-scripts.js:147-151 | on a later call every key exists and is rewritten in place |
| SpView.RewriteInPlace | generate-sp-view-scripts.js:142-151 | two assignments to keys already present rewrite exactly those entries and keep the key order |
| SpInsert.Kept | generate-sp-insert-scripts.js:24-31 | the columns that get lines are exactly those other than `ID`, `UID` and the four audit columns |
| SpInsert.KeptConcat | generate-sp-insert-scripts.js:24-31 | the kept columns keep the column order: the selection distributes over concatenation |
| SpInsert.KeptOne | generate-sp-insert-scripts.js:24-31 | a single column is kept exactly when its name is not skipped |
| SpInsert.LinesParallel | generate-sp-insert-scripts.js:19-74 | the parameter, column and value lists have one line per kept column, and line `i` of each is made from the same column with the same replacements |
| SpInsert.ProcessColumn | generate-sp-insert-scripts.js:19-74 | one column of the `forEach` adds nothing for a skipped column and otherwise its three lines with the default clause the statements leave |
| SpInsert.BuildLines | generate-sp-insert-scripts.js:15-74 | the column loop yields the reference lines |
| SpInsert.NullableWithoutDefault | generate-sp-insert-scripts.js:44-46 | a nullable column without default gets ` = null`: the unconditional assignment on line 44 means the ` = NULL` fallback never applies |
| SpInsert.DefaultClauseNotEmpty | generate-sp-insert-scripts.js:34-46 | every kept column's default clause starts with ` = ` |
| SpInsert.InsertScriptsAt | generate-sp-insert-scripts.js:87-90 | the walk yields one script per selected table, in order, the i-th being that table's script |
| SpInsert.ReplacementKeysDistinct | generate-sp-insert-scripts.js:76-79 | the four assigned keys are distinct, so each assignment rewrites its own entry |
| SpInsert.FourPuts | generate-sp-insert-scripts.js:76-79 | the four assignments, on a replacements object with exactly the four keys, leave exactly the table's four values |
| SpInsert.InsertTemplate.constructor | generate-sp-insert-scripts.js:12 | the template module starts with its four replacement keys |
| SpInsert.InsertTemplate.GetStoredProcedureContent | generate-sp-insert-scripts.js:14-82 | the four shared replacements are overwritten, so the script depends on this table only, never on an earlier call |
| SpInsert.InsertTemplate.Generate | generate-sp-insert-scripts.js:84-94 | the file is every selected table's script, in key order, joined by a blank line; the shared replacements are left holding the last table's values, or unchanged when no table is walked |
| SpInsert.InsertTemplate.Walk | generate-sp-insert-scripts.js:87-90 | the walk callback pushes each table's script, in order; afterwards the shared replacements hold the last table's values, or are unchanged when no table is walked |
| SpUpdate.DefaultClause | generate-sp-update-scripts.js:31-34 | a truthy default gives ` = <default>`, otherwise a nullable column gives ` = NULL`, and the clause is empty exactly when there is no truthy default and the column is not nullable |
| SpUpdate.LinesParallel | generate-sp-update-scripts.js:18-56 | the parameter and SET lists have one line per kept column, and line `i` of both is made from the same column with the same replacements |
| SpUpdate.NoSpecialFlags | generate-sp-update-scripts.js:22-35 | `Is_Default` and `Is_System` are kept and get no default clause here, where the insert script gives them ` = 0` |
| SpUpdate.ProcessColumn | generate-sp-update-scripts.js:18-56 | one column of the `forEach` adds nothing for a skipped column and otherwise its two lines |
| SpUpdate.BuildLines | generate-sp-update-scripts.js:15-56 | the column loop yields the reference lines |
| SpUpdate.UpdateScriptsAt | generate-sp-update-scripts.js:68-71 | the walk yields one script per selected table, in order, the i-th being that table's script |
| SpUpdate.UpdateTemplate.constructor | generate-sp-update-scripts.js:12 | the template module starts with its three replacement keys |
| SpUpdate.UpdateTemplate.GetStoredProcedureContent | generate-sp-update-scripts.js:14-63 | the three shared replacements are overwritten, so the script depends on this table only |
| SpUpdate.UpdateTemplate.Generate | generate-sp-update-scripts.js:65-73 | the file is every selected table's script, in key order, joined by a blank line; the shared replacements are left holding the last table's values, or unchanged when no table is walked |
| SpDelete.VariantOf | generate-sp-delete-scripts.js:19-29 | a table gets the by-status template exactly when it is a soft-delete table, the commented one exactly when it is otherwise a configured child table, and the plain one otherwise |
| SpDelete.DeleteScripts | generate-sp-delete-scripts.js:35-38 | one script per selected table, in order, the i-th being that table's script |
| SpDelete.SoftDeleteAndChildTablesDisjoint | generate-sp-delete-scripts.js:7-8 | no soft-delete table is a configured child table, so the order of the two checks does not matter |
| SpDelete.ConfiguredChildrenCommented | generate-sp-delete-scripts.js:24-27 | every child table of a configured parent gets the commented-out template |
| SpDelete.DeleteTemplate.constructor | generate-sp-delete-scripts.js:14 | the template module starts with its one replacement key |
| SpDelete.DeleteTemplate.GetStoredProcedureContent | generate-sp-delete-scripts.js:16-30 | the shared `entityName` is set to this table and the script is its variant's template filled with it |
| SpDelete.DeleteTemplate.Generate | generate-sp-delete-scripts.js:32-40 | the file is every selected table's script, in key order, joined by a blank line; `entityName` is left as the last table's name, or unchanged when no table is walked |
| SpDelete.DeleteTemplate.Walk | generate-sp-delete-scripts.js:35-38 | the walk callback pushes each table's script, in order; afterwards the shared replacements are exactly `entityName` set to the last table, or unchanged when no table is walked |
| TypeProcedureChecker.ParameterColumns | sql-checkers/type-procedure-checker.js:31-72 | the columns a procedure kind takes are exactly the table's columns that its case of the column loop does not ignore |
| TypeProcedureChecker.RangeColumns | sql-checkers/type-procedure-checker.js:38-47 | the range columns are exactly the audit dates and the other `datetime` columns |
| TypeProcedureChecker.IgnoreCountSplit | sql-checkers/type-procedure-checker.js:29-72 | every column is either ignored or taken, so `ignoreColumnsCount` plus the taken columns is the column count |
| TypeProcedureChecker.RangeCountIsRangeColumns | sql-checkers/type-procedure-checker.js:38-47 | for a list procedure the loop adds one to `expectedColumns` per range column |
| TypeProcedureChecker.ExpectedCount | sql-checkers/type-procedure-checker.js:29-111 | insert expects one parameter per column it takes; update the same less two for `User`; list one per taken column, one more per range column, the five paging and sorting parameters, two more for `EmailTracking` and `Permission`; any other kind one per column |
| TypeProcedureChecker.InsertExpectedBounds | sql-checkers/type-procedure-checker.js:49-59 | an insert never expects a negative count nor more parameters than the table has columns |
| TypeProcedureChecker.CountColumns | sql-checkers/type-procedure-checker.js:29-72 | the column loop leaves `ignoreColumnsCount` at the number of ignored columns and `expectedColumns` at the column count plus the range columns |
| TypeProcedureChecker.ExpectedColumns | sql-checkers/type-procedure-checker.js:29-111 | the column loop followed by the adjustments yields the reference expected count |
| TypeProcedureChecker.CountReports | sql-checkers/type-procedure-checker.js:74-122 | `Get` and `Delete` are warned exactly when they do not take one parameter; every other procedure exactly when its parameter count differs from the expected one, with both counts in the warning |
| TypeProcedureChecker.FindByPascal | sql-checkers/type-procedure-checker.js:138-140 | no column is found exactly when no column has the parameter's Pascal-case name; otherwise the first such column is found |
| TypeProcedureChecker.Find | sql-checkers/type-procedure-checker.js:138-140 | the search loop finds the same column as `find` |
| TypeProcedureChecker.TypeReport | sql-checkers/type-procedure-checker.js:128-157 | a parameter is reported exactly when it is not a paging parameter, a column matches it and their SQL types differ |
| TypeProcedureChecker.MismatchedParameters | sql-checkers/type-procedure-checker.js:128-157 | the reported parameters are exactly the mismatched ones |
| TypeProcedureChecker.MismatchedConcat | sql-checkers/type-procedure-checker.js:128-157 | the reported parameters keep the parameter order: the selection distributes over concatenation |
| TypeProcedureChecker.MismatchedOne | sql-checkers/type-procedure-checker.js:128-157 | a single parameter is reported exactly when it is mismatched |
| TypeProcedureChecker.TypeReportsExact | sql-checkers/type-procedure-checker.js:128-157 | one report per mismatched parameter, in order, naming the parameter, its type and the matched column's type |
| TypeProcedureChecker.TypeReportsEmpty | sql-checkers/type-procedure-checker.js:128-157 | a procedure passes the type check exactly when none of its parameters is mismatched |
| TypeProcedureChecker.CheckParameters | sql-checkers/type-procedure-checker.js:128-157 | the parameter loop yields the reference type reports |
| TypeProcedureChecker.CheckProcedure | sql-checkers/type-procedure-checker.js:19-157 | one procedure's checks yield its count warning, then its type reports |
| TypeProcedureChecker.TableReports | sql-checkers/type-procedure-checker.js:5-158 | a table without procedures is reported once and nothing else; a table with procedures never gets that report |
| TypeProcedureChecker.ProceduresReportsNoTable | sql-checkers/type-procedure-checker.js:12-15 | the procedure checks never report a missing procedures object |
| TypeProcedureChecker.CleanProcedureSilent | sql-checkers/type-procedure-checker.js:74-157 | a procedure with the right count and no mismatched parameter adds nothing to its table's reports |
| TypeProcedureChecker.CheckTable | sql-checkers/type-procedure-checker.js:5-158 | one table's checks yield its reference reports |
| TypeProcedureChecker.CheckAll | sql-checkers/type-procedure-checker.js:1-159 | every key of the table data is checked, in key order, whatever the include and exclude lists say |

## Left out

- File output (`saveTextToFile`, `fs.writeFile`): each generator returns its write requests, the file content and, where the script computes it, the path.
  `fs.writeFile` only starts an asynchronous write, so when a script stops on an uncaught error the pending writes are lost; the model keeps the requests made before the error and does not say which of them reach the disk.
- Reading `tables.json`, `config.database.json` and `config.local.json`: their contents are parameters.
- `urlExists` and its HTTP request: the network is outside the model.
- `jsonStringifyOrder` and the JSON serialisation of the table data: the model stops at the table data value.
- The `mssql` connection and the two SQL queries in `generate-data-from-database.js`: their result rows are parameters.
- The XML serialisation by `xmlbuilder2` in `generate-code_sp-constants.js`: the model builds the node tree, not its text.
- Console output: the checker's log lines are modelled as `Report` values; the other scripts' progress messages are left out.
- The template modules under `templates/`: their texts and definitions are parameters of each generator.
  Each template class starts with the replacement keys that its template module declares.
  Their texts are not part of this model.
- `$` patterns in the replacement argument of `String.prototype.replaceAll`: no template value uses them, so substitution is literal.
- `toUpperCase` is modelled on ASCII letters only.
- lodash `camelCase` and `upperFirst`: they are function parameters of the generators that use them, and nothing is assumed of them.
- An SQL type missing from the type table:
  - The source yields `undefined`, and calling `.includes` on it throws (`generate-code_entities.js:123`, `generate-code_entities.js:256`, `generate-code_core-templates.js:66`).
  - The model carries the text `undefined` instead of stopping.
- The memory-class generation in `generate-code_core-templates.js:248-255` and `generate-code_core-templates.js:262-265` is commented out in the source and is not modelled.
- Feature toggles that no core script reads are carried in `Config` but have no effect in the model.
- `Config.Configuration`: `databaseConfig` is kept as the server name string that `config.js` exports, not as the whole database object.
- A stored-procedures object is assumed to have distinct keys, as a JSON object does.
- CoreModels.ModelFiles: states only the number of files; each file is stated by `CoreModels.ModelFilesAt`.
