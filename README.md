# Leap ORM: dialect renderers, lock builders, ORM fields and enumerations

This project is a Dafny model of part of the Leap ORM for PHP (bluesnowman/leap-orm):

- **SQL dialect renderers.** These turn what a statement builder has accumulated into SQL text.
  - The **Oracle UPDATE** renderer. Oracle has no ORDER BY, LIMIT or OFFSET on UPDATE, so the renderer updates a subquery. It pages that subquery with nested `ROWNUM` filters.
  - The same renderer in the **older plugin** tree (`Builder::statement`, which returns the text itself).
  - The **MS SQL DELETE** renderer. It selects the rows with `TOP n` in a common table expression and deletes from that, under an alias that never equals the table's name.
- **Lock builders** for DB2 and SQLite.
  - `add` chooses a lock mode from a list of hints and stores a statement.
  - `acquire` runs the stored statements on the connection.
  - `release` commits or rolls back.

  The connection is modelled as an append-only log of the calls made on it.
- **ORM fields.**
  - `\Leap\Core\DB\ORM\Field` has a value and a metadata array, with its `__get`/`__set` property protocol, `reset` and `validate`.
  - Its `Blob` specialisation builds its metadata from options, wraps strings into byte strings, and requires instances of the declared type.
- **Enumerations.** `\Leap\Core\Enum` constants are compared by ordinal, print as their value, and can never be cloned.

How the model is organised:

- Renderers are pure functions from a `BuilderData` record to text, such as `OracleUpdate.UpdateText` and `MsSqlDelete.DeleteText`.
- Each renderer has a `method` that builds the text by successive appends, as the source does. The method is proved equal to that function.
- The WHERE-joining loop appears five times in the source. Every copy has the same logic, so it is modelled once as `SqlBuilder.AppendWhere`. That method is proved against a piecewise definition, `SqlBuilder.WhereText`.
- The lock builders and `Field` are classes whose methods update their fields (`data`, `value`, `metadata`) and the connection's `log`.
- Every class method is proved against a pure transition function: `Store`, `Added`, `SetProperty`, `ResetState`, `BlobInit`. The properties the source promises are proved as lemmas about those functions.

Behaviour of the code worth knowing, which the model keeps:

- A lock-mode hint that matches no word is silently ignored.
- SQLite's `acquire` executes the stored BEGIN statement and never calls `begin_transaction`.
- `add` after `acquire` is not checked.

## Model

| member | source | states |
|---|---|---|
| Text.DecimalRoundTrip | classes/Leap/Plugin/DB/Oracle/Update/Builder.php:67-76 | The digits interpolated for a row bound read back as exactly that number, so the SQL carries the computed bounds. |
| Text.Decimal | classes/Leap/Plugin/DB/Oracle/Update/Builder.php:70-76 | Integer interpolation gives a nonempty run of digits with no leading zero except for 0. |
| SqlBuilder.AppendWhere | classes/Leap/Plugin/DB/Oracle/Update/Builder.php:51-61 | The WHERE loop appends nothing for an empty list. Otherwise it appends ' WHERE ' and then the piecewise-defined join of the entries. |
| SqlBuilder.WhereTextSnoc | classes/Leap/Plugin/DB/Oracle/Update/Builder.php:54-60 | One more entry adds exactly its own text at the end: its fragment, preceded by ' <connector> ' iff the list was nonempty, the previous fragment is not an opening parenthesis and this one is not a closing parenthesis. Earlier text is unchanged. |
| SqlBuilder.ConnectorPlacement | classes/Leap/Plugin/DB/Oracle/Update/Builder.php:55-59 | No connector is written before the first entry, after an opening parenthesis, or before a closing parenthesis. One is written in every other case. |
| SqlBuilder.WhereTextStartsWithFirstFragment | classes/Leap/Plugin/DB/MsSQL/Delete/Builder.php:58-67 | The first entry's connector is never written: the joined list starts with the first fragment. |
| SqlBuilder.FlatWhereIsImplode | classes/Leap/Plugin/DB/MsSQL/Delete/Builder.php:61-67 | Without parenthesis markers and with one connector, the joined list is implode(' <connector> ', fragments), so fragments keep insertion order. |
| SqlBuilder.GroupExample | classes/Leap/Plugin/DB/MsSQL/Delete/Builder.php:61-67 | The entries a, OR (, b, AND c, ) are joined as 'a OR (b AND c)'. |
| OracleUpdate.RowWindow | classes/Leap/Plugin/DB/Oracle/Update/Builder.php:67-69 | With both bounds the window starts at row offset, never ends before it starts, and holds exactly limit rows. |
| OracleUpdate.Command | classes/Leap/Plugin/DB/Oracle/Update/Builder.php:47-111 | Builder::command's successive appends produce exactly UpdateText for the builder data and the terminated flag. |
| OracleUpdate.InnerSelect | classes/Leap/Plugin/DB/Oracle/Update/Builder.php:49-65 | The subquery path first builds 'SELECT * FROM <table>' followed by the WHERE list and the ORDER BY list. |
| OracleUpdate.WrapRows | classes/Leap/Plugin/DB/Oracle/Update/Builder.php:67-77 | The ROWNUM step wraps the inner query in two filters when both bounds are given, in one filter for a single bound, and not at all otherwise. |
| OracleUpdate.PaginateEncloses | classes/Leap/Plugin/DB/Oracle/Update/Builder.php:67-77 | The wrapping encloses the inner query unchanged, between an opening and a closing text that depend on the bounds alone. |
| OracleUpdate.PlainUpdate | classes/Leap/Plugin/DB/Oracle/Update/Builder.php:85-103 | With no ORDER BY and no positive limit or offset, the text is 'UPDATE <table>' with SET, then WHERE, and no subquery or ROWNUM. |
| OracleUpdate.PaginatedUpdate | classes/Leap/Plugin/DB/Oracle/Update/Builder.php:48-83 | Otherwise the text is 'UPDATE (' + opening + inner query + closing + ')' + SET, and it starts with 'UPDATE (SELECT * FROM '. |
| OracleUpdate.SelectLayout | classes/Leap/Plugin/DB/Oracle/Update/Builder.php:49-65 | The inner query starts with 'SELECT * FROM <table>' and its WHERE list, and ends with the ORDER BY list. |
| OracleUpdate.BothBounds | classes/Leap/Plugin/DB/Oracle/Update/Builder.php:67-71 | With limit and offset the filters are ROWNUM <= offset+limit-1 and "rn" >= offset. Read back from the text, these span exactly limit rows starting at offset. |
| OracleUpdate.SingleBound | classes/Leap/Plugin/DB/Oracle/Update/Builder.php:72-77 | A limit alone gives one filter, ROWNUM <= limit, and an offset alone one filter, ROWNUM >= offset; both numbers round-trip. ORDER BY alone gives the bare subquery. |
| OracleUpdate.TerminatedText | classes/Leap/Plugin/DB/Oracle/Update/Builder.php:105-107 | Terminating appends exactly one ';'. |
| OracleUpdate.WindowExample | classes/Leap/Plugin/DB/Oracle/Update/Builder.php:67-70 | Limit 10 with offset 20 gives the window 20..29 and the filters ROWNUM <= 29 and "rn" >= 20. |
| OracleUpdateLegacy.Statement | src/classes/Leap/Plugins/DB/Oracle/Update/Builder.php:47-110 | The older plugin's Builder::statement returns, for the same data, exactly the text the newer Builder::command wraps in its Command. |
| MsSqlDelete.Alias | classes/Leap/Plugin/DB/MsSQL/Delete/Builder.php:46 | The CTE alias is 't0' or 't1' and never the table's name. |
| MsSqlDelete.Command | classes/Leap/Plugin/DB/MsSQL/Delete/Builder.php:45-90 | Builder::command's successive appends produce exactly DeleteText for the builder data and the terminated flag. |
| MsSqlDelete.OpensWithSelect | classes/Leap/Plugin/DB/MsSQL/Delete/Builder.php:48-56 | The text begins 'WITH <alias> AS (SELECT', then the TOP clause, then ' * FROM <table>'. |
| MsSqlDelete.AliasOccurrences | classes/Leap/Plugin/DB/MsSQL/Delete/Builder.php:46-82 | The name the CTE is declared under (characters 5-6) and the name the DELETE targets (the end of the text) are the same alias, and it differs from the table. |
| MsSqlDelete.TopAfterSelect | classes/Leap/Plugin/DB/MsSQL/Delete/Builder.php:52-54 | With a positive limit, ' TOP <limit>' directly follows 'SELECT'. |
| MsSqlDelete.StarAfterSelect | classes/Leap/Plugin/DB/MsSQL/Delete/Builder.php:52-56 | Without a positive limit, ' * FROM ' directly follows 'SELECT'. |
| MsSqlDelete.TopIffPositiveLimit | classes/Leap/Plugin/DB/MsSQL/Delete/Builder.php:52-56 | ' TOP ' follows 'SELECT' if and only if the limit is positive. |
| MsSqlDelete.OffsetIgnored | classes/Leap/Plugin/DB/MsSQL/Delete/Builder.php:45-90 | The offset has no influence on the DELETE text. |
| MsSqlDelete.TerminatedText | classes/Leap/Plugin/DB/MsSQL/Delete/Builder.php:84-86 | Terminating appends exactly one ';'. |
| LockCommon.ResolveMode | classes/Leap/Plugin/DB/DB2/Lock/Builder.php:62-69 | The hint loop starts from EXCLUSIVE, and every hint matching a word overwrites the mode with its upper-cased self. NULL hints keep EXCLUSIVE. |
| LockCommon.LastAcceptedWins | classes/Leap/Plugin/DB/DB2/Lock/Builder.php:64-68 | The last matching hint decides the mode, whatever follows it. |
| LockCommon.NoAcceptedHint | classes/Leap/Plugin/DB/DB2/Lock/Builder.php:62-69 | Without a matching hint the mode stays EXCLUSIVE. |
| LockCommon.ModeIsListed | classes/Leap/Plugin/DB/SQLite/Lock/Builder.php:56-63 | The mode is EXCLUSIVE or one of the accepted words, possibly followed by the newline the pattern's `$` lets through. |
| LockCommon.LengthMismatchIgnored | classes/Leap/Plugin/DB/DB2/Lock/Builder.php:65 | The anchored pattern ignores a hint whose length fits no word (nor a word plus a newline), such as one that merely contains a word. |
| LockCommon.ReleaseEvent | classes/Leap/Plugin/DB/DB2/Lock/Builder.php:84-95 | Release rolls back if and only if the upper-cased method is 'ROLLBACK'. It commits in every other case, including '' and 'COMMIT'. |
| LockCommon.Release | classes/Leap/Plugin/DB/SQLite/Lock/Builder.php:77-88 | Release appends exactly one event to the connection: a rollback when the upper-cased method is 'ROLLBACK', and a commit otherwise. |
| LockCommon.ReleaseExamples | classes/Leap/Plugin/DB/DB2/Lock/Builder.php:85-92 | release('') and release('commit') commit. release('rollback') and release('RollBack') roll back. release('rollback ') commits. |
| LockCommon.Db2LaterHintWins | classes/Leap/Plugin/DB/DB2/Lock/Builder.php:64-68 | Of the hints 'share' then 'exclusive', the later wins: EXCLUSIVE. |
| LockCommon.Db2ShareSelected | classes/Leap/Plugin/DB/DB2/Lock/Builder.php:64-68 | The hint 'Share' after 'exclusive' selects SHARE. |
| LockCommon.Db2DefaultMode | classes/Leap/Plugin/DB/DB2/Lock/Builder.php:62-69 | 'IN SHARE MODE', NULL hints and an empty list all leave EXCLUSIVE. |
| LockCommon.SqliteExamples | classes/Leap/Plugin/DB/SQLite/Lock/Builder.php:56-63 | SQLite ignores 'SHARE'. For 'immediate' then 'SHARE' the mode is IMMEDIATE. |
| Db2Lock.Find | classes/Leap/Plugin/DB/DB2/Lock/Builder.php:71 | The position of a key in the keyed array is its first occurrence; none means the key is absent. |
| Db2Lock.StoreDistinct | classes/Leap/Plugin/DB/DB2/Lock/Builder.php:71 | Assigning $this->data[$table] keeps the array's keys distinct. |
| Db2Lock.StoreKeepsOthers | classes/Leap/Plugin/DB/DB2/Lock/Builder.php:71 | Re-adding a present table keeps the key order. A new table is appended last. No other entry moves or changes. |
| Db2Lock.StoreThenLookup | classes/Leap/Plugin/DB/DB2/Lock/Builder.php:71 | After add, the prepared table maps to its new statement. |
| Db2Lock.StoreLeavesOtherKeys | classes/Leap/Plugin/DB/DB2/Lock/Builder.php:71 | Adding one table leaves the statements of all other tables as they were. |
| Db2Lock.ExecutionsPerEntry | classes/Leap/Plugin/DB/DB2/Lock/Builder.php:44-46 | Acquire executes one statement per stored entry, in the array's order. |
| Db2Lock.Builder.Add | classes/Leap/Plugin/DB/DB2/Lock/Builder.php:59-73 | add stores 'LOCK TABLE <t> IN <mode> MODE;' under the prepared name t, with the mode of the hint loop, and keeps the keys distinct. |
| Db2Lock.Builder.Acquire | classes/Leap/Plugin/DB/DB2/Lock/Builder.php:42-48 | acquire logs one begin and then one execute per stored statement, in order. |
| Db2Lock.Builder.Release | classes/Leap/Plugin/DB/DB2/Lock/Builder.php:84-95 | release logs exactly one commit or rollback. |
| Db2Lock.ShareLockSession | classes/Leap/Plugin/DB/DB2/Lock/Builder.php:42-95 | Running add('users', ['share']), then acquire(), then release('rollback') logs begin, the SHARE lock statement and rollback, with no commit. |
| Db2Lock.ReAddKeepsPosition | classes/Leap/Plugin/DB/DB2/Lock/Builder.php:71 | Adding a, b, then a again leaves a first, holding its later statement, and b second. |
| SqliteLock.Added | classes/Leap/Plugin/DB/SQLite/Lock/Builder.php:64 | add writes slot 0 and nothing else. |
| SqliteLock.AcquireEvent | classes/Leap/Plugin/DB/SQLite/Lock/Builder.php:42 | acquire executes slot 0, or NULL when nothing was ever added. |
| SqliteLock.LastAddWins | classes/Leap/Plugin/DB/SQLite/Lock/Builder.php:55-66 | Of several adds only the last one's hints matter. |
| SqliteLock.OneStatement | classes/Leap/Plugin/DB/SQLite/Lock/Builder.php:64 | Any nonempty sequence of adds leaves exactly one stored statement. |
| SqliteLock.Builder.Add | classes/Leap/Plugin/DB/SQLite/Lock/Builder.php:55-66 | add stores 'BEGIN <mode> TRANSACTION;' in slot 0 with the mode of the hint loop; the table plays no part. |
| SqliteLock.Builder.Acquire | classes/Leap/Plugin/DB/SQLite/Lock/Builder.php:41-44 | acquire logs exactly one execute of slot 0 and no begin. |
| SqliteLock.Builder.Release | classes/Leap/Plugin/DB/SQLite/Lock/Builder.php:77-88 | release logs exactly one commit or rollback. |
| SqliteLock.DeferredThenImmediateSession | classes/Leap/Plugin/DB/SQLite/Lock/Builder.php:41-88 | Running add with 'deferred', add with 'immediate', acquire(), then release() logs the one IMMEDIATE statement and then a commit. |
| SqliteLock.TwoAdds | classes/Leap/Plugin/DB/SQLite/Lock/Builder.php:55-66 | After the adds 'deferred' then 'immediate', slot 0 holds the IMMEDIATE statement. |
| SqliteLock.AcquireWithoutAdd | classes/Leap/Plugin/DB/SQLite/Lock/Builder.php:41-44 | acquire before any add executes NULL. |
| OrmField.Validate | classes/Leap/Core/DB/ORM/Field.php:240-245 | validate accepts every value when no enum is set (on Blob, when the value is also NULL or of the declared type). With an enum list, an accepted value equals (under PHP's loose ==) one of its items. Blob::validate (Blob.php:137-144) rejects a non-NULL value that is not of the declared type. |
| OrmField.SetProperty | classes/Leap/Core/DB/ORM/Field.php:130-157 | __set with a key other than 'value' or 'modified' throws InvalidProperty. A failing __set('value') throws a validation error. A successful __set changes only the 'modified' entry of the metadata, and __set('modified') keeps the value. |
| OrmField.ResetState | classes/Leap/Core/DB/ORM/Field.php:228-231 | reset makes the value the default and sets 'modified' to FALSE. It changes no other entry. |
| OrmField.BlobMetadata | classes/Leap/Core/DB/ORM/Field/Blob.php:42-64 | The Blob's metadata keeps every key of the base constructor's metadata. Every key it holds comes from that metadata or from the options. |
| OrmField.BlobInit | classes/Leap/Core/DB/ORM/Field/Blob.php:41-84 | A constructed Blob holds its default as value and has exactly the option-built keys plus 'default'. A failed construction throws the validation error of the resolved default. |
| OrmField.GetProperty | classes/Leap/Core/DB/ORM/Field.php:104-116 | __get('value') is the value. Any other key is its metadata entry when present, including a NULL entry. Otherwise the call throws InvalidProperty. |
| OrmField.FreshField | classes/Leap/Core/DB/ORM/Field.php:70-80 | A new field has value and default NULL, is unmodified, nullable and savable, has control 'auto' and the given type, and has no other entry. |
| OrmField.NoEnumAcceptsAll | classes/Leap/Core/DB/ORM/Field.php:240-245 | Without an enum every value validates. |
| OrmField.EnumDecides | classes/Leap/Core/DB/ORM/Field.php:241 | With an enum list, a value validates if and only if it loosely equals (==) one of the list's items, as in_array compares by default. |
| OrmField.StrictEnumDecides | classes/Leap/Core/DB/ORM/Field.php:241 | Where loose comparison only identifies equal values, exactly the list's members validate. |
| OrmField.SetConverts | classes/Leap/Core/DB/ORM/Field.php:133-138 | On the base class a non-NULL value other than an Expression is converted with settype to the declared type. If the converted value fails validation, __set throws ValidationError of it. A successful __set stores the converted value. |
| OrmField.BlobSetConverts | classes/Leap/Core/DB/ORM/Field/Blob.php:101-108 | On Blob a string is wrapped into a ByteString and other values are kept. If the result fails validation, __set throws ValidationError of it. A successful __set stores it. |
| OrmField.BlobValidate | classes/Leap/Core/DB/ORM/Field/Blob.php:137-144 | Blob rejects a non-NULL value that is not an instance of the declared type. For NULL and for instances it decides as the base class does. |
| OrmField.SetFailures | classes/Leap/Core/DB/ORM/Field.php:130-157 | __set throws if and only if the key is neither 'value' nor 'modified', the converted value fails validation, or the callback rejects the value about to be stored. |
| OrmField.SetValueSuccess | classes/Leap/Core/DB/ORM/Field.php:132-149 | A successful __set('value') stores the converted value, which __get then returns. It marks the field modified and leaves every other entry as it was. |
| OrmField.StoredValueValidates | classes/Leap/Core/DB/ORM/Field.php:133-139 | A non-NULL value that is not an Expression is only ever stored after passing validation. |
| OrmField.SetNull | classes/Leap/Core/DB/ORM/Field.php:140-148 | Whenever setting NULL succeeds, that is whenever the callback (if any) accepts, it stores the default on a non-nullable field and NULL on a nullable one, and marks the field modified. |
| OrmField.SetExpression | classes/Leap/Core/DB/ORM/Field.php:133-148 | Setting an Expression succeeds if and only if the callback (if any) accepts it. On success it is stored verbatim, neither converted nor validated, and the field is marked modified. |
| OrmField.SetModifiedOnlyFlag | classes/Leap/Core/DB/ORM/Field.php:150-152 | __set('modified', x) always succeeds. It sets the flag to (bool) x and changes nothing else. |
| OrmField.SetUnknownKey | classes/Leap/Core/DB/ORM/Field.php:153-155 | Any other key throws InvalidProperty, even a key __get can read. |
| OrmField.ResetRestoresDefault | classes/Leap/Core/DB/ORM/Field.php:228-231 | After reset the value is the default and the field is unmodified. Every other entry is kept. |
| OrmField.ResetIdempotent | classes/Leap/Core/DB/ORM/Field.php:228-231 | Resetting twice is the same as resetting once. |
| OrmField.ResetUndoesSet | classes/Leap/Core/DB/ORM/Field.php:130-157 | Reset undoes any successful __set. |
| OrmField.BlobFixedKeys | classes/Leap/Core/DB/ORM/Field/Blob.php:41-60 | A Blob's type is 'Data' and its control is 'textarea', whatever the options say. |
| OrmField.BlobFlags | classes/Leap/Core/DB/ORM/Field/Blob.php:44-50 | Savable and nullable stay TRUE unless supplied. When supplied, they are the supplied value cast to bool. |
| OrmField.BlobOptionalKeys | classes/Leap/Core/DB/ORM/Field/Blob.php:52-64 | Filter, callback and label are present if and only if supplied, and then hold the supplied value cast to string. |
| OrmField.BlobInitDefault | classes/Leap/Core/DB/ORM/Field/Blob.php:66-83 | The new Blob's value is its default: the supplied default, else an empty ByteString when not nullable, else NULL. The Blob is unmodified. |
| OrmField.BlobInitFails | classes/Leap/Core/DB/ORM/Field/Blob.php:76-80 | Construction throws if and only if the resolved default is neither an Expression nor NULL nor a 'Data' instance. |
| OrmField.BlobWrapsString | classes/Leap/Core/DB/ORM/Field/Blob.php:103-105 | A string set on a Blob is stored as a ByteString of that string. |
| OrmField.Field.constructor | classes/Leap/Core/DB/ORM/Field.php:70-80 | The constructor sets the fresh metadata of the given type and a NULL value. |
| OrmField.Field.Set | classes/Leap/Core/DB/ORM/Field/Blob.php:98-127 | __set, for the base class and for Blob (Field.php:130-157), reaches the state SetProperty gives when it succeeds. When it throws it changes nothing. |
| OrmField.Field.Reset | classes/Leap/Core/DB/ORM/Field.php:228-231 | reset reaches the state ResetState gives. |
| OrmField.Field.ApplyBlobOptions | classes/Leap/Core/DB/ORM/Field/Blob.php:44-64 | The option handling turns the base metadata of a 'Data' field into BlobMetadata. |
| OrmField.Field.NewBlob | classes/Leap/Core/DB/ORM/Field/Blob.php:41-84 | Blob::__construct yields a fresh Blob in the state BlobInit gives. It throws the same ValidationError exactly when BlobInit fails. |
| Enumeration.Equals | classes/Leap/Core/Enum.php:99-101 | __equals holds only for an Enum operand, and for one exactly when the ordinals are equal, so null and other values are never equal. |
| Enumeration.ToString | classes/Leap/Core/Enum.php:119-121 | __toString of a string value is that string, and of NULL the empty string. |
| Enumeration.IntegerValueString | classes/Leap/Core/Enum.php:119-121 | __toString of an integer value is its decimal text, preceded by '-' when it is negative. |
| Enumeration.Clone | classes/Leap/Core/Enum.php:65-67 | __clone always throws CloneNotSupported. |
| Enumeration.NotEqualToNonEnum | classes/Leap/Core/Enum.php:99-101 | null and non-Enum values are never equal to a constant. |
| Enumeration.EqualsIffSameOrdinal | classes/Leap/Core/Enum.php:99-101 | Two constants are equal if and only if their ordinals are. |
| Enumeration.EqualsIgnoresNameValueAndClass | classes/Leap/Core/Enum.php:99-101 | Equality ignores name, value and even the concrete class. |
| Enumeration.EqualsReflexive | classes/Leap/Core/Enum.php:99-101 | Every constant equals itself. |
| Enumeration.EqualsSymmetric | classes/Leap/Core/Enum.php:99-101 | __equals is symmetric between constants. |
| Enumeration.EqualsTransitive | classes/Leap/Core/Enum.php:99-101 | __equals is transitive between constants. |
| Enumeration.EqualButDifferentStrings | classes/Leap/Core/Enum.php:99-121 | Equal constants may print differently, since __toString follows the value and equality does not. |

## Left out

- The parenthesis markers: Builder::_OPENING_PARENTHESIS_ and _CLOSING_PARENTHESIS_ are defined in a class that is not part of this model. They are modelled as "(" and ")". The markers are written into the WHERE text verbatim, as these values. Whether a connector is written depends only on whether a fragment equals one of the markers.
- Statement builders other than the Oracle UPDATE and MS SQL DELETE renderers, and the base builders' accumulating methods: the model starts from the accumulated data.
- Builder data: limit and offset are unbounded integers. PHP's interpolation of a negative or very large integer, and integer overflow in offset + (limit - 1), are not modelled.
- Builder data: 'column' is taken as the sequence of its values, as array_values gives them.
- Builder data: WHERE entries are (connector, fragment) pairs of strings.
- The connection: what the database does with the statements, its errors and exceptions, and begin/commit/rollback semantics are not modelled. The connection is only a log of calls.
- The base lock builder `\Leap\Core\DB\SQL\Lock\Builder` is not part of this model. Its constructor is assumed to start with an empty data array.
- prepare_identifier: the precompiler is a function parameter of the DB2 builder.
- Db2Lock.Builder.Add and SqliteLock.Builder.Add: hints are assumed to be strings.
- Db2Lock.Builder.Add and SqliteLock.Builder.Add: a type check of the hints array is left out.
- preg_match's PHP-level errors are left out.
- strtoupper is ASCII-only, as under PHP 7 with its default C locale; other locales' case mapping is not modelled.
- LockCommon.ResolveMode: the mode keeps the trailing "\n" that the pattern's `$` lets through, as the code does.
- LockCommon.Release: PHP's loose switch comparison equals string comparison for the strings compared here. Non-string methods are not modelled.
- Settype, instanceof, the model's callback and PHP's loose comparison == are parameters (`Env`). Their PHP semantics are not modelled.
  - Settype is PHP's type juggling.
  - Instanceof is a test against a class named by the 'type' metadata, including the Blob's 'Data' class.
  - The callback is the model's method named by the 'callback' entry.
  - Loose comparison is the == that in_array applies to each enum item.
- The model reference a field holds is not modelled: only the callback's verdict is used.
- OrmField.EnumAllows: in_array's loose comparison is the `looseEquals` parameter. Which values PHP's == identifies (for example '1' and 1) is not modelled.
- OrmField.EnumAllows: an 'enum' entry that is not an array allows nothing. Under PHP 7, in_array warns and returns NULL on a non-array, so validate returns FALSE. The model does not follow PHP 8, where that call throws a TypeError.
- OrmField.GetProperty and OrmField.SetProperty: keys are strings. PHP's loose switch on a non-string key is not modelled.
- PhpValue.StringCast: the (string) cast keeps objects as they are, because their conversion runs their own __toString. Floats are not modelled.
- Field::control and Field::label render HTML forms and are left out.
- The destructors of Field and Enum only unset members and are left out.
- Field and Blob are one class with a `kind`, instead of a subclass.
- OrmField.Field.NewBlob: the metadata is built in a local map and assigned once, after the default is resolved. The final state is the same as in the source.
- Blob's default: a default substituted for NULL is stored without validation, as in the source.
- Enum: the accessors __name, __ordinal and __value are the fields of the `Enum` datatype.
- Enum: the abstract constructor is left out, because the concrete enumerations are not part of this model.
- Enumeration.ToString: it yields no string for object values.
- Enumeration.Equals: ordinals are compared as integers; PHP's loose == on other ordinal types is not modelled.
- Default arguments become explicit parameters. The model does not capture what a call that leaves them out does.
  - `$terminated = TRUE` of the renderers is the `terminated` flag.
  - `$hints = NULL` of the lock builders' add is `None`.
  - `$method = ''` of release is the empty string.
- The relation, proxy, token, role and MS SQL PDO connection files are not part of this model.
