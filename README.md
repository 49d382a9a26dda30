# TskDbSqlite: the Sleuth Kit's SQLite writer, modelled in Dafny

`TskDbSqlite` (`tsk3/auto/db_sqlite.cpp`) writes the object hierarchy of a disk
image into a SQLite database. An image holds volume systems, a volume system
holds volumes, a volume holds filesystems, and filesystems hold files. Each of
them gets a row in `tsk_objects` plus a detail row in its own table. The model
covers:

- the session state: whether a database is open, and whether the parent-lookup
  statement is null, prepared or finalized;
- the schema that `initialize` creates;
- every writer;
- the name clean-up loops of `addFile` and `addCarvedFileInfo`, which double
  each single quote so that the name can stand inside an SQL text literal.

Layout:

- `wrappers.dfy`: `Option`.
- `names.dfy` (module `Names`):
  - quote escaping (`Escape`) and its inverse, the SQL literal reading
    (`LiteralValue`);
  - the display name `file:attribute`;
  - the buffer arithmetic of the clean-up step;
  - the clean-up loops themselves, as methods writing an `array<char>` in
    place.
- `tsk.dfy` (module `Tsk`):
  - the walker records the writers read (`TSK_VS_INFO`, `TSK_VS_PART_INFO`,
    `TSK_FS_INFO`, `TSK_FS_NAME`, `TSK_FS_META`, `TSK_FS_FILE`, `TSK_FS_ATTR`),
    as datatypes;
  - the `tsk_fs.h` constants;
  - `Int32Of`, the narrowing into a C `int`.
- `schema.dfy` (module `Schema`):
  - the database as an abstract `Store`: the created tables, the index flag,
    and one sequence of rows per table;
  - the statements the engine is asked to run, and when it can accept them;
  - the invariant `Consistent`: object ids are positive and increasing, and
    every detail row and file row is keyed by an object of its own kind;
  - the parent lookup query.
- `db_sqlite.dfy` (module `DbSqlite`): the class `TskDbSqlite`.
  - Its fields are `m_blkMapFlag`, `m_db` (open or not),
    `m_selectFileIdByMetaAddr`, the `PRAGMA synchronous` setting, and the store.
  - Every method of the core that reads or changes the session is a method of the
    class, with `modifies` frames; `attempt` is the module-level `Attempt` and
    `AttemptOk`, since it only compares two codes.

The engine is abstracted as follows:

- A statement succeeds only when it is admissible:
  - a table is created at most once;
  - rows go only into existing tables;
  - quoted text is the body of exactly one literal.
- An admissible statement may still fail: the disk may be full, the database
  busy, or an allocation may fail. That outcome is nondeterministic (`Oracle`).
- An id comes from `sqlite3_last_insert_rowid`: one more than the last id, or 1
  in an empty table.
- The lookup query returns the first matching row in insertion order.

Three behaviours of the code worth knowing:

- The `:attribute` suffix is added only when the attribute name is non-empty. The
  source tests `attr_nlen > 0` at line 557. An empty attribute name therefore
  adds no `:`.
- `cleanup` returns 1 on every path (line 306).
- `close` finalizes the lookup statement but does not clear the pointer
  (lines 61-65). The model calls that state `Finalized`. Three paths would
  then use the freed statement, which is undefined in SQLite:
  - the lookup path of `addFsFile` (lines 440-457);
  - `cleanup`, which finalizes it again (lines 302-303);
  - a second `close` after the database is opened again (line 62), which the
    destructor also reaches.

  The model requires the statement not to be in that state on each of those
  paths and nowhere else. A file without a name and the root directory never
  touch it (lines 433-438), and a `close` with no database open skips it.

## Model

| member | source | states |
|---|---|---|
| Names.EscapeLength | tsk3/auto/db_sqlite.cpp:545-554 | the escaped text is as long as the input plus one for each quote |
| Names.QuotesBound | tsk3/auto/db_sqlite.cpp:538-554 | a name has at most as many quotes as characters, and exactly as many only when it is all quotes (the case that fills 2*len) |
| Names.EscapeAppend | tsk3/auto/db_sqlite.cpp:545-570 | escaping is done character by character: escaping a concatenation concatenates the escapes, so nothing is dropped or reordered |
| Names.EscapeVerbatim | tsk3/auto/db_sqlite.cpp:545-554 | a name without quotes is copied verbatim |
| Names.EscapeKeepsOtherChars | tsk3/auto/db_sqlite.cpp:545-554 | every character other than a quote occurs in the escaped text exactly when it occurs in the input |
| Names.LiteralValueOfEscape | tsk3/auto/db_sqlite.cpp:575-590 | the engine reads the escaped text back as the original name (round trip escape, then read) |
| Names.EscapeOfLiteralValue | tsk3/auto/db_sqlite.cpp:575-590 | whatever body the engine accepts as one literal is the escape of the value it reads (round trip read, then escape) |
| Names.LiteralValueVerbatim | tsk3/auto/db_sqlite.cpp:330-343 | unescaped text without quotes, as in addImageName, reads back unchanged |
| Names.EscapeExample | tsk3/auto/db_sqlite.cpp:547-550 | O'Brien is written as O''Brien |
| Names.DisplayLiteralIsEscaped | tsk3/auto/db_sqlite.cpp:545-570 | the text the loops write is the escape of "name:attribute" (or of the name alone without an attribute name) |
| Names.DisplayLiteralDecodes | tsk3/auto/db_sqlite.cpp:545-590 | the stored name is the display name, and the written text has no NUL in it when the names have none |
| Names.TerminatorLost | tsk3/auto/db_sqlite.cpp:536-570 | the writes never exceed the 2*(len+attr_nlen)+1 bytes allocated; they fill the last byte, the zero terminator, exactly when the attribute name is non-empty and both names are all quotes; the corrected allocation always keeps it |
| Names.QuoteNamesFillBuffer | tsk3/auto/db_sqlite.cpp:536-570 | a file name ' with attribute name ' writes '':'' (five characters) into a five-byte buffer |
| Names.CopyEscaped | tsk3/auto/db_sqlite.cpp:545-554 | one clean-up loop under its guard i < len && j < nlen: it appends exactly the escape of the input at j, leaves the bytes before j and the zeros after its end untouched, and the guard never cuts it short |
| Names.FillName | tsk3/auto/db_sqlite.cpp:543-570 | the buffer receives the escaped file name, then ':' and the escaped attribute name when the attribute name is non-empty, and stays zero after that |
| Names.EscapeNameAsWritten | tsk3/auto/db_sqlite.cpp:536-570 | the allocation as written, 2*(len+attr_nlen)+1 zeroed bytes: the buffer holds the display literal, and a terminator remains exactly when the inputs are not the ones TerminatorLost names |
| Names.EscapeName | tsk3/auto/db_sqlite.cpp:536-570 | the corrected allocation: the buffer holds the display literal followed by a zero terminator, with no zero before it |
| Tsk.Int32Of | tsk3/auto/db_sqlite.cpp:478-517 | a value stored into an int is unchanged when it fits in 32 bits and otherwise congruent modulo 2^32 |
| Tsk.Int64Of | tsk3/auto/db_sqlite.cpp:668-670 | a 64-bit value printed with %lld is unchanged when it fits the signed range and otherwise congruent modulo 2^64 |
| Tsk.UInt32Of | tsk3/auto/db_sqlite.cpp:382-385 | an int printed with %u is the unsigned value congruent to it modulo 2^32, and unchanged when not negative |
| Tsk.UnsignedOfCast | tsk3/auto/db_sqlite.cpp:382-385 | a uint32_t partition address cast to int and printed with %u comes out unchanged |
| Schema.WithObjectFresh | tsk3/auto/db_sqlite.cpp:137-153 | the id of a new object is positive and larger than every existing id, and appending the object keeps the store consistent |
| Schema.WithImageInfoConsistent | tsk3/auto/db_sqlite.cpp:320-327 | an image-info row keyed by an image object keeps the store consistent |
| Schema.WithVsInfoConsistent | tsk3/auto/db_sqlite.cpp:353-362 | a vs-info row keyed by a volume-system object keeps the store consistent |
| Schema.WithVsPartConsistent | tsk3/auto/db_sqlite.cpp:379-389 | a vs-parts row keyed by a volume object keeps the store consistent |
| Schema.WithFsInfoConsistent | tsk3/auto/db_sqlite.cpp:399-413 | a fs-info row keyed by a filesystem object keeps the store consistent |
| Schema.WithFileConsistent | tsk3/auto/db_sqlite.cpp:572-590 | a file row keyed by a file object keeps the store consistent |
| Schema.WithDbInfoConsistent | tsk3/auto/db_sqlite.cpp:181-186 | the tsk_db_info row, once its table exists, keeps the store consistent |
| Schema.FirstMatch | tsk3/auto/db_sqlite.cpp:442-457 | the lookup finds nothing exactly when no file row has meta_addr = par_addr and fs_obj_id = fsObjId; what it finds is the first such row |
| Schema.LookupFindsFileObject | tsk3/auto/db_sqlite.cpp:442-457 | the row the lookup finds belongs to a file object of the store |
| DbSqlite.Attempt | tsk3/auto/db_sqlite.cpp:70-81 | returns 1 exactly when the result code differs from the expected one, and 0 otherwise |
| DbSqlite.AttemptOk | tsk3/auto/db_sqlite.cpp:84-88 | returns 0 exactly when the result code is SQLITE_OK |
| DbSqlite.ResolveParent | tsk3/auto/db_sqlite.cpp:436-458 | the root directory's parent is the filesystem object; any other file has a parent exactly when a file row with meta_addr = par_addr and fs_obj_id = fsObjId exists, and the parent is that row's obj_id |
| DbSqlite.ResolvedParentIsFile | tsk3/auto/db_sqlite.cpp:436-458 | the parent found for a file other than the root is a file object already stored |
| DbSqlite.FsFileRowName | tsk3/auto/db_sqlite.cpp:519-570 | the stored name is name:attribute exactly when the attribute and its name are non-null, the name is non-empty, and it is not the NTFS index root's $I30; otherwise it is the name alone |
| DbSqlite.FsFileRowWithoutMeta | tsk3/auto/db_sqlite.cpp:478-517 | without meta, size, meta_type, meta_flags, the four times, mode, gid and uid are 0, and the type is DB_FILES_TYPE_FS |
| DbSqlite.TskDbSqlite.constructor | tsk3/auto/db_sqlite.cpp:27-34 | no database open and no lookup statement; the block-map flag as given |
| DbSqlite.TskDbSqlite.DbExist | tsk3/auto/db_sqlite.cpp:747-753 | true exactly when a database is open |
| DbSqlite.TskDbSqlite.Open | tsk3/auto/db_sqlite.cpp:258-278 | 0 leaves a database open on a new connection, with synchronous back at its default; 1 changes nothing; the file's content is kept |
| DbSqlite.TskDbSqlite.Close | tsk3/auto/db_sqlite.cpp:57-67 | always 0; afterwards no database is open and DbExist is false; a prepared lookup becomes finalized; closing a closed session changes nothing; callable unless a database is open with the statement an earlier close finalized |
| DbSqlite.TskDbSqlite.AttemptExec | tsk3/auto/db_sqlite.cpp:92-118 | returns 1 and has no effect without an open database; returns 0 only when a database is open and the engine can accept the statement |
| DbSqlite.TskDbSqlite.CreateTable | tsk3/auto/db_sqlite.cpp:174-178 | 0 exactly adds a table not yet created; 1 changes nothing |
| DbSqlite.TskDbSqlite.Initialize | tsk3/auto/db_sqlite.cpp:163-243 | sets the pragma, then creates the tables in their fixed order and stops at the first failure, leaving a prefix of that order; 0 means every table (tsk_file_layout only with the block-map flag), the schema row (TSK_SCHEMA_VER 2 with the library version) and the par_obj_id index; on 0 synchronous is off; without an open database it returns 1 and changes nothing; when tsk_db_info exists it returns 1 without changing the store |
| DbSqlite.TskDbSqlite.CreateSchema | tsk3/auto/db_sqlite.cpp:175-236 | the tables created are the first n of the fixed order, and all of them on 0 |
| DbSqlite.TskDbSqlite.CreateCoreTables | tsk3/auto/db_sqlite.cpp:175-190 | tsk_db_info, its one row, then tsk_objects, up to the first failure |
| DbSqlite.TskDbSqlite.CreateEntityTables | tsk3/auto/db_sqlite.cpp:192-228 | the entity tables in order, up to the first failure (the chain of \|\|) |
| DbSqlite.TskDbSqlite.CreateIndexes | tsk3/auto/db_sqlite.cpp:245-251 | 0 adds the par_obj_id index on an existing tsk_objects; 1 changes nothing |
| DbSqlite.TskDbSqlite.Setup | tsk3/auto/db_sqlite.cpp:283-293 | 0 exactly when the lookup statement is prepared, which needs an open database with tsk_files; on 1 the statement pointer is null |
| DbSqlite.TskDbSqlite.Cleanup | tsk3/auto/db_sqlite.cpp:299-307 | the lookup statement is released and cleared; the result is 1 on every path; callable unless an earlier close already finalized the statement |
| DbSqlite.TskDbSqlite.AddObject | tsk3/auto/db_sqlite.cpp:136-153 | on 0, exactly one object row with the given parent and type is appended, and its fresh id (positive, larger than every existing id) is returned; on 1 nothing changes |
| DbSqlite.TskDbSqlite.AddImageInfo | tsk3/auto/db_sqlite.cpp:309-328 | an image object without a parent, then its tsk_image_info row keyed by the new id; a failure leaves nothing or only the object |
| DbSqlite.TskDbSqlite.AddImageName | tsk3/auto/db_sqlite.cpp:330-343 | one tsk_image_names row holding what the engine reads from the unescaped name; a name with a lone quote is refused |
| DbSqlite.TskDbSqlite.AddVsInfo | tsk3/auto/db_sqlite.cpp:346-363 | a volume-system object under parObjId, then its detail row keyed by the new id, with the unsigned block_size as %d prints it; no detail row when addObject fails |
| DbSqlite.TskDbSqlite.AddVolumeInfo | tsk3/auto/db_sqlite.cpp:369-390 | a volume object under parObjId, then its tsk_vs_parts row with addr unchanged (the cast to int is undone by %u) and the unescaped description as the engine reads it; no detail row when addObject fails |
| DbSqlite.TskDbSqlite.AddFsInfo | tsk3/auto/db_sqlite.cpp:392-414 | a filesystem object under parObjId, then its tsk_fs_info row with ftype narrowed to int; no detail row when addObject fails |
| DbSqlite.TskDbSqlite.AddFsFile | tsk3/auto/db_sqlite.cpp:425-462 | callable in every state except a statement finalized by close on the lookup path; no name: 0 and no change; otherwise the file goes under the parent ResolveParent gives; when the lookup finds no row, or the statement is null, 1 and no change |
| DbSqlite.TskDbSqlite.AddFile | tsk3/auto/db_sqlite.cpp:469-599 | no name: 0 and no change; on 0, one file object under parObjId and one tsk_files row as FsFileRow describes (displayed name, metadata or zeros, attribute type and id or zeros); a failure leaves nothing or only the object |
| DbSqlite.TskDbSqlite.AddFsBlockInfo | tsk3/auto/db_sqlite.cpp:652-674 | one tsk_file_layout row on 0, with the unsigned byte_start as %lld prints it; always 1 when the table was not created (no block-map flag) |
| DbSqlite.TskDbSqlite.AddCarvedFileInfo | tsk3/auto/db_sqlite.cpp:686-743 | on 0, a file object directly under fsObjId and a carved tsk_files row: raw name, no meta address, attribute or times, regular types, unallocated flags, the given size |

## Left out

- The SQLite engine itself is abstract:
  - SQL parsing and execution, file I/O, journaling and locking;
  - `sqlite3_open`/`open16` and the path handling;
  - prepare, bind, step and reset, beyond the result codes the code tests;
  - whether an admissible statement succeeds, which is a nondeterministic
    outcome.
- `begin`, `commit`, `savepoint`, `rollbackSavepoint` and `releaseSavepoint`
  (lines 601-647) are not part of this model. Each only passes one fixed
  statement to the engine, whose rollback rules are SQLite's.
- `prepare_stmt` (lines 121-132) is folded into `Setup`.
- The `snprintf` text of each statement is left out. So is its truncation at
  1024 bytes, which would cut a very long file name.
- The `PRIuOFF` format prints the signed `TSK_OFF_T` offsets and sizes of
  addVsInfo, addFsInfo and addFile as unsigned; the model keeps
  their signed value, which differs only for negative offsets or sizes.
- DbSqlite.TskDbSqlite.AddFsBlockInfo: the signed `a_fileObjId` is printed with
  `%llu`; the model stores it unchanged, which differs only for a negative id,
  and ids are positive.
- The `tsk_error_*` state and its messages, and `tsk_error_print(stderr)`.
  Errors are only return code 1.
- The Windows wide-character constructor and the `m_utf8` choice.
- The destructor is not modelled separately. It only calls `close`.
- The `path` argument of `addFsFile` and `addFile` is not modelled: the code never reads it.
- The `tsk_files_path` and `tsk_files_derived*` tables are created but never
  written. Likewise the `has_layout` and `has_path` columns are never set.
- 64-bit ids are unbounded integers; overflow of `int64_t` ids is not modelled.
- DbSqlite.TskDbSqlite.Open: an open that fails leaves `m_db` pointing at the
  handle `sqlite3_close` just closed (lines 263-266), so `dbExist()` is true
  afterwards. The model keeps the previous open/closed state instead.
- DbSqlite.TskDbSqlite.AddFsFile: a use of the statement that `close` left
  dangling is not modelled. The method requires that state not to hold on its
  lookup path.
- DbSqlite.TskDbSqlite.Close: finalizing the statement that an earlier `close`
  freed, after the database is opened again, is undefined and not modelled.
  The method requires that state not to hold while a database is open.
- DbSqlite.TskDbSqlite.Cleanup: finalizing the statement a second time after
  `close` is undefined and not modelled. The method requires that state not to
  hold.
- Out-parameter `objId`: the code leaves it unassigned when nothing was
  inserted. The model returns 0 then.
- The leak of the name buffer when `addObject` fails (lines 572-573).
- The doc comment before `addCarvedFileInfo` (lines 677-685) describes run
  arrays and a -1 result that the code does not have. The model follows the
  code, which returns 1.
- The `int fsObjId` parameter of `addCarvedFileInfo` is modelled as `Int32`.
  The narrowing at its callers is theirs.
- DbSqlite.TskDbSqlite.AddImageName, DbSqlite.TskDbSqlite.AddVolumeInfo: the text is interpolated unescaped. The
  model treats a text that does not read as one SQL literal (a lone quote) as
  a refused statement. It does not model text crafted to close the literal and
  inject further SQL.
- DbSqlite.ResolveParent, Schema.FirstMatch: when several rows match the lookup, the engine
  decides which one it returns. The model takes the first in insertion order.
- DbSqlite.TskDbSqlite.AddFile: it uses the corrected allocation
  (`EscapeName`). What the engine reads when the terminator is lost in the code
  as written is out of bounds and is not modelled. (`AddCarvedFileInfo` has no
  attribute name, so there the corrected allocation is the source's 2*len+1.)
- DbSqlite.TskDbSqlite.constructor: it requires the database file to satisfy
  `Consistent`, that is, to be new or written by this class. The source opens
  any existing file (lines 254-256); a file written some other way is not
  modelled.
- `CString` is a sequence of Dafny `char`s standing for a C byte string. The
  model counts characters where `strlen` counts bytes, and leaves out
  multi-byte encodings.
- DbSqlite.TskDbSqlite.AddFsFile: its `SQLITE_MISUSE` bind result on a null
  statement is a constant in the model, not the engine's own check.

## Findings

| source | as written | input that shows it | evidently intended | confidence | as-written member | corrected member |
|---|---|---|---|---|---|---|
| tsk3/auto/db_sqlite.cpp:536-570 | the name buffer has 2*(len+attr_nlen)+1 bytes, but with an attribute name the loops also write a ':', so when both names are all quotes they write 2*(len+attr_nlen)+1 characters and overwrite the zero terminator; `'%s'` then reads past the buffer | file name `'` with attribute name `'`: the loops write `'':''`, five characters into five bytes | one more byte when there is an attribute name, so the text is always terminated | not executed | Names.EscapeNameAsWritten (with Names.TerminatorLost and Names.QuoteNamesFillBuffer) | Names.EscapeName |
