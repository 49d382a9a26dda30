/** TskDbSqlite (tsk3/auto/db_sqlite.cpp): the session that writes an image's
    object hierarchy into the database. The SQLite engine is the Store of module
    Schema; whether the engine carries out a statement it could accept (disk
    full, I/O error, busy) is not determined by this code and is an Oracle
    outcome. */
module DbSqlite {
  import opened Wrappers
  import opened Names
  import opened Tsk
  import opened Schema

  const TSK_SCHEMA_VER: int := 2

  /** SQLite result codes the source compares against. */
  const SQLITE_OK: int := 0
  const SQLITE_ERROR: int := 1
  const SQLITE_MISUSE: int := 21
  const SQLITE_ROW: int := 100
  const SQLITE_DONE: int := 101

  /** attempt (lines 70-81): 1 when the engine's result code is not the
      expected one, 0 when it is. */
  function Attempt(resultCode: int, expectedResultCode: int): (r: int)
    ensures r == 0 || r == 1
    ensures r == 1 <==> resultCode != expectedResultCode
  {
    if resultCode != expectedResultCode then 1 else 0
  }

  /** attempt with one argument (lines 84-88): the expected code is SQLITE_OK. */
  function AttemptOk(resultCode: int): (r: int)
    ensures r == 0 <==> resultCode == SQLITE_OK
  {
    Attempt(resultCode, SQLITE_OK)
  }

  /** The entity tables initialize creates after tsk_objects, in order. */
  const EntityTables: seq<Table> :=
    [TskImageInfo, TskImageNames, TskVsInfo, TskVsParts, TskFsInfo, TskFiles,
     TskFilesPath, TskFilesDerived, TskFilesDerivedMethod]

  /** Every table initialize creates, in order; tsk_file_layout only with the
      block-map flag. */
  function SchemaPlan(blkMapFlag: bool): seq<Table> {
    [TskDbInfo, TskObjects] + EntityTables + (if blkMapFlag then [TskFileLayout] else [])
  }

  /** The attribute name addFile appends (lines 519-530): that of a non-null
      attribute with a non-null name, except the NTFS index root's "$I30";
      otherwise none (attr_nlen stays 0). */
  function AttrName(attr: Option<FsAttr>): CString {
    if attr.Some? && attr.value.name.Some?
       && (attr.value.attrType != TSK_FS_ATTR_TYPE_NTFS_IDXROOT || attr.value.name.value != NTFS_INDEX_NAME)
    then attr.value.name.value
    else []
  }

  /** The tsk_files row addFile writes (lines 478-517, 575-590), as the engine
      stores it: the name is the display name, read back from its escaped
      literal; without meta every metadata column is 0; without an attribute
      attr_type and attr_id are 0. */
  function FsFileRow(name: FsName, meta: Option<FsMeta>, attr: Option<FsAttr>, fsObjId: int, objId: int): FileRow {
    var attrType := if attr.Some? then attr.value.attrType else 0;
    var attrId := if attr.Some? then attr.value.id else 0;
    var display := DisplayName(name.name, AttrName(attr));
    match meta
    case None =>
      FileRow(fsObjId, objId, FsFileType, Some(attrType), Some(attrId), display, Some(name.metaAddr),
              name.nameType, 0, name.flags, 0, 0,
              Some(0), Some(0), Some(0), Some(0), Some(0), Some(0), Some(0))
    case Some(m) =>
      FileRow(fsObjId, objId, FsFileType, Some(attrType), Some(attrId), display, Some(name.metaAddr),
              name.nameType, Int32Of(m.metaType), name.flags, Int32Of(m.flags), m.size,
              Some(Int32Of(m.crtime)), Some(Int32Of(m.ctime)), Some(Int32Of(m.atime)), Some(Int32Of(m.mtime)),
              Some(Int32Of(m.mode)), Some(Int32Of(m.gid)), Some(Int32Of(m.uid)))
  }

  /** The tsk_files row addCarvedFileInfo writes (lines 717-734). */
  function CarvedRow(fsObjId: int, objId: int, name: string, size: int): FileRow {
    FileRow(fsObjId, objId, CarvedFileType, None, None, name, None,
            TSK_FS_NAME_TYPE_REG, TSK_FS_META_TYPE_REG, TSK_FS_NAME_FLAG_UNALLOC, TSK_FS_NAME_FLAG_UNALLOC,
            size, None, None, None, None, None, None, None)
  }

  /** The parent addFsFile chooses (lines 436-458): the filesystem object for
      the root directory, otherwise the file the lookup query finds for
      (par_addr, fsObjId), if any. */
  function ResolveParent(files: seq<FileRow>, name: FsName, rootInum: nat, fsObjId: int): (p: Option<int>)
    ensures name.metaAddr == rootInum ==> p == Some(fsObjId)
    ensures name.metaAddr != rootInum ==>
      (p.Some? <==> exists k :: 0 <= k < |files| && MatchesParent(files[k], name.parAddr, fsObjId))
    ensures name.metaAddr != rootInum && p.Some? ==>
      exists k :: 0 <= k < |files| && MatchesParent(files[k], name.parAddr, fsObjId) && files[k].objId == p.value
  {
    if rootInum == name.metaAddr then Some(fsObjId)
    else
      match FirstMatch(files, name.parAddr, fsObjId)
      case None => None
      case Some(k) => Some(files[k].objId)
  }

  /** The parent of a file that is not the root directory is a file object
      already in the store. */
  lemma ResolvedParentIsFile(s: Store, name: FsName, rootInum: nat, fsObjId: int)
    requires Consistent(s) && name.metaAddr != rootInum
    requires ResolveParent(s.files, name, rootInum, fsObjId).Some?
    ensures HasObject(s.objects, ResolveParent(s.files, name, rootInum, fsObjId).value, File)
  {
    LookupFindsFileObject(s, name.parAddr, fsObjId);
  }

  /** The stored name of a file (lines 519-570): the file name, followed by
      ':' and the attribute name exactly when there is a non-null, non-empty
      attribute name that is not the NTFS index root's "$I30". */
  lemma FsFileRowName(name: FsName, meta: Option<FsMeta>, attr: Option<FsAttr>, fsObjId: int, objId: int)
    ensures var n := FsFileRow(name, meta, attr, fsObjId, objId).name;
      if attr.Some? && attr.value.name.Some? && attr.value.name.value != []
         && !(attr.value.attrType == TSK_FS_ATTR_TYPE_NTFS_IDXROOT && attr.value.name.value == NTFS_INDEX_NAME)
      then n == name.name + [COLON] + attr.value.name.value
      else n == name.name
  {
  }

  /** A file without meta has every metadata column 0 (lines 478-517). */
  lemma FsFileRowWithoutMeta(name: FsName, attr: Option<FsAttr>, fsObjId: int, objId: int)
    ensures var f := FsFileRow(name, None, attr, fsObjId, objId);
      && f.fileType == FsFileType && f.size == 0 && f.metaType == 0 && f.metaFlags == 0
      && f.mtime == f.atime == f.ctime == f.crtime == f.mode == f.gid == f.uid == Some(0)
  {
  }

  /** The tables created so far are the first n of the plan. */
  lemma PlanPrefix(t0: seq<Table>, t: seq<Table>, plan: seq<Table>, n: nat)
    requires n <= |plan| && t == t0 + plan[..n]
    ensures t0 <= t && t[|t0|..] <= plan
  {
    assert t[|t0|..] == plan[..n];
  }

  lemma PlanLength(blkMapFlag: bool)
    ensures |SchemaPlan(blkMapFlag)| == 2 + |EntityTables| + (if blkMapFlag then 1 else 0)
  {
  }

  lemma PlanWhole(blkMapFlag: bool)
    ensures SchemaPlan(blkMapFlag)[..|SchemaPlan(blkMapFlag)|] == SchemaPlan(blkMapFlag)
    ensures blkMapFlag ==> SchemaPlan(blkMapFlag) == ([TskDbInfo, TskObjects] + EntityTables) + [TskFileLayout]
    ensures !blkMapFlag ==> SchemaPlan(blkMapFlag) == [TskDbInfo, TskObjects] + EntityTables
  {
  }

  lemma PlanSliceCore(blkMapFlag: bool, n: nat)
    requires n <= 2
    ensures SchemaPlan(blkMapFlag)[..n] == [TskDbInfo, TskObjects][..n]
  {
  }

  lemma PlanSliceEntities(blkMapFlag: bool, k: nat)
    requires k <= |EntityTables|
    ensures SchemaPlan(blkMapFlag)[..2 + k] == [TskDbInfo, TskObjects] + EntityTables[..k]
  {
    assert SchemaPlan(blkMapFlag)[..2 + k] == ([TskDbInfo, TskObjects] + EntityTables)[..2 + k];
  }

  /** Whether the lookup statement m_selectFileIdByMetaAddr is null, prepared,
      or finalized but still pointed to. */
  datatype Lookup = NoStmt | Prepared | Finalized

  /** An outcome this code does not determine: whether the engine carries out
      a statement it could accept, or whether an allocation succeeds. */
  method Oracle() returns (ok: bool) {
    ok :| true;
  }

  class TskDbSqlite {
    const blkMapFlag: bool       // m_blkMapFlag
    const tskVersionNum: int     // TSK_VERSION_NUM, fixed when the library is built
    var dbOpen: bool             // m_db != NULL
    var lookup: Lookup           // m_selectFileIdByMetaAddr
    var synchronousOff: bool     // PRAGMA synchronous = OFF on this connection
    var store: Store             // the database file

    ghost predicate Valid()
      reads this
    {
      Consistent(store) && (lookup == Prepared ==> dbOpen)
    }

    /** The constructor (lines 27-34): no database open, no statement. */
    constructor (blkMapFlag: bool, tskVersionNum: int, file: Store)
      requires Consistent(file)
      ensures Valid()
      ensures this.blkMapFlag == blkMapFlag && this.tskVersionNum == tskVersionNum
      ensures !dbOpen && lookup == NoStmt && !synchronousOff && store == file
    {
      this.blkMapFlag := blkMapFlag;
      this.tskVersionNum := tskVersionNum;
      dbOpen := false;
      lookup := NoStmt;
      synchronousOff := false;
      store := file;
    }

    /** dbExist (lines 747-753). */
    function DbExist(): (b: bool)
      reads this
      ensures b <==> dbOpen
    {
      dbOpen
    }

    /** open (lines 258-278): opens the database file, which keeps its
      content, on a new connection with the default synchronous setting; the
      engine may refuse. */
    method Open() returns (r: int)
      requires Valid()
      modifies this`dbOpen, this`synchronousOff
      ensures Valid()
      ensures r == 0 || r == 1
      ensures r == 0 ==> dbOpen && !synchronousOff
      ensures r == 1 ==> dbOpen == old(dbOpen) && synchronousOff == old(synchronousOff)
    {
      var ok := Oracle();
      r := AttemptOk(if ok then SQLITE_OK else SQLITE_ERROR);
      if r == 0 {
        dbOpen := true;
        synchronousOff := false;
      }
    }

    /** close (lines 57-67): always 0; finalizes the lookup statement without
      clearing the pointer, and leaves no database open, so a second close
      changes nothing. With a database open again, finalizing that freed
      statement a second time is undefined, so the model excludes it. */
    method Close() returns (r: int)
      requires Valid()
      requires dbOpen ==> lookup != Finalized
      modifies this`dbOpen, this`lookup
      ensures Valid()
      ensures r == 0 && !dbOpen && !DbExist()
      ensures lookup == if old(dbOpen) && old(lookup) == Prepared then Finalized else old(lookup)
      ensures !old(dbOpen) ==> lookup == old(lookup)
    {
      if dbOpen {
        if lookup == Prepared {
          lookup := Finalized;
        }
        dbOpen := false;
      }
      r := 0;
    }

    /** attempt_exec (lines 92-118): 1 without effect when no database is
      open; otherwise 0 only when the engine accepts and carries out the
      statement. The caller applies the statement's effect on 0. */
    method AttemptExec(st: Stmt) returns (r: int)
      ensures r == 0 || r == 1
      ensures !dbOpen ==> r == 1
      ensures r == 0 ==> dbOpen && Admissible(store, st)
    {
      if !dbOpen {
        return 1;
      }
      var ok := Oracle();
      r := AttemptOk(if ok && Admissible(store, st) then SQLITE_OK else SQLITE_ERROR);
    }

    /** One CREATE TABLE through attempt_exec. */
    method CreateTable(t: Table) returns (r: int)
      requires Valid()
      modifies this`store
      ensures Valid()
      ensures r == 0 || r == 1
      ensures r == 0 ==> t !in old(store).tables && store == old(store).(tables := old(store).tables + [t])
      ensures r == 1 ==> store == old(store)
    {
      r := AttemptExec(Stmt.CreateTable(t));
      if r == 0 {
        store := store.(tables := store.tables + [t]);
      }
    }

    /** initialize (lines 163-243): the pragma, tsk_db_info with its one row,
      tsk_objects, the entity tables in order, tsk_file_layout only with the
      block-map flag, then the parObjId index; the first failure stops it and
      leaves what was created so far. */
    method Initialize() returns (r: int)
      requires Valid()
      modifies this`store, this`synchronousOff
      ensures Valid()
      ensures r == 0 || r == 1
      ensures !old(dbOpen) ==> r == 1 && store == old(store) && synchronousOff == old(synchronousOff)
      ensures r == 0 ==> synchronousOff
      ensures TskDbInfo in old(store).tables ==> r == 1 && store == old(store)
      ensures old(store).tables <= store.tables
      ensures store.tables[|old(store).tables|..] <= SchemaPlan(blkMapFlag)
      ensures r == 0 ==> store.tables == old(store).tables + SchemaPlan(blkMapFlag)
      ensures store.parObjIdIndex <==> old(store).parObjIdIndex || r == 0
      ensures store.dbInfo == old(store).dbInfo
              || (store.dbInfo == old(store).dbInfo + [DbInfoRow(TSK_SCHEMA_VER, tskVersionNum)]
                  && |store.tables| >= |old(store).tables| + 1)
      ensures r == 0 ==> store.dbInfo == old(store).dbInfo + [DbInfoRow(TSK_SCHEMA_VER, tskVersionNum)]
      ensures store == old(store).(tables := store.tables, parObjIdIndex := store.parObjIdIndex, dbInfo := store.dbInfo)
    {
      r := AttemptExec(Pragma);
      if r == 1 {
        return;
      }
      synchronousOff := true;
      ghost var s0 := store;
      ghost var n;
      r, n := CreateSchema();
      PlanPrefix(s0.tables, store.tables, SchemaPlan(blkMapFlag), n);
      if r == 1 {
        return;
      }
      r := CreateIndexes();
    }

    /** The tables of initialize (lines 175-236): tsk_db_info and its row,
      tsk_objects, the entity tables, then tsk_file_layout when the block
      map is kept; n counts the tables created before the first failure. */
    method CreateSchema() returns (r: int, ghost n: nat)
      requires Valid()
      modifies this`store
      ensures Valid()
      ensures r == 0 || r == 1
      ensures n <= |SchemaPlan(blkMapFlag)| && (r == 0 ==> n == |SchemaPlan(blkMapFlag)|)
      ensures TskDbInfo in old(store).tables ==> r == 1 && n == 0
      ensures store.tables == old(store).tables + SchemaPlan(blkMapFlag)[..n]
      ensures store.dbInfo == old(store).dbInfo
              || (store.dbInfo == old(store).dbInfo + [DbInfoRow(TSK_SCHEMA_VER, tskVersionNum)] && n >= 1)
      ensures r == 0 ==> store.dbInfo == old(store).dbInfo + [DbInfoRow(TSK_SCHEMA_VER, tskVersionNum)]
      ensures store == old(store).(tables := store.tables, dbInfo := store.dbInfo)
    {
      ghost var s0 := store;
      PlanLength(blkMapFlag);
      r, n := CreateCoreTables();
      PlanSliceCore(blkMapFlag, n);
      if r == 1 {
        return;
      }
      ghost var s1 := store;
      ghost var k;
      r, k := CreateEntityTables();
      n := 2 + k;
      PlanSliceEntities(blkMapFlag, k);
      assert store.tables == s0.tables + ([TskDbInfo, TskObjects] + EntityTables[..k]);
      if r == 1 {
        return;
      }
      if blkMapFlag {
        r := CreateTable(TskFileLayout);
        if r == 1 {
          return;
        }
        n := n + 1;
      }
      PlanWhole(blkMapFlag);
    }

    /** The first two tables of initialize (lines 175-190): tsk_db_info, its
      one row with the schema and library versions, then tsk_objects. */
    method CreateCoreTables() returns (r: int, ghost n: nat)
      requires Valid()
      modifies this`store
      ensures Valid()
      ensures r == 0 || r == 1
      ensures n <= 2 && (r == 0 ==> n == 2)
      ensures TskDbInfo in old(store).tables ==> r == 1 && n == 0
      ensures store.tables == old(store).tables + [TskDbInfo, TskObjects][..n]
      ensures store.dbInfo == old(store).dbInfo
              || (store.dbInfo == old(store).dbInfo + [DbInfoRow(TSK_SCHEMA_VER, tskVersionNum)] && n >= 1)
      ensures r == 0 ==> store.dbInfo == old(store).dbInfo + [DbInfoRow(TSK_SCHEMA_VER, tskVersionNum)]
      ensures store == old(store).(tables := store.tables, dbInfo := store.dbInfo)
    {
      var row := DbInfoRow(TSK_SCHEMA_VER, tskVersionNum);
      n := 0;
      r := CreateTable(TskDbInfo);
      if r == 1 {
        return;
      }
      n := 1;
      r := AttemptExec(Insert(TskDbInfo, ""));
      if r == 1 {
        return;
      }
      WithDbInfoConsistent(store, row);
      store := store.(dbInfo := store.dbInfo + [row]);
      r := CreateTable(TskObjects);
      if r == 1 {
        return;
      }
      n := 2;
    }

    /** The chain of CREATE TABLE statements joined by || (lines 188-228):
      the entity tables in order, up to the first that fails. */
    method CreateEntityTables() returns (r: int, ghost k: nat)
      requires Valid()
      modifies this`store
      ensures Valid()
      ensures r == 0 || r == 1
      ensures k <= |EntityTables| && (r == 0 ==> k == |EntityTables|)
      ensures store == old(store).(tables := old(store).tables + EntityTables[..k])
    {
      ghost var s0 := store;
      var i := 0;
      k := 0;
      while i < |EntityTables|
        invariant 0 <= i <= |EntityTables| && k == i
        invariant Valid()
        invariant store == s0.(tables := s0.tables + EntityTables[..i])
      {
        r := CreateTable(EntityTables[i]);
        if r == 1 {
          return;
        }
        assert EntityTables[..i + 1] == EntityTables[..i] + [EntityTables[i]];
        i := i + 1;
        k := i;
      }
      r := 0;
    }

    /** createIndexes (lines 245-251): the index on tsk_objects(par_obj_id). */
    method CreateIndexes() returns (r: int)
      requires Valid()
      modifies this`store
      ensures Valid()
      ensures r == 0 || r == 1
      ensures r == 0 ==> !old(store).parObjIdIndex && TskObjects in store.tables
                         && store == old(store).(parObjIdIndex := true)
      ensures r == 1 ==> store == old(store)
    {
      r := AttemptExec(CreateIndex);
      if r == 0 {
        store := store.(parObjIdIndex := true);
      }
    }

    /** setup (lines 283-293): prepares the lookup query; the engine refuses
      it without an open database or without tsk_files, and then leaves the
      pointer null. */
    method Setup() returns (r: int)
      requires Valid()
      modifies this`lookup
      ensures Valid()
      ensures r == 0 || r == 1
      ensures r == 0 <==> lookup == Prepared
      ensures r == 0 ==> dbOpen && TskFiles in store.tables
      ensures r == 1 ==> lookup == NoStmt
    {
      var ok := Oracle();
      if dbOpen && ok && Admissible(store, Prepare) {
        lookup := Prepared;
        r := 0;
      } else {
        lookup := NoStmt;
        r := 1;
      }
    }

    /** cleanup (lines 299-307): finalizes and clears the lookup statement;
      it returns 1 on every path, as written. A statement close already
      finalized would be finalized twice, so the model excludes it. */
    method Cleanup() returns (r: int)
      requires Valid()
      requires lookup != Finalized
      modifies this`lookup
      ensures Valid()
      ensures r == 1 && lookup == NoStmt
    {
      if lookup != NoStmt {
        lookup := NoStmt;
      }
      r := 1;
    }

    /** addObject (lines 136-153): on success one object row with the given
      parent and type is appended and its new id returned; nothing else
      changes. */
    method AddObject(t: ObjType, parObjId: int) returns (r: int, objId: int)
      requires Valid()
      modifies this`store
      ensures Valid()
      ensures r == 0 || r == 1
      ensures r == 0 ==> objId == NextObjId(old(store).objects)
                         && store == WithObject(old(store), Some(parObjId), t)
      ensures r == 0 ==> objId >= 1 && forall o :: o in old(store).objects ==> o.objId < objId
      ensures r == 1 ==> store == old(store)
    {
      r := AttemptExec(Insert(TskObjects, ""));
      if r == 1 {
        return 1, 0;
      }
      WithObjectFresh(store, Some(parObjId), t);
      objId := NextObjId(store.objects);
      store := WithObject(store, Some(parObjId), t);
    }

    /** addImageInfo (lines 309-328): an image object without a parent, then
      its tsk_image_info row. */
    method AddImageInfo(imgType: Int32, size: Int32) returns (r: int, objId: int)
      requires Valid()
      modifies this`store
      ensures Valid()
      ensures r == 0 || r == 1
      ensures r == 0 ==> objId == NextObjId(old(store).objects)
                         && store == WithObject(old(store), None, Img).(imageInfo :=
                                       old(store).imageInfo + [ImageInfoRow(objId, imgType, size)])
      ensures r == 1 ==> store == old(store)
                         || (objId == NextObjId(old(store).objects) && store == WithObject(old(store), None, Img))
    {
      r := AttemptExec(Insert(TskObjects, ""));
      if r == 1 {
        return 1, 0;
      }
      WithObjectFresh(store, None, Img);
      objId := NextObjId(store.objects);
      store := WithObject(store, None, Img);
      r := AttemptExec(Insert(TskImageInfo, ""));
      if r == 1 {
        return;
      }
      WithImageInfoConsistent(store, ImageInfoRow(objId, imgType, size));
      store := store.(imageInfo := store.imageInfo + [ImageInfoRow(objId, imgType, size)]);
    }

    /** addImageName (lines 330-343): the name is put between quotes without
      escaping, so the engine stores what it reads from it as a literal, and
      refuses a name whose quotes are not doubled. */
    method AddImageName(objId: int, imgName: CString, sequence: Int32) returns (r: int)
      requires Valid()
      modifies this`store
      ensures Valid()
      ensures r == 0 || r == 1
      ensures LiteralValue(imgName).None? ==> r == 1
      ensures r == 0 ==> LiteralValue(imgName).Some?
                         && store == old(store).(imageNames := old(store).imageNames
                                       + [ImageNameRow(objId, LiteralValue(imgName).value, sequence)])
      ensures r == 1 ==> store == old(store)
    {
      r := AttemptExec(Insert(TskImageNames, imgName));
      if r == 1 {
        return;
      }
      store := store.(imageNames := store.imageNames + [ImageNameRow(objId, LiteralValue(imgName).value, sequence)]);
    }

    /** addVsInfo (lines 346-363): a volume-system object under parObjId, then
      its tsk_vs_info row; no detail row when addObject fails. The unsigned
      block_size is printed with %d, so it is stored as an int. */
    method AddVsInfo(vs: VsInfo, parObjId: int) returns (r: int, objId: int)
      requires Valid()
      modifies this`store
      ensures Valid()
      ensures r == 0 || r == 1
      ensures r == 0 ==> objId == NextObjId(old(store).objects)
                         && store == WithObject(old(store), Some(parObjId), Vs).(vsInfo :=
                                       old(store).vsInfo + [VsInfoRow(objId, vs.vsType, vs.offset, Int32Of(vs.blockSize))])
      ensures r == 1 ==> store == old(store)
                         || (objId == NextObjId(old(store).objects) && store == WithObject(old(store), Some(parObjId), Vs))
    {
      r, objId := AddObject(Vs, parObjId);
      if r == 1 {
        return;
      }
      assert HasObject(store.objects, objId, Vs) by { WithObjectFresh(old(store), Some(parObjId), Vs); }
      r := AttemptExec(Insert(TskVsInfo, ""));
      if r == 1 {
        return;
      }
      WithVsInfoConsistent(store, VsInfoRow(objId, vs.vsType, vs.offset, Int32Of(vs.blockSize)));
      store := store.(vsInfo := store.vsInfo + [VsInfoRow(objId, vs.vsType, vs.offset, Int32Of(vs.blockSize))]);
    }

    /** addVolumeInfo (lines 369-390): a volume object under parObjId, then
      its tsk_vs_parts row. The description is quoted without escaping, as in
      addImageName. */
    method AddVolumeInfo(part: VsPartInfo, parObjId: int) returns (r: int, objId: int)
      requires Valid()
      modifies this`store
      ensures Valid()
      ensures r == 0 || r == 1
      ensures r == 0 ==> objId == NextObjId(old(store).objects) && LiteralValue(part.desc).Some?
                         && store == WithObject(old(store), Some(parObjId), Vol).(vsParts :=
                                       old(store).vsParts + [VsPartRow(objId, part.addr, part.start, part.len,
                                                                        LiteralValue(part.desc).value, part.flags)])
      ensures r == 1 ==> store == old(store)
                         || (objId == NextObjId(old(store).objects) && store == WithObject(old(store), Some(parObjId), Vol))
    {
      r, objId := AddObject(Vol, parObjId);
      if r == 1 {
        return;
      }
      assert HasObject(store.objects, objId, Vol) by { WithObjectFresh(old(store), Some(parObjId), Vol); }
      r := AttemptExec(Insert(TskVsParts, part.desc));
      if r == 1 {
        return;
      }
      // (int) vs_part->addr, printed with %u
      var addr := UInt32Of(Int32Of(part.addr));
      UnsignedOfCast(part.addr);
      var row := VsPartRow(objId, addr, part.start, part.len, LiteralValue(part.desc).value, part.flags);
      WithVsPartConsistent(store, row);
      store := store.(vsParts := store.vsParts + [row]);
    }

    /** addFsInfo (lines 392-414): a filesystem object under parObjId, then its
      tsk_fs_info row. */
    method AddFsInfo(fs: FsInfo, parObjId: int) returns (r: int, objId: int)
      requires Valid()
      modifies this`store
      ensures Valid()
      ensures r == 0 || r == 1
      ensures r == 0 ==> objId == NextObjId(old(store).objects)
                         && store == WithObject(old(store), Some(parObjId), Fs).(fsInfo :=
                                       old(store).fsInfo + [FsInfoRow(objId, fs.offset, Int32Of(fs.ftype), fs.blockSize,
                                                                       fs.blockCount, fs.rootInum, fs.firstInum, fs.lastInum)])
      ensures r == 1 ==> store == old(store)
                         || (objId == NextObjId(old(store).objects) && store == WithObject(old(store), Some(parObjId), Fs))
    {
      r, objId := AddObject(Fs, parObjId);
      if r == 1 {
        return;
      }
      assert HasObject(store.objects, objId, Fs) by { WithObjectFresh(old(store), Some(parObjId), Fs); }
      r := AttemptExec(Insert(TskFsInfo, ""));
      if r == 1 {
        return;
      }
      WithFsInfoConsistent(store, FsInfoRow(objId, fs.offset, Int32Of(fs.ftype), fs.blockSize,
                                            fs.blockCount, fs.rootInum, fs.firstInum, fs.lastInum));
      store := store.(fsInfo := store.fsInfo + [FsInfoRow(objId, fs.offset, Int32Of(fs.ftype), fs.blockSize,
                                                          fs.blockCount, fs.rootInum, fs.firstInum, fs.lastInum)]);
    }

    /** addFsFile (lines 425-462): no name is a success that writes nothing;
      the root directory's parent is the filesystem object; any other file's
      parent is found by the lookup query, and when the query finds no row
      (or the statement is null) nothing is written and 1 is returned. Only
      that last path uses the statement, so only there must it not be the
      one close finalized. */
    method AddFsFile(file: FsFile, attr: Option<FsAttr>, fsObjId: int) returns (r: int, objId: int)
      requires Valid()
      requires lookup == Finalized ==> file.name.None? || file.name.value.metaAddr == file.rootInum
      modifies this`store
      ensures Valid()
      ensures r == 0 || r == 1
      ensures file.name.None? ==> r == 0 && store == old(store)
      ensures file.name.Some? ==>
        var p := ResolveParent(old(store).files, file.name.value, file.rootInum, fsObjId);
        && (p.None? ==> r == 1 && store == old(store))
        && (r == 0 ==> p.Some? && objId == NextObjId(old(store).objects)
                       && store == WithObject(old(store), p, File).(files :=
                                     old(store).files + [FsFileRow(file.name.value, file.meta, attr, fsObjId, objId)]))
        && (r == 1 ==> store == old(store)
                       || (p.Some? && objId == NextObjId(old(store).objects) && store == WithObject(old(store), p, File)))
      ensures file.name.Some? && file.name.value.metaAddr != file.rootInum && lookup != Prepared
              ==> r == 1 && store == old(store)
    {
      if file.name.None? {
        return 0, 0;
      }
      var name := file.name.value;
      var parObjId: int;
      if file.rootInum == name.metaAddr {
        parObjId := fsObjId;
      } else {
        // sqlite3_reset on a null statement is a no-op; binding to it is misuse
        var bindCode := if lookup == Prepared then SQLITE_OK else SQLITE_MISUSE;
        if AttemptOk(bindCode) == 1 {
          return 1, 0;
        }
        var ok := Oracle();
        var found := FirstMatch(store.files, name.parAddr, fsObjId);
        var stepCode := if !ok then SQLITE_ERROR else if found.Some? then SQLITE_ROW else SQLITE_DONE;
        if Attempt(stepCode, SQLITE_ROW) == 1 {
          return 1, 0;
        }
        parObjId := store.files[found.value].objId;
      }
      r, objId := AddFile(file, attr, fsObjId, parObjId);
    }

    /** addFile (lines 469-599): the metadata columns default to 0 without
      meta; the name is escaped into its buffer; then a file object under
      parObjId and its tsk_files row. The buffer holds one byte more than the
      source allocates when there is an attribute name (see EscapeNameAsWritten). */
    method AddFile(file: FsFile, attr: Option<FsAttr>, fsObjId: int, parObjId: int) returns (r: int, objId: int)
      requires Valid()
      modifies this`store
      ensures Valid()
      ensures r == 0 || r == 1
      ensures file.name.None? ==> r == 0 && store == old(store)
      ensures file.name.Some? && r == 0 ==>
        objId == NextObjId(old(store).objects)
        && store == WithObject(old(store), Some(parObjId), File).(files :=
                      old(store).files + [FsFileRow(file.name.value, file.meta, attr, fsObjId, objId)])
      ensures file.name.Some? && r == 1 ==>
        store == old(store)
        || (objId == NextObjId(old(store).objects) && store == WithObject(old(store), Some(parObjId), File))
    {
      if file.name.None? {
        return 0, 0;
      }
      var fsName := file.name.value;
      var mtime, crtime, ctime, atime := 0, 0, 0, 0;
      var size := 0;
      var metaType, metaFlags, metaMode, gid, uid := 0, 0, 0, 0, 0;
      var attrType, idx := 0, 0;
      if file.meta.Some? {
        var m := file.meta.value;
        mtime := Int32Of(m.mtime);
        atime := Int32Of(m.atime);
        ctime := Int32Of(m.ctime);
        crtime := Int32Of(m.crtime);
        size := m.size;
        metaType := Int32Of(m.metaType);
        metaFlags := Int32Of(m.flags);
        metaMode := Int32Of(m.mode);
        gid := Int32Of(m.gid);
        uid := Int32Of(m.uid);
      }
      var attrName: CString := [];
      if attr.Some? {
        attrType := attr.value.attrType;
        idx := attr.value.id;
        if attr.value.name.Some? {
          if attr.value.attrType != TSK_FS_ATTR_TYPE_NTFS_IDXROOT || attr.value.name.value != NTFS_INDEX_NAME {
            attrName := attr.value.name.value;
          }
        }
      }
      var mallocOk := Oracle();
      if !mallocOk {
        return 1, 0;
      }
      var nameBuf, j := EscapeName(fsName.name, attrName);
      r, objId := AddObject(File, parObjId);
      if r == 1 {
        return;
      }
      assert HasObject(store.objects, objId, File) by { WithObjectFresh(old(store), Some(parObjId), File); }
      var literal := nameBuf[..j];
      r := AttemptExec(Insert(TskFiles, literal));
      if r == 1 {
        return;
      }
      DisplayLiteralDecodes(fsName.name, attrName);
      var row := FileRow(fsObjId, objId, FsFileType, Some(attrType), Some(idx),
        LiteralValue(literal).value, Some(fsName.metaAddr), fsName.nameType, metaType, fsName.flags, metaFlags,
        size, Some(crtime), Some(ctime), Some(atime), Some(mtime), Some(metaMode), Some(gid), Some(uid));
      assert row == FsFileRow(fsName, file.meta, attr, fsObjId, objId);
      WithFileConsistent(store, row);
      store := store.(files := store.files + [row]);
    }

    /** addFsBlockInfo (lines 652-674): one tsk_file_layout row, which the
      engine refuses when the table was not created (no block-map flag). The
      unsigned byte_start is printed with %lld, so it is stored signed. */
    method AddFsBlockInfo(fsObjId: int, fileObjId: int, byteStart: UInt64, byteLen: UInt64) returns (r: int)
      requires Valid()
      modifies this`store
      ensures Valid()
      ensures r == 0 || r == 1
      ensures TskFileLayout !in old(store).tables ==> r == 1
      ensures r == 0 ==> store == old(store).(layout := old(store).layout + [LayoutRow(fsObjId, Int64Of(byteStart), byteLen, fileObjId)])
      ensures r == 1 ==> store == old(store)
    {
      r := AttemptExec(Insert(TskFileLayout, ""));
      if r == 1 {
        return;
      }
      store := store.(layout := store.layout + [LayoutRow(fsObjId, Int64Of(byteStart), byteLen, fileObjId)]);
    }

    /** addCarvedFileInfo (lines 686-743): the name is escaped; a file object
      directly under the filesystem object, then a tsk_files row of type
      carved with no meta address, attribute or times, regular type and
      unallocated flags, and the given size. */
    method AddCarvedFileInfo(fsObjId: Int32, fileName: CString, size: UInt64) returns (r: int, objId: int)
      requires Valid()
      modifies this`store
      ensures Valid()
      ensures r == 0 || r == 1
      ensures r == 0 ==> objId == NextObjId(old(store).objects)
                         && store == WithObject(old(store), Some(fsObjId), File).(files :=
                                       old(store).files + [CarvedRow(fsObjId, objId, fileName, size)])
      ensures r == 1 ==> store == old(store)
                         || (objId == NextObjId(old(store).objects) && store == WithObject(old(store), Some(fsObjId), File))
    {
      var mallocOk := Oracle();
      if !mallocOk {
        return 1, 0;
      }
      var nameBuf, j := EscapeName(fileName, []);
      r, objId := AddObject(File, fsObjId);
      if r == 1 {
        return;
      }
      assert HasObject(store.objects, objId, File) by { WithObjectFresh(old(store), Some(fsObjId), File); }
      var literal := nameBuf[..j];
      r := AttemptExec(Insert(TskFiles, literal));
      if r == 1 {
        return;
      }
      DisplayLiteralDecodes(fileName, []);
      var row := FileRow(fsObjId, objId, CarvedFileType, None, None,
        LiteralValue(literal).value, None, TSK_FS_NAME_TYPE_REG, TSK_FS_META_TYPE_REG,
        TSK_FS_NAME_FLAG_UNALLOC, TSK_FS_NAME_FLAG_UNALLOC, size, None, None, None, None, None, None, None);
      assert row == CarvedRow(fsObjId, objId, fileName, size);
      WithFileConsistent(store, row);
      store := store.(files := store.files + [row]);
    }
  }
}
