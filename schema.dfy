/** The SQLite database as the code sees it, abstracted to in-memory tables:
    which tables exist, the rows of each, and the rule by which the engine
    accepts or refuses one statement. */
module Schema {
  import opened Wrappers
  import opened Names

  datatype Table =
    | TskDbInfo | TskObjects | TskImageInfo | TskImageNames | TskVsInfo | TskVsParts
    | TskFsInfo | TskFiles | TskFilesPath | TskFilesDerived | TskFilesDerivedMethod
    | TskFileLayout

  /** DB_OBJECT_TYPES: the kind of entity an object row stands for. */
  datatype ObjType = Img | Vs | Vol | Fs | File

  /** DB_FILES_TYPES: how a file row was found. */
  datatype FileType = FsFileType | CarvedFileType

  datatype DbInfoRow = DbInfoRow(schemaVer: int, tskVer: int)
  datatype ObjectRow = ObjectRow(objId: int, parObjId: Option<int>, objType: ObjType)
  datatype ImageInfoRow = ImageInfoRow(objId: int, imgType: int, ssize: int)
  datatype ImageNameRow = ImageNameRow(objId: int, name: string, sequence: int)
  datatype VsInfoRow = VsInfoRow(objId: int, vsType: int, imgOffset: int, blockSize: int)
  datatype VsPartRow = VsPartRow(objId: int, addr: int, start: int, length: int, desc: string, flags: int)
  datatype FsInfoRow = FsInfoRow(objId: int, imgOffset: int, fsType: int, blockSize: int,
                                 blockCount: int, rootInum: int, firstInum: int, lastInum: int)
  /** A tsk_files row; None is an SQL NULL. */
  datatype FileRow = FileRow(
    fsObjId: int, objId: int, fileType: FileType, attrType: Option<int>, attrId: Option<int>,
    name: string, metaAddr: Option<int>, dirType: int, metaType: int, dirFlags: int,
    metaFlags: int, size: int, crtime: Option<int>, ctime: Option<int>, atime: Option<int>,
    mtime: Option<int>, mode: Option<int>, gid: Option<int>, uid: Option<int>)
  datatype LayoutRow = LayoutRow(fsId: int, byteStart: int, byteLen: int, objId: int)

  /** The database file: the tables created so far, in creation order, the
      parObjId index, and the rows of every table the code writes. */
  datatype Store = Store(
    tables: seq<Table>, parObjIdIndex: bool,
    dbInfo: seq<DbInfoRow>, objects: seq<ObjectRow>, imageInfo: seq<ImageInfoRow>,
    imageNames: seq<ImageNameRow>, vsInfo: seq<VsInfoRow>, vsParts: seq<VsPartRow>,
    fsInfo: seq<FsInfoRow>, files: seq<FileRow>, layout: seq<LayoutRow>)

  /** A new, empty database file. */
  const EmptyStore := Store([], false, [], [], [], [], [], [], [], [], [])

  /** The statements the code sends, as far as their acceptance goes. Insert
      carries the text it quotes as an SQL literal ("" when it has none). */
  datatype Stmt = Pragma | CreateTable(table: Table) | CreateIndex | Prepare | Insert(into: Table, text: string)

  /** When the engine can accept a statement on this database: a table is
      created once, rows go only into existing tables, quoted text must be the
      body of one literal, and the lookup query needs tsk_files. */
  predicate Admissible(s: Store, st: Stmt) {
    match st
    case Pragma => true
    case CreateTable(t) => t !in s.tables
    case CreateIndex => TskObjects in s.tables && !s.parObjIdIndex
    case Prepare => TskFiles in s.tables
    case Insert(t, text) => t in s.tables && LiteralValue(text).Some?
  }

  predicate HasObject(objects: seq<ObjectRow>, id: int, t: ObjType) {
    exists o :: o in objects && o.objId == id && o.objType == t
  }

  /** Object ids are assigned in increasing order (the rowid of an
      INTEGER PRIMARY KEY column inserted as NULL). */
  predicate IdsIncreasing(objects: seq<ObjectRow>) {
    forall i, j :: 0 <= i < j < |objects| ==> objects[i].objId < objects[j].objId
  }

  /** Rows only sit in tables that exist. */
  predicate RowsInCreatedTables(s: Store) {
    && (s.dbInfo != [] ==> TskDbInfo in s.tables)
    && (s.objects != [] ==> TskObjects in s.tables)
    && (s.imageInfo != [] ==> TskImageInfo in s.tables)
    && (s.imageNames != [] ==> TskImageNames in s.tables)
    && (s.vsInfo != [] ==> TskVsInfo in s.tables)
    && (s.vsParts != [] ==> TskVsParts in s.tables)
    && (s.fsInfo != [] ==> TskFsInfo in s.tables)
    && (s.files != [] ==> TskFiles in s.tables)
    && (s.layout != [] ==> TskFileLayout in s.tables)
    && (s.parObjIdIndex ==> TskObjects in s.tables)
  }

  /** The invariant every writer keeps: ids are positive and increasing, and
      every detail row is keyed by an object of its own kind. */
  predicate Consistent(s: Store) {
    && IdsIncreasing(s.objects)
    && (forall o :: o in s.objects ==> o.objId >= 1)
    && (forall r :: r in s.imageInfo ==> HasObject(s.objects, r.objId, Img))
    && (forall r :: r in s.vsInfo ==> HasObject(s.objects, r.objId, Vs))
    && (forall r :: r in s.vsParts ==> HasObject(s.objects, r.objId, Vol))
    && (forall r :: r in s.fsInfo ==> HasObject(s.objects, r.objId, Fs))
    && (forall r :: r in s.files ==> HasObject(s.objects, r.objId, File))
    && RowsInCreatedTables(s)
  }

  /** sqlite3_last_insert_rowid after inserting an object with a NULL id:
      one more than the largest id, 1 in an empty table. */
  function NextObjId(objects: seq<ObjectRow>): int {
    if objects == [] then 1 else objects[|objects| - 1].objId + 1
  }

  /** The store after inserting one object row. */
  function WithObject(s: Store, parent: Option<int>, t: ObjType): Store {
    s.(objects := s.objects + [ObjectRow(NextObjId(s.objects), parent, t)])
  }

  /** A new object's id is positive and larger than every existing id, so it
      is unique, and the insert keeps the store consistent. */
  lemma {:induction false} WithObjectFresh(s: Store, parent: Option<int>, t: ObjType)
    requires Consistent(s) && TskObjects in s.tables
    ensures NextObjId(s.objects) >= 1
    ensures forall o :: o in s.objects ==> o.objId < NextObjId(s.objects)
    ensures Consistent(WithObject(s, parent, t))
    ensures HasObject(WithObject(s, parent, t).objects, NextObjId(s.objects), t)
  {
    var objs := s.objects;
    var n := NextObjId(objs);
    forall o | o in objs ensures o.objId < n {
      var i :| 0 <= i < |objs| && objs[i] == o;
      if i < |objs| - 1 { assert objs[i].objId < objs[|objs| - 1].objId; }
    }
    var s' := WithObject(s, parent, t);
    var o' := ObjectRow(n, parent, t);
    assert s'.objects == objs + [o'];
    assert o' in s'.objects;
    assert forall o :: o in objs ==> o in s'.objects;
    forall id, k | HasObject(objs, id, k) ensures HasObject(s'.objects, id, k) {
      var o :| o in objs && o.objId == id && o.objType == k;
      assert o in s'.objects;
    }
    assert IdsIncreasing(s'.objects) by {
      forall i, j | 0 <= i < j < |s'.objects| ensures s'.objects[i].objId < s'.objects[j].objId {
        if j == |objs| { assert s'.objects[i] in objs; }
      }
    }
  }

  /** Appending a detail row keyed by an object of the right kind, to a table
      that exists, keeps the store consistent; so do new tables, the index and
      rows of the tables whose keys are not checked. */
  lemma {:induction false} WithImageInfoConsistent(s: Store, row: ImageInfoRow)
    requires Consistent(s) && TskImageInfo in s.tables && HasObject(s.objects, row.objId, Img)
    ensures Consistent(s.(imageInfo := s.imageInfo + [row]))
  {
    var s' := s.(imageInfo := s.imageInfo + [row]);
    forall r | r in s'.imageInfo ensures HasObject(s.objects, r.objId, Img) {
      if r != row { assert r in s.imageInfo; }
    }
  }

  lemma {:induction false} WithVsInfoConsistent(s: Store, row: VsInfoRow)
    requires Consistent(s) && TskVsInfo in s.tables && HasObject(s.objects, row.objId, Vs)
    ensures Consistent(s.(vsInfo := s.vsInfo + [row]))
  {
    var s' := s.(vsInfo := s.vsInfo + [row]);
    forall r | r in s'.vsInfo ensures HasObject(s.objects, r.objId, Vs) {
      if r != row { assert r in s.vsInfo; }
    }
  }

  lemma {:induction false} WithVsPartConsistent(s: Store, row: VsPartRow)
    requires Consistent(s) && TskVsParts in s.tables && HasObject(s.objects, row.objId, Vol)
    ensures Consistent(s.(vsParts := s.vsParts + [row]))
  {
    var s' := s.(vsParts := s.vsParts + [row]);
    forall r | r in s'.vsParts ensures HasObject(s.objects, r.objId, Vol) {
      if r != row { assert r in s.vsParts; }
    }
  }

  lemma {:induction false} WithFsInfoConsistent(s: Store, row: FsInfoRow)
    requires Consistent(s) && TskFsInfo in s.tables && HasObject(s.objects, row.objId, Fs)
    ensures Consistent(s.(fsInfo := s.fsInfo + [row]))
  {
    var s' := s.(fsInfo := s.fsInfo + [row]);
    forall r | r in s'.fsInfo ensures HasObject(s.objects, r.objId, Fs) {
      if r != row { assert r in s.fsInfo; }
    }
  }

  lemma {:induction false} WithFileConsistent(s: Store, row: FileRow)
    requires Consistent(s) && TskFiles in s.tables && HasObject(s.objects, row.objId, File)
    ensures Consistent(s.(files := s.files + [row]))
  {
    var s' := s.(files := s.files + [row]);
    forall r | r in s'.files ensures HasObject(s.objects, r.objId, File) {
      if r != row { assert r in s.files; }
    }
  }

  lemma WithDbInfoConsistent(s: Store, row: DbInfoRow)
    requires Consistent(s) && TskDbInfo in s.tables
    ensures Consistent(s.(dbInfo := s.dbInfo + [row]))
  {
    var s' := s.(dbInfo := s.dbInfo + [row]);
    assert s'.objects == s.objects && s'.files == s.files;
  }

  /** A file row the lookup query can return for (addr, fsObjId):
      meta_addr IS addr AND fs_obj_id IS fsObjId. A NULL meta_addr (a carved
      file) never matches. */
  predicate MatchesParent(f: FileRow, addr: int, fsObjId: int) {
    f.metaAddr == Some(addr) && f.fsObjId == fsObjId
  }

  /** The row the lookup query steps to: the engine scans tsk_files in
      insertion order, so the first matching row. */
  function FirstMatch(files: seq<FileRow>, addr: int, fsObjId: int): (r: Option<nat>)
    ensures r.None? <==> forall k :: 0 <= k < |files| ==> !MatchesParent(files[k], addr, fsObjId)
    ensures r.Some? ==> r.value < |files| && MatchesParent(files[r.value], addr, fsObjId)
    ensures r.Some? ==> forall k :: 0 <= k < r.value ==> !MatchesParent(files[k], addr, fsObjId)
  {
    if files == [] then None
    else if MatchesParent(files[0], addr, fsObjId) then Some(0)
    else
      match FirstMatch(files[1..], addr, fsObjId)
      case None => None
      case Some(k) => Some(k + 1)
  }

  /** The parent found by the lookup is a file already in the store. */
  lemma LookupFindsFileObject(s: Store, addr: int, fsObjId: int)
    requires Consistent(s) && FirstMatch(s.files, addr, fsObjId).Some?
    ensures HasObject(s.objects, s.files[FirstMatch(s.files, addr, fsObjId).value].objId, File)
  {
    var k := FirstMatch(s.files, addr, fsObjId).value;
    assert s.files[k] in s.files;
  }
}
