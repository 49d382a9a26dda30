/** The records the filesystem and volume walkers hand to the database layer
    (TSK_VS_INFO, TSK_VS_PART_INFO, TSK_FS_INFO, TSK_FS_FILE with its name and
    meta parts, TSK_FS_ATTR), reduced to the fields db_sqlite.cpp reads, and the
    library constants it uses. */
module Tsk {
  import opened Wrappers
  import opened Names

  /** The C type int. */
  type Int32 = x: int | -0x8000_0000 <= x < 0x8000_0000

  /** Assignment of a wider integer (time_t, a uid) to an int local: the value
      is taken modulo 2^32 into the signed range, as the usual compilers do. */
  function Int32Of(x: int): (r: Int32)
    ensures -0x8000_0000 <= x < 0x8000_0000 ==> r == x
    ensures (x - r) % 0x1_0000_0000 == 0
  {
    var m := x % 0x1_0000_0000;
    if m < 0x8000_0000 then m else m - 0x1_0000_0000
  }

  /** The C types int64_t and uint64_t. */
  type Int64 = x: int | -0x8000_0000_0000_0000 <= x < 0x8000_0000_0000_0000
  type UInt64 = x: int | 0 <= x < 0x1_0000_0000_0000_0000

  /** Printing a 64-bit value with %lld: its bits read as signed. */
  function Int64Of(x: int): (r: Int64)
    ensures -0x8000_0000_0000_0000 <= x < 0x8000_0000_0000_0000 ==> r == x
    ensures (x - r) % 0x1_0000_0000_0000_0000 == 0
  {
    var m := x % 0x1_0000_0000_0000_0000;
    if m < 0x8000_0000_0000_0000 then m else m - 0x1_0000_0000_0000_0000
  }

  /** The C types unsigned int and uint32_t (TSK_PNUM_T, a partition address). */
  type UInt32 = x: int | 0 <= x < 0x1_0000_0000

  /** Printing an int with %u: its two's-complement bits read as unsigned. */
  function UInt32Of(x: Int32): (r: UInt32)
    ensures 0 <= x ==> r == x
    ensures (r - x) % 0x1_0000_0000 == 0
  {
    if x < 0 then x + 0x1_0000_0000 else x
  }

  /** A uint32_t cast to int and printed with %u comes out unchanged. */
  lemma UnsignedOfCast(x: UInt32)
    ensures UInt32Of(Int32Of(x)) == x
  {
    if x >= 0x8000_0000 {
      assert Int32Of(x) == x - 0x1_0000_0000;
    }
  }

  /** Values of tsk_fs.h (which is not part of this model) that the source uses. */
  const TSK_FS_ATTR_TYPE_NTFS_IDXROOT: int := 0x90
  const TSK_FS_NAME_TYPE_REG: int := 5
  const TSK_FS_META_TYPE_REG: int := 1
  const TSK_FS_NAME_FLAG_UNALLOC: int := 2

  /** The index-root attribute name that NTFS directories carry. */
  const NTFS_INDEX_NAME: string := "$I30"

  datatype VsInfo = VsInfo(vsType: int, offset: int, blockSize: UInt32)

  datatype VsPartInfo = VsPartInfo(addr: UInt32, start: UInt64, len: UInt64, desc: CString, flags: int)

  datatype FsInfo = FsInfo(offset: int, ftype: int, blockSize: UInt32, blockCount: UInt64,
                           rootInum: nat, firstInum: nat, lastInum: nat)

  /** TSK_FS_NAME: the directory entry. */
  datatype FsName = FsName(name: CString, metaAddr: nat, parAddr: nat, nameType: int, flags: int)

  /** TSK_FS_META: the metadata record. */
  datatype FsMeta = FsMeta(mtime: int, atime: int, ctime: int, crtime: int, size: int,
                           metaType: int, flags: int, mode: int, gid: int, uid: int)

  /** TSK_FS_FILE: the name and meta pointers may be null; rootInum is
      fs_file->fs_info->root_inum. */
  datatype FsFile = FsFile(name: Option<FsName>, meta: Option<FsMeta>, rootInum: nat)

  /** TSK_FS_ATTR: the name pointer may be null. */
  datatype FsAttr = FsAttr(attrType: int, id: int, name: Option<CString>)
}
