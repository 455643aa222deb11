/**
 * The records the PDB parser hands to the profile builder. The parser itself
 * (streams, construct containers) is not part of this model: its outputs are
 * plain values here.
 */
module PdbRecords {
  import opened Wrappers

  newtype uint16 = x: int | 0 <= x < 0x1_0000
  newtype uint32 = x: int | 0 <= x < 0x1_0000_0000
  newtype byte = x: int | 0 <= x < 0x100

  /** The Python exceptions that can escape the core. */
  datatype Raised =
    | AttributeError(attribute: string)
    | ValueError(reason: string)
    | KeyError(key: string)
    | IndexError(reason: string)

  /**
   * A type-leaf node as the parser produces it. `EnumTag` is an
   * enum-tagged primitive (an `EnumIntegerString` such as "T_INT4").
   * Every other node is a record whose attributes may be present or not:
   * the decoders only read the attributes their leaf kind needs, and a
   * missing one raises AttributeError exactly as attribute access would.
   * A node without a `leaf_type` attribute has `leafType == None`.
   */
  datatype LeafNode =
    | EnumTag(tag: string)
    | Leaf(leafType: Option<string>,
           name: Option<string>,
           utype: Option<LeafNode>,
           position: Option<int>,
           length: Option<int>,
           baseType: Option<LeafNode>)

  /** A `LF_MEMBER` entry of a field list. */
  datatype Member = Member(name: string, offset: int, index: LeafNode)

  /**
   * A named aggregate of the type stream. `fieldlist == None` stands for a
   * field list without `substructs` (a forward declaration, usually T_NOTYPE).
   */
  datatype StructRecord = StructRecord(leafType: string, size: int, fieldlist: Option<seq<Member>>)

  /**
   * A global symbol. `offset == None` is a record without an `offset`
   * attribute; `segment` is 1-based.
   */
  datatype Symbol = Symbol(name: string, segment: int, offset: Option<int>, symtype: nat)

  datatype Section = Section(virtualAddress: int)

  type Bytes8 = s: seq<byte> | |s| == 8 witness [0, 0, 0, 0, 0, 0, 0, 0]

  datatype Guid = Guid(data1: uint32, data2: uint16, data3: uint16, data4: Bytes8)

  /** The PDB info stream: identity (GUID, age), build time and format version. */
  datatype PdbInfo = PdbInfo(guid: Guid, age: nat, version: int)

  /**
   * An OMAP's `remap`: the translated address, or None when the lookup
   * raises IndexError or AttributeError (the symbol loop's `try` catches
   * both and skips the symbol).
   */
  type Remap = int -> Option<int>

  /**
   * The streams make_pdb_profile reads. The OMAP table is an opaque
   * address translation; `None` means the stream is absent.
   */
  datatype PdbStreams = PdbStreams(
    sectHdr: seq<Section>,
    sectHdrOrig: Option<seq<Section>>,
    omapFromSrc: Option<Remap>,
    globals: seq<Symbol>,
    structures: seq<(string, StructRecord)>,
    info: PdbInfo)

  /** `DummyOmap.remap`: the translation used when a PDB carries no OMAP. */
  function DummyRemap(addr: int): Option<int> {
    Some(addr)
  }
}
