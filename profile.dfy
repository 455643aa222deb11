/**
 * make_symstore_hash and make_pdb_profile of drakpdb/drakpdb.py: the
 * identity string of a PDB and the profile document built from its parsed
 * streams. The parsed streams, the build time stamp (already formatted) and
 * the command-line options are arguments.
 */
module Profile {
  import opened Wrappers
  import opened PdbRecords
  import opened PyStr
  import opened Numerals
  import TypeInfo
  import SymbolMapper
  import Demangler

  /** `"%08x%04x%04x%s" % (Data1, Data2, Data3, Data4.hex())` */
  function GuidHex(guid: Guid): string {
    PaddedDigits(guid.data1 as nat, 8, HexLower)
      + PaddedDigits(guid.data2 as nat, 4, HexLower)
      + PaddedDigits(guid.data3 as nat, 4, HexLower)
      + HexBytes(guid.data4, HexLower)
  }

  /** `make_symstore_hash`: the GUID string followed by `"%x" % Age`. */
  function SymstoreHash(guid: Guid, age: nat): string {
    GuidHex(guid) + Digits(age, HexLower)
  }

  /** The four GUID fields occupy fixed columns: 8, 4, 4 and 16 lower-case hex digits. */
  lemma GuidHexLayout(guid: Guid)
    ensures |GuidHex(guid)| == 32
    ensures GuidHex(guid)[..8] == PaddedDigits(guid.data1 as nat, 8, HexLower)
    ensures GuidHex(guid)[8..12] == PaddedDigits(guid.data2 as nat, 4, HexLower)
    ensures GuidHex(guid)[12..16] == PaddedDigits(guid.data3 as nat, 4, HexLower)
    ensures GuidHex(guid)[16..] == HexBytes(guid.data4, HexLower)
  {
    assert Pow(16, 8) == 0x1_0000_0000;
    assert Pow(16, 4) == 0x1_0000;
    PaddedLength(guid.data1 as nat, 8, HexLower);
    PaddedLength(guid.data2 as nat, 4, HexLower);
    PaddedLength(guid.data3 as nat, 4, HexLower);
    HexBytesLength(guid.data4, HexLower);
  }

  /** The GUID string is made of lower-case hex digits only. */
  lemma GuidHexInAlphabet(guid: Guid)
    ensures forall i | 0 <= i < |GuidHex(guid)| :: GuidHex(guid)[i] in HexLower
  {
    PaddedInAlphabet(guid.data1 as nat, 8, HexLower);
    PaddedInAlphabet(guid.data2 as nat, 4, HexLower);
    PaddedInAlphabet(guid.data3 as nat, 4, HexLower);
    HexBytesInAlphabet(guid.data4);
  }

  /** Each column of the GUID string reads back as its field. */
  lemma GuidHexReadsBack(guid: Guid)
    ensures forall i | 0 <= i < |GuidHex(guid)| :: GuidHex(guid)[i] in HexLower
    ensures Value(GuidHex(guid)[..8], HexLower) == guid.data1 as nat
    ensures Value(GuidHex(guid)[8..12], HexLower) == guid.data2 as nat
    ensures Value(GuidHex(guid)[12..16], HexLower) == guid.data3 as nat
  {
    GuidHexInAlphabet(guid);
    GuidHexLayout(guid);
    AlphabetsAreAlphabets();
    PaddedRoundTrip(guid.data1 as nat, 8, HexLower);
    PaddedRoundTrip(guid.data2 as nat, 4, HexLower);
    PaddedRoundTrip(guid.data3 as nat, 4, HexLower);
  }

  /** The hash is longer than the 32 GUID digits, and all lower-case hex. */
  lemma SymstoreHashInAlphabet(guid: Guid, age: nat)
    ensures |SymstoreHash(guid, age)| > 32
    ensures forall i | 0 <= i < |SymstoreHash(guid, age)| :: SymstoreHash(guid, age)[i] in HexLower
  {
    GuidHexLayout(guid);
    GuidHexInAlphabet(guid);
  }

  /**
   * The hash is 32 GUID digits and then the age, all lower-case hex digits,
   * and the columns read back as the fields.
   */
  lemma SymstoreHashReadsBack(guid: Guid, age: nat)
    ensures |SymstoreHash(guid, age)| > 32
    ensures forall i | 0 <= i < |SymstoreHash(guid, age)| :: SymstoreHash(guid, age)[i] in HexLower
    ensures Value(SymstoreHash(guid, age)[..8], HexLower) == guid.data1 as nat
    ensures Value(SymstoreHash(guid, age)[8..12], HexLower) == guid.data2 as nat
    ensures Value(SymstoreHash(guid, age)[12..16], HexLower) == guid.data3 as nat
    ensures Value(SymstoreHash(guid, age)[32..], HexLower) == age
  {
    var g := GuidHex(guid);
    var h := SymstoreHash(guid, age);
    SymstoreHashInAlphabet(guid, age);
    GuidHexLayout(guid);
    GuidHexReadsBack(guid);
    assert h[..8] == g[..8];
    assert h[8..12] == g[8..12];
    assert h[12..16] == g[12..16];
    assert h[32..] == Digits(age, HexLower);
    AlphabetsAreAlphabets();
    DigitsRoundTrip(age, HexLower);
  }

  lemma {:induction false} HexBytesInAlphabet(bs: seq<byte>)
    ensures forall i | 0 <= i < |HexBytes(bs, HexLower)| :: HexBytes(bs, HexLower)[i] in HexLower
    decreases |bs|
  {
    if bs != [] {
      PaddedInAlphabet(bs[0] as nat, 2, HexLower);
      HexBytesInAlphabet(bs[1..]);
    }
  }

  /** Two PDBs share a symstore hash only if they share GUID and age. */
  lemma SymstoreHashInjective(g1: Guid, a1: nat, g2: Guid, a2: nat)
    requires SymstoreHash(g1, a1) == SymstoreHash(g2, a2)
    ensures g1 == g2 && a1 == a2
  {
    var h := SymstoreHash(g1, a1);
    GuidHexLayout(g1);
    GuidHexLayout(g2);
    AlphabetsAreAlphabets();
    assert GuidHex(g1) == h[..32] == GuidHex(g2);
    assert Digits(a1, HexLower) == h[32..] == Digits(a2, HexLower);
    DigitsInjective(a1, a2, HexLower);
    PaddedInjective(g1.data1 as nat, g2.data1 as nat, 8, HexLower);
    PaddedInjective(g1.data2 as nat, g2.data2 as nat, 4, HexLower);
    PaddedInjective(g1.data3 as nat, g2.data3 as nat, 4, HexLower);
    HexBytesInjective(g1.data4, g2.data4, HexLower);
  }

  /**
   * `base_filename[0].upper() + base_filename[1:].lower()`; indexing an
   * empty name raises IndexError.
   */
  function ProfileClass(baseFilename: string): Result<string, Raised> {
    if baseFilename == [] then Err(IndexError("string index out of range"))
    else Ok([UpperChar(baseFilename[0])] + Lower(baseFilename[1..]))
  }

  /** `os.path.splitext(os.path.basename(filepath))[0]` */
  function BaseFilename(filepath: string): string {
    SplitextRoot(Basename(filepath))
  }

  /** A profile class is already capitalised: applying the rule again changes nothing. */
  lemma ProfileClassIdempotent(name: string)
    requires ProfileClass(name).Ok?
    ensures ProfileClass(ProfileClass(name).value) == ProfileClass(name)
  {
    var c := ProfileClass(name).value;
    assert c[1..] == Lower(name[1..]);
    CaseOfCase(name[0]);
    LowerOfCase(name[1..]);
  }

  /** The profile class ignores the case of the file name's letters. */
  lemma ProfileClassIgnoresCase(name: string)
    ensures ProfileClass(Upper(name)) == ProfileClass(name)
    ensures ProfileClass(Lower(name)) == ProfileClass(name)
  {
    if name != [] {
      assert Upper(name)[1..] == Upper(name[1..]);
      assert Lower(name)[1..] == Lower(name[1..]);
      CaseOfCase(name[0]);
      LowerOfCase(name[1..]);
    }
  }

  /**
   * The section table and address translation: the original section
   * headers with the OMAP when the PDB has both, otherwise the section
   * headers with the identity (reading a missing stream raises
   * AttributeError, which selects the fallback).
   */
  function AddressSpace(pdb: PdbStreams): (seq<Section>, Remap) {
    if pdb.sectHdrOrig.Some? && pdb.omapFromSrc.Some? then (pdb.sectHdrOrig.value, pdb.omapFromSrc.value)
    else (pdb.sectHdr, DummyRemap)
  }

  /** Without an OMAP or without the original section headers, addresses are not translated. */
  lemma AddressSpaceWithoutOmap(pdb: PdbStreams)
    requires pdb.sectHdrOrig.None? || pdb.omapFromSrc.None?
    ensures AddressSpace(pdb).0 == pdb.sectHdr
    ensures forall addr :: AddressSpace(pdb).1(addr) == Some(addr)
  {
  }

  /** `profile["$METADATA"]` */
  datatype Metadata = Metadata(
    dllGuidAge: Option<string>,
    guidAge: string,
    pdbFile: string,
    profileClass: string,
    timestamp: string,
    profileType: string,
    version: int)

  /** The profile document before it is serialised as JSON. */
  datatype ProfileDoc = ProfileDoc(
    functions: map<string, int>,
    constants: map<string, int>,
    structs: map<string, TypeInfo.Layout>,
    metadata: Metadata,
    dllPath: Option<string>)

  /** The options of make_pdb_profile that reach the document. */
  datatype Options = Options(dllOriginPath: Option<string>, dllSymstoreHash: Option<string>)

  /** `if dll_origin_path:` - absent and empty both leave out "DLLPath". */
  function ExtrasPath(dllOriginPath: Option<string>): Option<string> {
    if dllOriginPath.Some? && dllOriginPath.value != "" then dllOriginPath else None
  }

  /**
   * make_pdb_profile, as a value: the types first, then the symbols, then
   * the metadata, each raising what the source lets escape.
   */
  function ProfileOf(filepath: string, pdb: PdbStreams, timestamp: string, options: Options): Result<ProfileDoc, Raised> {
    var (sects, remap) := AddressSpace(pdb);
    var structs :- TypeInfo.ProcessTpi(pdb.structures);
    var tables :- SymbolMapper.SymbolTablesOf(pdb.globals, sects, remap, Demangler.DemangleName);
    var profileClass :- ProfileClass(BaseFilename(filepath));
    Ok(ProfileDoc(
      tables.functions,
      tables.constants,
      structs,
      Metadata(
        options.dllSymstoreHash,
        SymstoreHash(pdb.info.guid, pdb.info.age),
        Basename(filepath),
        profileClass,
        timestamp,
        "Profile",
        pdb.info.version),
      ExtrasPath(options.dllOriginPath)))
  }

  /** make_pdb_profile: the symbol loops run in place, the rest is assembled around them. */
  method MakePdbProfile(filepath: string, pdb: PdbStreams, timestamp: string, options: Options)
    returns (r: Result<ProfileDoc, Raised>)
    ensures r == ProfileOf(filepath, pdb, timestamp, options)
  {
    var (sects, remap) := AddressSpace(pdb);
    var tpi := TypeInfo.ProcessTpi(pdb.structures);
    if tpi.Err? {
      return Err(tpi.error);
    }
    var tables := SymbolMapper.MapSymbols(pdb.globals, sects, remap, Demangler.DemangleName);
    if tables.Err? {
      return Err(tables.error);
    }
    var profileClass := ProfileClass(BaseFilename(filepath));
    if profileClass.Err? {
      return Err(profileClass.error);
    }
    var metadata := Metadata(
      options.dllSymstoreHash,
      SymstoreHash(pdb.info.guid, pdb.info.age),
      Basename(filepath),
      profileClass.value,
      timestamp,
      "Profile",
      pdb.info.version);
    var dllPath: Option<string> := None;
    if options.dllOriginPath.Some? && options.dllOriginPath.value != "" {
      dllPath := options.dllOriginPath;
    }
    r := Ok(ProfileDoc(tables.value.functions, tables.value.constants, tpi.value, metadata, dllPath));
  }

  /**
   * A profile is produced exactly when the types decode, no symbol's name
   * fails to demangle and the file name has a non-empty stem. The document
   * then holds the decoded types and the two symbol tables; its metadata
   * carries the symstore hash, the file's base name, the profile class of
   * its stem, the timestamp, "Profile" and the PDB's format version.
   */
  lemma ProfileOutcome(filepath: string, pdb: PdbStreams, timestamp: string, options: Options)
    ensures ProfileOf(filepath, pdb, timestamp, options).Ok? <==>
      TypeInfo.ProcessTpi(pdb.structures).Ok?
      && !SymbolMapper.SomeDemanglingRaises(pdb.globals, AddressSpace(pdb).0, AddressSpace(pdb).1, Demangler.DemangleName)
      && BaseFilename(filepath) != []
    ensures ProfileOf(filepath, pdb, timestamp, options).Ok? ==>
      var doc := ProfileOf(filepath, pdb, timestamp, options).value;
      && doc.structs == TypeInfo.ProcessTpi(pdb.structures).value
      && doc.functions == SymbolMapper.SymbolTablesOf(pdb.globals, AddressSpace(pdb).0, AddressSpace(pdb).1, Demangler.DemangleName).value.functions
      && doc.constants == SymbolMapper.SymbolTablesOf(pdb.globals, AddressSpace(pdb).0, AddressSpace(pdb).1, Demangler.DemangleName).value.constants
      && doc.metadata.profileClass == ProfileClass(BaseFilename(filepath)).value
      && doc.metadata.timestamp == timestamp
      && doc.metadata.version == pdb.info.version
      && doc.metadata.guidAge == SymstoreHash(pdb.info.guid, pdb.info.age)
      && doc.metadata.pdbFile == Basename(filepath)
      && doc.metadata.profileType == "Profile"
      && doc.metadata.dllGuidAge == options.dllSymstoreHash
      && (doc.dllPath.Some? <==> options.dllOriginPath.Some? && options.dllOriginPath.value != "")
      && (doc.dllPath.Some? ==> doc.dllPath == options.dllOriginPath)
  {
    var (sects, remap) := AddressSpace(pdb);
    SymbolMapper.GroupingRaises(pdb.globals, sects, remap, Demangler.DemangleName);
  }

  /**
   * When no grouped function name clashes with another one's suffixed form,
   * the k-th smallest address among the function symbols demangled to
   * `name` is in $FUNCTIONS under `name` (k = 0) or `name_k`, with or
   * without an OMAP.
   */
  lemma ProfileFunctionsTable(filepath: string, pdb: PdbStreams, timestamp: string, options: Options,
                              g: SymbolMapper.Groups, name: string, k: nat)
    requires ProfileOf(filepath, pdb, timestamp, options).Ok?
    requires SymbolMapper.GroupSymbols(pdb.globals, AddressSpace(pdb).0, AddressSpace(pdb).1, Demangler.DemangleName) == Ok(g)
    requires SymbolMapper.NoClash(g.functions)
    requires k < |SymbolMapper.AddressesOf(pdb.globals, AddressSpace(pdb).0, AddressSpace(pdb).1, Demangler.DemangleName, SymbolMapper.Functions, name)|
    ensures var doc := ProfileOf(filepath, pdb, timestamp, options).value;
      && SymbolMapper.SuffixedName(name, k) in doc.functions
      && doc.functions[SymbolMapper.SuffixedName(name, k)]
         == SymbolMapper.SortAscending(SymbolMapper.AddressesOf(pdb.globals, AddressSpace(pdb).0, AddressSpace(pdb).1, Demangler.DemangleName, SymbolMapper.Functions, name))[k]
  {
    var (sects, remap) := AddressSpace(pdb);
    SymbolMapper.SymbolTableEntry(pdb.globals, sects, remap, Demangler.DemangleName, g, SymbolMapper.Functions, name, k);
  }
}
