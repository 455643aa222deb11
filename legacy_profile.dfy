/**
 * The older, stand-alone profile generator (drakpdb.py at the top of the
 * repository): its own primitive-type table, members with their offsets,
 * a symbol loop where the last write wins, and an upper-case GUID string
 * with a decimal age. `undname` (a C extension) is an argument.
 */
module LegacyProfile {
  import opened Wrappers
  import opened PdbRecords
  import opened PyStr
  import opened PyDict
  import opened Numerals
  import TypeInfo
  import SymbolMapper
  import Profile

  /** The older, smaller primitive-type table, in the same three parts. */
  const LegacyTypeEnumToVtype: map<string, TypeInfo.VType> :=
    TypeInfo.BuildTable(LegacyPointer32Targets, LegacyPointer64Targets, LegacyPrimitiveNames)

  const LegacyPointer32Targets: map<string, string> := map[
      "T_32PINT4" := "long",
      "T_32PLONG" := "long",
      "T_32PQUAD" := "long long",
      "T_32PRCHAR" := "unsigned char",
      "T_32PREAL32" := "Void",
      "T_32PREAL64" := "Void",
      "T_32PSHORT" := "short",
      "T_32PUCHAR" := "unsigned char",
      "T_32PUINT4" := "unsigned int",
      "T_32PULONG" := "unsigned long",
      "T_32PUQUAD" := "unsigned long long",
      "T_32PUSHORT" := "unsigned short",
      "T_32PVOID" := "Void",
      "T_32PWCHAR" := "UnicodeString"
    ]

  const LegacyPointer64Targets: map<string, string> := map[
      "T_64PLONG" := "long",
      "T_64PQUAD" := "long long",
      "T_64PRCHAR" := "unsigned char",
      "T_64PUCHAR" := "unsigned char",
      "T_64PWCHAR" := "String",
      "T_64PULONG" := "unsigned long",
      "T_64PUQUAD" := "unsigned long long",
      "T_64PUSHORT" := "unsigned short",
      "T_64PVOID" := "Void"
    ]

  const LegacyPrimitiveNames: map<string, string> := map[
      "T_BOOL08" := "unsigned char",
      "T_CHAR" := "char",
      "T_INT4" := "long",
      "T_INT8" := "long long",
      "T_LONG" := "long",
      "T_QUAD" := "long long",
      "T_RCHAR" := "unsigned char",
      "T_REAL32" := "float",
      "T_REAL64" := "double",
      "T_REAL80" := "long double",
      "T_SHORT" := "short",
      "T_UCHAR" := "unsigned char",
      "T_UINT4" := "unsigned long",
      "T_ULONG" := "unsigned long",
      "T_UQUAD" := "unsigned long long",
      "T_USHORT" := "unsigned short",
      "T_VOID" := "Void",
      "T_WCHAR" := "UnicodeString"
    ]

  /**
   * `get_field_type_info`: an enum tag is looked up in the table (a missing
   * tag raises KeyError); any other index gives its name, or "<unknown>"
   * when it has none.
   */
  function FieldTypeInfo(index: LeafNode): (r: Result<TypeInfo.VType, Raised>)
    ensures r.Err? ==> r.error.KeyError?
  {
    match index
    case EnumTag(tag) =>
      if tag in LegacyTypeEnumToVtype then Ok(LegacyTypeEnumToVtype[tag]) else Err(KeyError(tag))
    case Leaf(_, name, _, _, _, _) =>
      Ok(TypeInfo.VType(if name.Some? then name.value else TypeInfo.Unknown, map[]))
  }

  /**
   * The older table has the same shape as the newer one: every pointer tag
   * maps to a Pointer with only a non-empty target, every other tag to a
   * plain name with empty params.
   */
  lemma LegacyTableShape()
    ensures forall tag | tag in LegacyTypeEnumToVtype ::
              if TypeInfo.IsPointerTag(tag) then
                && LegacyTypeEnumToVtype[tag].name == "Pointer"
                && LegacyTypeEnumToVtype[tag].params.Keys == {"target"}
                && LegacyTypeEnumToVtype[tag].params["target"].Text?
                && LegacyTypeEnumToVtype[tag].params["target"].text != ""
              else
                && LegacyTypeEnumToVtype[tag].name != "Pointer"
                && LegacyTypeEnumToVtype[tag].name != ""
                && LegacyTypeEnumToVtype[tag].params == map[]
  {
    LegacyPointer32Shape();
    LegacyPointer64Shape();
    LegacyPrimitiveShape();
    TypeInfo.BuiltTableShape(LegacyPointer32Targets, LegacyPointer64Targets, LegacyPrimitiveNames);
  }

  lemma LegacyPointer32Shape()
    ensures forall tag | tag in LegacyPointer32Targets :: TypeInfo.IsPointerTag(tag) && LegacyPointer32Targets[tag] != ""
  {
  }

  lemma LegacyPointer64Shape()
    ensures forall tag | tag in LegacyPointer64Targets :: TypeInfo.IsPointerTag(tag) && LegacyPointer64Targets[tag] != ""
  {
  }

  lemma LegacyPrimitiveShape()
    ensures forall tag | tag in LegacyPrimitiveNames :: !TypeInfo.IsPointerTag(tag) && LegacyPrimitiveNames[tag] !in {"", "Pointer"}
  {
  }

  /**
   * An enum-tagged field gives its table entry, or a KeyError naming the
   * tag; any other field gives its index's name with empty params, or
   * "<unknown>" when the index has no name.
   */
  lemma DecodeField(index: LeafNode)
    ensures index.EnumTag? && index.tag in LegacyTypeEnumToVtype ==> FieldTypeInfo(index) == Ok(LegacyTypeEnumToVtype[index.tag])
    ensures index.EnumTag? && index.tag !in LegacyTypeEnumToVtype ==> FieldTypeInfo(index) == Err(KeyError(index.tag))
    ensures index.Leaf? && index.name.Some? ==> FieldTypeInfo(index) == Ok(TypeInfo.VType(index.name.value, map[]))
    ensures index.Leaf? && index.name.None? ==> FieldTypeInfo(index) == Ok(TypeInfo.VType("<unknown>", map[]))
  {
  }

  /** `[offset, type]` of one member. */
  datatype FieldEntry = FieldEntry(offset: int, vtype: TypeInfo.VType)

  /** `[size, {name: [offset, type]}]` */
  datatype StructLayout = StructLayout(size: int, fields: map<string, FieldEntry>)

  function FieldInfo(member: Member): (r: Result<FieldEntry, Raised>)
    ensures r.Err? ==> r.error.KeyError?
  {
    var vtype :- FieldTypeInfo(member.index);
    Ok(FieldEntry(member.offset, vtype))
  }

  function MemberKey(member: Member): string {
    member.name
  }

  /** `struct_info.fieldlist.substructs`, where a missing field list (AttributeError, caught) yields nothing. */
  function Substructs(s: StructRecord): seq<Member> {
    if s.fieldlist.Some? then s.fieldlist.value else []
  }

  /** No later member of `ms` has the name of member `i`. */
  ghost predicate LastOfName(ms: seq<Member>, i: nat)
    requires i < |ms|
  {
    forall j | i < j < |ms| :: ms[j].name != ms[i].name
  }

  /** Every member's name has a last occurrence at or after it. */
  lemma {:induction false} LastOccurrence(ms: seq<Member>, i: nat)
    requires i < |ms|
    ensures exists j | i <= j < |ms| :: ms[j].name == ms[i].name && LastOfName(ms, j)
    decreases |ms| - i
  {
    if !LastOfName(ms, i) {
      var j :| i < j < |ms| && ms[j].name == ms[i].name;
      LastOccurrence(ms, j);
    }
  }

  /** The `ss` dictionary after the loop `ss[struct.name] = struct` over `ms`. */
  function Collect(ms: seq<Member>): (d: Dict<Member>)
    ensures d.Valid()
    decreases |ms|
  {
    if ms == [] then EmptyDict() else Collect(ms[..|ms| - 1]).Put(ms[|ms| - 1].name, ms[|ms| - 1])
  }

  /** Every collected member is stored under its own name. */
  lemma {:induction false} CollectUnderOwnName(ms: seq<Member>)
    ensures forall k | k in Collect(ms).entries :: Collect(ms).entries[k].name == k
    decreases |ms|
  {
    if ms != [] {
      CollectUnderOwnName(ms[..|ms| - 1]);
    }
  }

  /** The collected names are the members' names. */
  lemma {:induction false} CollectKeys(ms: seq<Member>)
    ensures Collect(ms).entries.Keys == set j | 0 <= j < |ms| :: ms[j].name
    decreases |ms|
  {
    if ms != [] {
      var init := ms[..|ms| - 1];
      CollectKeys(init);
      assert forall j | 0 <= j < |init| :: init[j] == ms[j];
      assert (set j | 0 <= j < |ms| :: ms[j].name) == (set j | 0 <= j < |init| :: init[j].name) + {ms[|ms| - 1].name};
    }
  }

  /** The member kept under a name is the last member carrying it. */
  lemma {:induction false} CollectKeepsLast(ms: seq<Member>, j: nat)
    requires j < |ms| && LastOfName(ms, j)
    ensures ms[j].name in Collect(ms).entries && Collect(ms).entries[ms[j].name] == ms[j]
    decreases |ms|
  {
    var init := ms[..|ms| - 1];
    if j < |init| {
      assert init[j] == ms[j];
      assert LastOfName(init, j) by {
        forall k | j < k < |init| ensures init[k].name != init[j].name {
          assert init[k] == ms[k];
        }
      }
      CollectKeepsLast(init, j);
    }
  }

  /** The `ss` loop of process_struct. */
  method CollectMembers(ms: seq<Member>) returns (ss: Dict<Member>)
    ensures ss == Collect(ms)
  {
    ss := EmptyDict();
    var i := 0;
    while i < |ms|
      invariant 0 <= i <= |ms|
      invariant ss == Collect(ms[..i])
    {
      assert ms[..i + 1][..i] == ms[..i];
      ss := ss.Put(ms[i].name, ms[i]);
      i := i + 1;
    }
    assert ms[..i] == ms;
  }

  /** The last member of each name is among the collected values, and every value is one. */
  lemma CollectedValues(ms: seq<Member>)
    ensures forall i | 0 <= i < |ms| && LastOfName(ms, i) ::
      exists k | 0 <= k < |Collect(ms).keys| :: Collect(ms).Values()[k] == ms[i]
    ensures forall k | 0 <= k < |Collect(ms).keys| ::
      exists i | 0 <= i < |ms| && LastOfName(ms, i) :: Collect(ms).Values()[k] == ms[i]
  {
    var ss := Collect(ms);
    var values := ss.Values();
    CollectKeys(ms);
    forall i | 0 <= i < |ms| && LastOfName(ms, i)
      ensures exists k | 0 <= k < |ss.keys| :: values[k] == ms[i]
    {
      CollectKeepsLast(ms, i);
      var k :| 0 <= k < |ss.keys| && ss.keys[k] == ms[i].name;
      assert values[k] == ms[i];
    }
    forall k | 0 <= k < |ss.keys|
      ensures exists i | 0 <= i < |ms| && LastOfName(ms, i) :: values[k] == ms[i]
    {
      var name := ss.keys[k];
      assert name in ss.entries.Keys;
      var j :| 0 <= j < |ms| && ms[j].name == name;
      LastOccurrence(ms, j);
      var i :| j <= i < |ms| && ms[i].name == name && LastOfName(ms, i);
      CollectKeepsLast(ms, i);
      assert values[k] == ms[i];
    }
  }

  /** `process_struct`: `[struct_info.size, field_info]`. */
  function ProcessStructValue(s: StructRecord): Result<StructLayout, Raised> {
    var fields :- Comprehend(Collect(Substructs(s)).Values(), MemberKey, FieldInfo);
    Ok(StructLayout(s.size, fields))
  }

  /** `process_struct`, with its loop over the members run in place. */
  method ProcessStruct(s: StructRecord) returns (r: Result<StructLayout, Raised>)
    ensures r == ProcessStructValue(s)
  {
    var ss := CollectMembers(Substructs(s));
    var fieldInfo := Comprehend(ss.Values(), MemberKey, FieldInfo);
    if fieldInfo.Err? {
      return Err(fieldInfo.error);
    }
    r := Ok(StructLayout(s.size, fieldInfo.value));
  }

  /**
   * process_struct raises exactly when, for some name, the last member
   * carrying it has an enum tag the table lacks, and then it is a KeyError.
   */
  lemma ProcessStructRaises(s: StructRecord)
    ensures ProcessStructValue(s).Ok? <==> forall i | 0 <= i < |Substructs(s)| && LastOfName(Substructs(s), i) ::
      FieldTypeInfo(Substructs(s)[i].index).Ok?
    ensures ProcessStructValue(s).Err? ==> ProcessStructValue(s).error.KeyError?
  {
    var ms := Substructs(s);
    var values := Collect(ms).Values();
    CollectedValues(ms);
    ComprehendSucceeds(values, MemberKey, FieldInfo);
    if Comprehend(values, MemberKey, FieldInfo).Err? {
      ComprehendRaisesFirst(values, MemberKey, FieldInfo);
    }
  }

  /** The size is kept, and the fields are keyed by the members' distinct names. */
  lemma ProcessStructKeys(s: StructRecord)
    requires ProcessStructValue(s).Ok?
    ensures ProcessStructValue(s).value.size == s.size
    ensures ProcessStructValue(s).value.fields.Keys == set i | 0 <= i < |Substructs(s)| :: Substructs(s)[i].name
  {
    var ms := Substructs(s);
    var ss := Collect(ms);
    var values := ss.Values();
    CollectUnderOwnName(ms);
    CollectKeys(ms);
    ComprehendKeys(values, MemberKey, FieldInfo);
    assert (set k | 0 <= k < |values| :: MemberKey(values[k])) == ss.entries.Keys by {
      forall name | name in ss.entries.Keys
        ensures name in (set k | 0 <= k < |values| :: MemberKey(values[k]))
      {
        var k :| 0 <= k < |ss.keys| && ss.keys[k] == name;
        assert MemberKey(values[k]) == name;
      }
    }
  }

  /** Each field holds the offset and type of the last member of that name. */
  lemma ProcessStructLast(s: StructRecord, i: nat)
    requires ProcessStructValue(s).Ok?
    requires i < |Substructs(s)| && LastOfName(Substructs(s), i)
    ensures Substructs(s)[i].name in ProcessStructValue(s).value.fields
    ensures FieldInfo(Substructs(s)[i]).Ok?
    ensures ProcessStructValue(s).value.fields[Substructs(s)[i].name] == FieldInfo(Substructs(s)[i]).value
  {
    var ms := Substructs(s);
    var ss := Collect(ms);
    var values := ss.Values();
    CollectUnderOwnName(ms);
    CollectKeepsLast(ms, i);
    var k :| 0 <= k < |ss.keys| && ss.keys[k] == ms[i].name;
    assert values[k] == ms[i];
    assert forall j | k < j < |values| :: MemberKey(values[j]) != MemberKey(values[k]) by {
      forall j | k < j < |values| ensures MemberKey(values[j]) != MemberKey(values[k]) {
        assert values[j].name == ss.keys[j];
      }
    }
    ComprehendLastWins(values, MemberKey, FieldInfo, k);
  }

  /** A symbol's name in the older generator: names starting "?" go through `undname`. */
  function LegacyName(undname: string -> string, name: string): string {
    if StartsWith(name, "?") then undname(name) else name
  }

  /** The older symbol loop's result: the last write for each name wins. */
  function LegacyTables(syms: seq<Symbol>, sects: seq<Section>, remap: Remap, undname: string -> string): SymbolMapper.SymbolTables
    decreases |syms|
  {
    if syms == [] then SymbolMapper.SymbolTables(map[], map[])
    else
      var t := LegacyTables(syms[..|syms| - 1], sects, remap, undname);
      var sym := syms[|syms| - 1];
      match SymbolMapper.Resolve(sym, sects, remap)
      case None => t
      case Some((bucket, addr)) =>
        var name := LegacyName(undname, sym.name);
        if bucket == SymbolMapper.Functions then SymbolMapper.SymbolTables(t.functions[name := addr], t.constants)
        else SymbolMapper.SymbolTables(t.functions, t.constants[name := addr])
  }

  /** The older symbol loop, writing into $FUNCTIONS and $CONSTANTS in place. */
  method LegacyMapSymbols(syms: seq<Symbol>, sects: seq<Section>, remap: Remap, undname: string -> string)
    returns (t: SymbolMapper.SymbolTables)
    ensures t == LegacyTables(syms, sects, remap, undname)
  {
    var functions: map<string, int> := map[];
    var constants: map<string, int> := map[];
    var i := 0;
    while i < |syms|
      invariant 0 <= i <= |syms|
      invariant LegacyTables(syms[..i], sects, remap, undname) == SymbolMapper.SymbolTables(functions, constants)
    {
      assert syms[..i + 1][..i] == syms[..i];
      var sym := syms[i];
      var resolved := SymbolMapper.Resolve(sym, sects, remap);
      if resolved.Some? {
        var (bucket, mapped) := resolved.value;
        var name := sym.name;
        if StartsWith(name, "?") {
          name := undname(name);
        }
        if bucket == SymbolMapper.Functions {
          functions := functions[name := mapped];
        } else {
          constants := constants[name := mapped];
        }
      }
      i := i + 1;
    }
    assert syms[..i] == syms;
    t := SymbolMapper.SymbolTables(functions, constants);
  }

  /** The addresses that land in bucket `b` under `name` in the older generator, in symbol order. */
  function LegacyAddresses(syms: seq<Symbol>, sects: seq<Section>, remap: Remap, undname: string -> string,
                           b: SymbolMapper.Bucket, name: string): seq<int>
  {
    SymbolMapper.AddressesOf(syms, sects, remap, s => Ok(LegacyName(undname, s)), b, name)
  }

  /**
   * In the older generator a name is present exactly when some symbol lands
   * under it, and it holds the address of the last such symbol.
   */
  lemma {:induction false} LegacyLastWins(syms: seq<Symbol>, sects: seq<Section>, remap: Remap, undname: string -> string,
                                          b: SymbolMapper.Bucket, name: string)
    ensures var table := SymbolMapper.TableOf(LegacyTables(syms, sects, remap, undname), b);
      var addrs := LegacyAddresses(syms, sects, remap, undname, b, name);
      && (name in table <==> addrs != [])
      && (name in table ==> table[name] == addrs[|addrs| - 1])
    decreases |syms|
  {
    if syms != [] {
      LegacyLastWins(syms[..|syms| - 1], sects, remap, undname, b, name);
    }
  }

  /** `"%.8X%.4X%.4X%s" % (Data1, Data2, Data3, Data4.hex().upper())` and then `"%s" % Age`. */
  function LegacyGuidAge(guid: Guid, age: nat): string {
    PaddedDigits(guid.data1 as nat, 8, HexUpper)
      + PaddedDigits(guid.data2 as nat, 4, HexUpper)
      + PaddedDigits(guid.data3 as nat, 4, HexUpper)
      + Upper(HexBytes(guid.data4, HexLower))
      + Digits(age, DecimalDigits)
  }

  /** Upper-casing a zero-padded lower-case hex numeral gives the upper-case one. */
  lemma UpperOfPaddedHex(n: nat, width: nat)
    ensures Upper(PaddedDigits(n, width, HexLower)) == PaddedDigits(n, width, HexUpper)
  {
    var lo, up := Digits(n, HexLower), Digits(n, HexUpper);
    UpperOfLowerHex(n);
    assert |lo| == |up|;
    if |lo| < width {
      var zeros := seq(width - |lo|, _ => HexLower[0]);
      assert Upper(zeros + lo) == Upper(zeros) + Upper(lo);
      assert Upper(zeros) == seq(width - |up|, _ => HexUpper[0]);
    }
  }

  lemma UpperDistributes(a: string, b: string)
    ensures Upper(a + b) == Upper(a) + Upper(b)
  {
  }

  /**
   * The older GUID/age string is the upper-cased GUID part of the symstore
   * hash followed by the age in decimal rather than hex.
   */
  lemma LegacyGuidAgeVersusSymstoreHash(guid: Guid, age: nat)
    ensures LegacyGuidAge(guid, age) == Upper(Profile.GuidHex(guid)) + Digits(age, DecimalDigits)
    ensures Profile.SymstoreHash(guid, age) == Profile.GuidHex(guid) + Digits(age, HexLower)
  {
    var p1 := PaddedDigits(guid.data1 as nat, 8, HexLower);
    var p2 := PaddedDigits(guid.data2 as nat, 4, HexLower);
    var p3 := PaddedDigits(guid.data3 as nat, 4, HexLower);
    var h := HexBytes(guid.data4, HexLower);
    UpperOfPaddedHex(guid.data1 as nat, 8);
    UpperOfPaddedHex(guid.data2 as nat, 4);
    UpperOfPaddedHex(guid.data3 as nat, 4);
    UpperDistributes(p1 + p2 + p3, h);
    UpperDistributes(p1 + p2, p3);
    UpperDistributes(p1, p2);
  }

  /** Age 10 is written "10" by the older generator and "a" in the symstore hash. */
  lemma AgeTenExample()
    ensures Digits(10, DecimalDigits) == "10"
    ensures Digits(10, HexLower) == "a"
  {
  }

  /**
   * The older generator appends ".pdb" before taking the stem, so the stem
   * is never empty and its profile class never raises; when the given
   * name's base has a character other than ".", the stem is that base.
   */
  lemma LegacyStem(filepath: string)
    ensures Profile.BaseFilename(filepath + ".pdb") != []
    ensures (exists i | 0 <= i < |Basename(filepath)| :: Basename(filepath)[i] != '.') ==>
      Profile.BaseFilename(filepath + ".pdb") == Basename(filepath)
    ensures Profile.ProfileClass(Profile.BaseFilename(filepath + ".pdb")).Ok?
  {
    BasenameAppend(filepath, ".pdb");
    RFindLast(Basename(filepath), ".pdb");
  }

  /** Appending text without "/" appends it to the base name. */
  lemma BasenameAppend(s: string, t: string)
    requires '/' !in t
    ensures Basename(s + t) == Basename(s) + t
  {
    RFindAppend(s, t, '/');
    if RFind(s, '/').Some? {
      var i := RFind(s, '/').value;
      assert (s + t)[i + 1..] == s[i + 1..] + t;
    }
  }

  /** Appending text without `c` does not move the last `c`. */
  lemma RFindAppend(s: string, t: string, c: char)
    requires c !in t
    ensures RFind(s + t, c) == RFind(s, c)
  {
    var r := RFind(s + t, c);
    if RFind(s, c).Some? {
      var i := RFind(s, c).value;
      assert (s + t)[i] == c;
      assert forall j | i < j < |s + t| :: (s + t)[j] != c by {
        forall j | i < j < |s + t| ensures (s + t)[j] != c {
          if j < |s| {
            assert s[i + 1..][j - i - 1] == s[j];
          } else {
            assert t[j - |s|] == (s + t)[j];
          }
        }
      }
      RFindIs(s + t, c, i);
    } else {
      assert forall j | 0 <= j < |s + t| :: (s + t)[j] != c by {
        forall j | 0 <= j < |s + t| ensures (s + t)[j] != c {
          if j < |s| {
            assert s[j] == (s + t)[j];
          } else {
            assert t[j - |s|] == (s + t)[j];
          }
        }
      }
    }
  }

  /** The stem of `b + ".pdb"` for a base `b` without "/". */
  lemma RFindLast(b: string, ext: string)
    requires ext == ".pdb"
    requires '/' !in b
    ensures SplitextRoot(b + ext) != []
    ensures (exists i | 0 <= i < |b| :: b[i] != '.') ==> SplitextRoot(b + ext) == b
  {
    var p := b + ext;
    assert '/' !in p by {
      forall j | 0 <= j < |p| ensures p[j] != '/' {
        if j < |b| { assert p[j] == b[j]; } else { assert p[j] == ext[j - |b|]; }
      }
    }
    assert p[|b|] == '.';
    assert forall j | |b| < j < |p| :: p[j] != '.' by {
      forall j | |b| < j < |p| ensures p[j] != '.' {
        assert p[j] == ext[j - |b|];
      }
    }
    RFindIs(p, '.', |b|);
    assert p[..|b|] == b;
    if exists i | 0 <= i < |b| :: b[i] != '.' {
      var i :| 0 <= i < |b| && b[i] != '.';
      assert p[i] == b[i];
    }
  }

  /** The older profile document: symbol tables, structures with offsets, metadata. */
  datatype LegacyProfileDoc = LegacyProfileDoc(
    functions: map<string, int>,
    constants: map<string, int>,
    structs: map<string, StructLayout>,
    metadata: Profile.Metadata)

  function StructureName(item: (string, StructRecord)): string {
    item.0
  }

  function StructureLayout(item: (string, StructRecord)): Result<StructLayout, Raised> {
    ProcessStructValue(item.1)
  }

  /**
   * The older `make_pdb_profile`, on an already parsed PDB: the structures
   * first (where a KeyError escapes), then the symbols, then the metadata,
   * all for the file name with ".pdb" appended.
   */
  function LegacyProfileOf(filepath: string, pdb: PdbStreams, timestamp: string, undname: string -> string)
    : Result<LegacyProfileDoc, Raised>
  {
    var (sects, remap) := Profile.AddressSpace(pdb);
    var structs :- Comprehend(pdb.structures, StructureName, StructureLayout);
    var tables := LegacyTables(pdb.globals, sects, remap, undname);
    var path := filepath + ".pdb";
    var profileClass :- Profile.ProfileClass(Profile.BaseFilename(path));
    Ok(LegacyProfileDoc(
      tables.functions,
      tables.constants,
      structs,
      Profile.Metadata(
        None,  // the older $METADATA has no DLL_GUID_AGE key at all
        LegacyGuidAge(pdb.info.guid, pdb.info.age),
        Basename(path),
        profileClass,
        timestamp,
        "Profile",
        pdb.info.version)))
  }

  /** The loop `profile["$STRUCTS"][structName] = structFields` over the structure names. */
  method CopyStructs(items: seq<(string, StructRecord)>, specs: map<string, StructLayout>)
    returns (structs: map<string, StructLayout>)
    requires specs.Keys == set j | 0 <= j < |items| :: StructureName(items[j])
    ensures structs == specs
  {
    structs := map[];
    var i := 0;
    while i < |items|
      invariant 0 <= i <= |items|
      invariant structs.Keys == set j | 0 <= j < i :: StructureName(items[j])
      invariant forall k | k in structs :: k in specs && structs[k] == specs[k]
    {
      var name := items[i].0;
      assert name == StructureName(items[i]);
      structs := structs[name := specs[name]];
      assert (set j | 0 <= j < i + 1 :: StructureName(items[j]))
          == (set j | 0 <= j < i :: StructureName(items[j])) + {name};
      i := i + 1;
    }
  }

  /** The older `make_pdb_profile`, copying the structure layouts into $STRUCTS and then mapping the symbols. */
  method LegacyMakePdbProfile(filepath: string, pdb: PdbStreams, timestamp: string, undname: string -> string)
    returns (r: Result<LegacyProfileDoc, Raised>)
    ensures r == LegacyProfileOf(filepath, pdb, timestamp, undname)
  {
    var path := filepath + ".pdb";
    var (sects, remap) := Profile.AddressSpace(pdb);
    var structSpecs := Comprehend(pdb.structures, StructureName, StructureLayout);
    if structSpecs.Err? {
      return Err(structSpecs.error);
    }
    ComprehendKeys(pdb.structures, StructureName, StructureLayout);
    var structs := CopyStructs(pdb.structures, structSpecs.value);
    var tables := LegacyMapSymbols(pdb.globals, sects, remap, undname);
    LegacyStem(filepath);
    var profileClass := Profile.ProfileClass(Profile.BaseFilename(path));
    var metadata := Profile.Metadata(
      None,
      LegacyGuidAge(pdb.info.guid, pdb.info.age),
      Basename(path),
      profileClass.value,
      timestamp,
      "Profile",
      pdb.info.version);
    r := Ok(LegacyProfileDoc(tables.functions, tables.constants, structs, metadata));
  }

  /**
   * The older generator fails exactly when some structure's layout raises,
   * and then with a KeyError.
   */
  lemma LegacyProfileRaises(filepath: string, pdb: PdbStreams, timestamp: string, undname: string -> string)
    ensures LegacyProfileOf(filepath, pdb, timestamp, undname).Ok? <==>
      forall i | 0 <= i < |pdb.structures| :: ProcessStructValue(pdb.structures[i].1).Ok?
    ensures LegacyProfileOf(filepath, pdb, timestamp, undname).Err? ==>
      LegacyProfileOf(filepath, pdb, timestamp, undname).error.KeyError?
  {
    var items := pdb.structures;
    LegacyStem(filepath);
    ComprehendSucceeds(items, StructureName, StructureLayout);
    var specs := Comprehend(items, StructureName, StructureLayout);
    if specs.Err? {
      ComprehendRaisesFirst(items, StructureName, StructureLayout);
      var i :| 0 <= i < |items| && StructureLayout(items[i]) == Err(specs.error);
      ProcessStructRaises(items[i].1);
    }
  }

  /** When it succeeds, its structures are keyed by the structure names. */
  lemma LegacyProfileStructs(filepath: string, pdb: PdbStreams, timestamp: string, undname: string -> string)
    requires LegacyProfileOf(filepath, pdb, timestamp, undname).Ok?
    ensures LegacyProfileOf(filepath, pdb, timestamp, undname).value.structs.Keys
      == set i | 0 <= i < |pdb.structures| :: pdb.structures[i].0
  {
    ComprehendKeys(pdb.structures, StructureName, StructureLayout);
  }

  /**
   * When it succeeds, its GUID/age string is the older one, its PDB file is
   * the base name with ".pdb", and it records no DLL GUID: `dllGuidAge ==
   * None` stands here for a key that is absent, where the newer generator
   * writes the key with the value null.
   */
  lemma LegacyProfileMetadata(filepath: string, pdb: PdbStreams, timestamp: string, undname: string -> string)
    requires LegacyProfileOf(filepath, pdb, timestamp, undname).Ok?
    ensures var m := LegacyProfileOf(filepath, pdb, timestamp, undname).value.metadata;
      && m.guidAge == LegacyGuidAge(pdb.info.guid, pdb.info.age)
      && m.pdbFile == Basename(filepath) + ".pdb"
      && m.dllGuidAge.None?
      && m.profileType == "Profile"
      && m.timestamp == timestamp
      && m.version == pdb.info.version
  {
    BasenameAppend(filepath, ".pdb");
  }
}
