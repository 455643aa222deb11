/**
 * The type-leaf decoder and structure flattener of drakpdb/type_info.py:
 * a type-leaf node becomes `[type_name, {params}]`, a structure becomes
 * `[size, {member_name: decoded type}]`, and the type stream becomes the
 * `$STRUCTS` section of the profile.
 */
module TypeInfo {
  import opened Wrappers
  import opened PdbRecords
  import PyDict

  /** A value inside a decoded type's parameter dict. */
  datatype Param = Text(text: string) | Int(number: int) | Args(args: map<string, Param>)

  /** `[type_name, {params}]`. */
  datatype VType = VType(name: string, params: map<string, Param>)

  /**
   * What a member decodes to: a `[name, {params}]` pair, or, for an
   * enum tag missing from the table, the bare string "<unknown>".
   */
  datatype MemberType = Typed(vtype: VType) | BareUnknown

  /** `[size, {member_name: decoded type}]`. */
  datatype Layout = Layout(size: int, members: map<string, MemberType>)

  const Unknown := "<unknown>"

  function PointerTo(target: string): VType {
    VType("Pointer", map["target" := Text(target)])
  }

  function Scalar(name: string): VType {
    VType(name, map[])
  }

  /**
   * The table of well-known primitive type tags (derived from Rekall). It is
   * written here in three parts: the 32-bit and the 64-bit pointers to
   * primitives, given by the name of their target, and the primitives
   * themselves, given by their name.
   */
  const TypeEnumToVtype: map<string, VType> := BuildTable(Pointer32Targets, Pointer64Targets, PrimitiveNames)

  function BuildTable(pointer32: map<string, string>, pointer64: map<string, string>, primitives: map<string, string>): map<string, VType> {
    (map tag | tag in pointer32 :: PointerTo(pointer32[tag]))
    + (map tag | tag in pointer64 :: PointerTo(pointer64[tag]))
    + (map tag | tag in primitives :: Scalar(primitives[tag]))
  }

  const Pointer32Targets: map<string, string> := map[
      "T_32PINT4" := "long",
      "T_32PLONG" := "long",
      "T_32PQUAD" := "long long",
      "T_32PRCHAR" := "unsigned char",
      "T_32PREAL32" := "Void",
      "T_32PREAL64" := "Void",
      "T_32PSHORT" := "short",
      "T_32PUCHAR" := "unsigned char",
      "T_32PUINT4" := "unsigned int",
      "T_32PULONG" := "unsigned long",
      "T_32PUQUAD" := "unsigned long long",
      "T_32PUSHORT" := "unsigned short",
      "T_32PVOID" := "Void",
      "T_32PWCHAR" := "UnicodeString",
      "T_32PHRESULT" := "long"
    ]

  const Pointer64Targets: map<string, string> := map[
      "T_64PINT4" := "long",
      "T_64PLONG" := "long",
      "T_64PQUAD" := "long long",
      "T_64PSHORT" := "short",
      "T_64PRCHAR" := "unsigned char",
      "T_64PUCHAR" := "unsigned char",
      "T_64PCHAR" := "char",
      "T_64PWCHAR" := "String",
      "T_64PULONG" := "unsigned long",
      "T_64PUQUAD" := "unsigned long long",
      "T_64PUSHORT" := "unsigned short",
      "T_64PVOID" := "Void",
      "T_64PREAL32" := "float",
      "T_64PREAL64" := "double",
      "T_64PUINT4" := "unsigned int",
      "T_64PHRESULT" := "long"
    ]

  const PrimitiveNames: map<string, string> := map[
      "T_BOOL08" := "unsigned char",
      "T_CHAR" := "char",
      "T_INT4" := "long",
      "T_INT8" := "long long",
      "T_LONG" := "long",
      "T_QUAD" := "long long",
      "T_RCHAR" := "unsigned char",
      "T_REAL32" := "float",
      "T_REAL64" := "double",
      "T_REAL80" := "long double",
      "T_SHORT" := "short",
      "T_UCHAR" := "unsigned char",
      "T_UINT4" := "unsigned long",
      "T_UINT8" := "unsigned long long",
      "T_ULONG" := "unsigned long",
      "T_UQUAD" := "unsigned long long",
      "T_USHORT" := "unsigned short",
      "T_VOID" := "Void",
      "T_WCHAR" := "UnicodeString",
      "T_HRESULT" := "long"
    ]

  /** The kinds `process_member_type` dispatches on, and their handlers. */
  datatype Handler = ReferenceHandler | BitfieldHandler | PointerHandler

  const ComplexLeafTypes: map<string, Handler> := map[
      "LF_STRUCTURE" := ReferenceHandler,
      "LF_UNION" := ReferenceHandler,
      "LF_BITFIELD" := BitfieldHandler,
      "LF_POINTER" := PointerHandler
    ]

  /** A reference to a named aggregate: its name, without its members. */
  function ProcessStructureReference(member: LeafNode): Result<MemberType, Raised>
    requires member.Leaf?
    decreases member, 0
  {
    if member.name.None? then Err(AttributeError("name"))
    else Ok(Typed(VType(member.name.value, map[])))
  }

  function ProcessPointer(member: LeafNode): Result<MemberType, Raised>
    requires member.Leaf?
    decreases member, 0
  {
    if member.utype.None? then Err(AttributeError("utype"))
    else
      var base :- ProcessBaseTypeInfo(member.utype.value);
      Ok(Typed(VType("Pointer", base)))
  }

  function ProcessBitfield(member: LeafNode): Result<MemberType, Raised>
    requires member.Leaf?
    decreases member, 0
  {
    if member.position.None? then Err(AttributeError("position"))
    else if member.length.None? then Err(AttributeError("length"))
    else if member.baseType.None? then Err(AttributeError("base_type"))
    else
      var position, length := member.position.value, member.length.value;
      var base :- ProcessBaseTypeInfo(member.baseType.value);
      Ok(Typed(VType("BitField", map["start_bit" := Int(position), "end_bit" := Int(position + length)] + base)))
  }

  /**
   * `{"target": name}` plus `"target_args"` when the decoded params are not
   * empty. Unpacking the bare string "<unknown>" into two names raises.
   */
  function ProcessBaseTypeInfo(node: LeafNode): Result<map<string, Param>, Raised>
    decreases node, 2
  {
    var decoded :- ProcessMemberType(node);
    match decoded
    case BareUnknown => Err(ValueError("too many values to unpack (expected 2)"))
    case Typed(VType(target, targetArgs)) =>
      if targetArgs == map[] then Ok(map["target" := Text(target)])
      else Ok(map["target" := Text(target), "target_args" := Args(targetArgs)])
  }

  function ProcessMemberType(memberType: LeafNode): Result<MemberType, Raised>
    decreases memberType, 1
  {
    match memberType
    case EnumTag(tag) =>
      Ok(if tag in TypeEnumToVtype then Typed(TypeEnumToVtype[tag]) else BareUnknown)
    case Leaf(leafType, _, _, _, _, _) =>
      if leafType.None? || leafType.value !in ComplexLeafTypes then Ok(Typed(VType(Unknown, map[])))
      else
        match ComplexLeafTypes[leafType.value]
        case ReferenceHandler => ProcessStructureReference(memberType)
        case BitfieldHandler => ProcessBitfield(memberType)
        case PointerHandler => ProcessPointer(memberType)
  }

  function ProcessStructureMember(member: Member): Result<MemberType, Raised> {
    ProcessMemberType(member.index)
  }

  function MemberName(member: Member): string {
    member.name
  }

  function ProcessStructure(struct: StructRecord): Result<Layout, Raised> {
    if struct.leafType != "LF_STRUCTURE" then Ok(Layout(0, map[]))
    else if struct.fieldlist.None? then Ok(Layout(0, map[]))
    else
      var members :- PyDict.Comprehend(struct.fieldlist.value, MemberName, ProcessStructureMember);
      Ok(Layout(struct.size, members))
  }

  function StructureName(item: (string, StructRecord)): string {
    item.0
  }

  function ProcessStructureItem(item: (string, StructRecord)): Result<Layout, Raised> {
    ProcessStructure(item.1)
  }

  /** The `$STRUCTS` section: one entry per structure of the type stream. */
  function ProcessTpi(structures: seq<(string, StructRecord)>): Result<map<string, Layout>, Raised> {
    PyDict.Comprehend(structures, StructureName, ProcessStructureItem)
  }

  // Properties of the decoder.

  /** The tag starts with "T_32P" or "T_64P" (spelled out character by character). */
  predicate IsPointerTag(tag: string) {
    && |tag| >= 5
    && tag[0] == 'T' && tag[1] == '_'
    && ((tag[2] == '3' && tag[3] == '2') || (tag[2] == '6' && tag[3] == '4'))
    && tag[4] == 'P'
  }

  /**
   * Every `T_32P*` / `T_64P*` tag maps to a Pointer whose params hold only a
   * non-empty textual target; every other tag maps to a non-pointer name with
   * empty params.
   */
  lemma TableShape()
    ensures forall tag | tag in TypeEnumToVtype ::
              if IsPointerTag(tag) then
                && TypeEnumToVtype[tag].name == "Pointer"
                && TypeEnumToVtype[tag].params.Keys == {"target"}
                && TypeEnumToVtype[tag].params["target"].Text?
                && TypeEnumToVtype[tag].params["target"].text != ""
              else
                && TypeEnumToVtype[tag].name != "Pointer"
                && TypeEnumToVtype[tag].name != ""
                && TypeEnumToVtype[tag].params == map[]
  {
    Pointer32Shape();
    Pointer64Shape();
    PrimitiveShape();
    BuiltTableShape(Pointer32Targets, Pointer64Targets, PrimitiveNames);
  }

  lemma BuiltTableShape(pointer32: map<string, string>, pointer64: map<string, string>, primitives: map<string, string>)
    requires forall tag | tag in pointer32 :: IsPointerTag(tag) && pointer32[tag] != ""
    requires forall tag | tag in pointer64 :: IsPointerTag(tag) && pointer64[tag] != ""
    requires forall tag | tag in primitives :: !IsPointerTag(tag) && primitives[tag] !in {"", "Pointer"}
    ensures var table := BuildTable(pointer32, pointer64, primitives);
      forall tag | tag in table ::
        if IsPointerTag(tag) then
          && table[tag].name == "Pointer"
          && table[tag].params.Keys == {"target"}
          && table[tag].params["target"].Text?
          && table[tag].params["target"].text != ""
        else
          && table[tag].name != "Pointer"
          && table[tag].name != ""
          && table[tag].params == map[]
  {
  }

  lemma Pointer32Shape()
    ensures forall tag | tag in Pointer32Targets :: IsPointerTag(tag) && Pointer32Targets[tag] != ""
  {
  }

  lemma Pointer64Shape()
    ensures forall tag | tag in Pointer64Targets :: IsPointerTag(tag) && Pointer64Targets[tag] != ""
  {
  }

  lemma PrimitiveShape()
    ensures forall tag | tag in PrimitiveNames :: !IsPointerTag(tag) && PrimitiveNames[tag] !in {"", "Pointer"}
  {
  }

  lemma DecodeEnumTag(tag: string)
    ensures tag in TypeEnumToVtype ==> ProcessMemberType(EnumTag(tag)) == Ok(Typed(TypeEnumToVtype[tag]))
    ensures tag !in TypeEnumToVtype ==> ProcessMemberType(EnumTag(tag)) == Ok(BareUnknown)
  {
  }

  /** A reference to a structure or union yields its name and empty params; its members are not visited. */
  lemma DecodeAggregateReference(n: LeafNode)
    requires n.Leaf? && (n.leafType == Some("LF_STRUCTURE") || n.leafType == Some("LF_UNION"))
    ensures n.name.Some? ==> ProcessMemberType(n) == Ok(Typed(VType(n.name.value, map[])))
    ensures n.name.None? ==> ProcessMemberType(n) == Err(AttributeError("name"))
  {
  }

  /** Any node without a leaf kind, or of a kind other than the four handled ones, is unknown. */
  lemma DecodeUnsupportedKind(n: LeafNode)
    requires n.Leaf?
    requires n.leafType.None? || n.leafType.value !in {"LF_STRUCTURE", "LF_UNION", "LF_BITFIELD", "LF_POINTER"}
    ensures ProcessMemberType(n) == Ok(Typed(VType("<unknown>", map[])))
  {
  }

  /**
   * `params` carries the decoded `pointee`: its name as "target", and its
   * params as "target_args" exactly when they are not empty.
   */
  ghost predicate CarriesTarget(params: map<string, Param>, pointee: VType) {
    && "target" in params
    && params["target"] == Text(pointee.name)
    && ("target_args" in params <==> pointee.params != map[])
    && ("target_args" in params ==> params["target_args"] == Args(pointee.params))
  }

  /** What decoding a node's base type gives, in terms of decoding that base type. */
  lemma BaseTypeInfo(node: LeafNode)
    ensures ProcessMemberType(node).Err? ==> ProcessBaseTypeInfo(node) == Err(ProcessMemberType(node).error)
    ensures ProcessMemberType(node) == Ok(BareUnknown) ==> ProcessBaseTypeInfo(node).Err? && ProcessBaseTypeInfo(node).error.ValueError?
    ensures ProcessMemberType(node).Ok? && ProcessMemberType(node).value.Typed? ==>
              && ProcessBaseTypeInfo(node).Ok?
              && CarriesTarget(ProcessBaseTypeInfo(node).value, ProcessMemberType(node).value.vtype)
              && ProcessBaseTypeInfo(node).value.Keys <= {"target", "target_args"}
  {
    var decoded := ProcessMemberType(node);
    if decoded.Ok? && decoded.value.Typed? {
      var vt := decoded.value.vtype;
      if vt.params == map[] {
        assert ProcessBaseTypeInfo(node) == Ok(map["target" := Text(vt.name)]);
      } else {
        assert ProcessBaseTypeInfo(node) == Ok(map["target" := Text(vt.name), "target_args" := Args(vt.params)]);
      }
    }
  }

  /**
   * A pointer without a `utype` raises AttributeError; otherwise it decodes
   * to "Pointer" carrying its decoded pointee, and fails when the pointee does.
   */
  lemma DecodePointer(n: LeafNode)
    requires n.Leaf? && n.leafType == Some("LF_POINTER")
    ensures n.utype.None? ==> ProcessMemberType(n) == Err(AttributeError("utype"))
    ensures n.utype.Some? ==> var pointee := ProcessMemberType(n.utype.value);
      && (pointee.Err? ==> ProcessMemberType(n) == Err(pointee.error))
      && (pointee == Ok(BareUnknown) ==> ProcessMemberType(n).Err? && ProcessMemberType(n).error.ValueError?)
      && (pointee.Ok? && pointee.value.Typed? ==>
            && ProcessMemberType(n).Ok? && ProcessMemberType(n).value.Typed?
            && ProcessMemberType(n).value.vtype.name == "Pointer"
            && ProcessMemberType(n).value.vtype.params.Keys <= {"target", "target_args"}
            && CarriesTarget(ProcessMemberType(n).value.vtype.params, pointee.value.vtype))
  {
    assert ComplexLeafTypes["LF_POINTER"] == PointerHandler;
    if n.utype.Some? {
      BaseTypeInfo(n.utype.value);
    }
  }

  /**
   * A bit-field reads `position`, then `length`, then `base_type`, and the
   * first one missing raises AttributeError. With all three it decodes to
   * "BitField" spanning `position .. position + length` over its decoded
   * base type.
   */
  lemma DecodeBitfield(n: LeafNode)
    requires n.Leaf? && n.leafType == Some("LF_BITFIELD")
    ensures n.position.None? ==> ProcessMemberType(n) == Err(AttributeError("position"))
    ensures n.position.Some? && n.length.None? ==> ProcessMemberType(n) == Err(AttributeError("length"))
    ensures n.position.Some? && n.length.Some? && n.baseType.None? ==> ProcessMemberType(n) == Err(AttributeError("base_type"))
    ensures n.position.Some? && n.length.Some? && n.baseType.Some? ==> var base := ProcessMemberType(n.baseType.value);
      && (base.Err? ==> ProcessMemberType(n) == Err(base.error))
      && (base == Ok(BareUnknown) ==> ProcessMemberType(n).Err? && ProcessMemberType(n).error.ValueError?)
      && (base.Ok? && base.value.Typed? ==>
            && ProcessMemberType(n).Ok? && ProcessMemberType(n).value.Typed?
            && var v := ProcessMemberType(n).value.vtype;
            && v.name == "BitField"
            && v.params.Keys <= {"start_bit", "end_bit", "target", "target_args"}
            && "start_bit" in v.params && v.params["start_bit"] == Int(n.position.value)
            && "end_bit" in v.params && v.params["end_bit"] == Int(n.position.value + n.length.value)
            && CarriesTarget(v.params, base.value.vtype))
  {
    assert ComplexLeafTypes["LF_BITFIELD"] == BitfieldHandler;
    assert ProcessMemberType(n) == ProcessBitfield(n);
    if n.position.Some? && n.length.Some? && n.baseType.Some? {
      BaseTypeInfo(n.baseType.value);
      var info := ProcessBaseTypeInfo(n.baseType.value);
      if info.Ok? && ProcessMemberType(n.baseType.value).Ok? && ProcessMemberType(n.baseType.value).value.Typed? {
        BitfieldParams(n.position.value, n.length.value, info.value, ProcessMemberType(n.baseType.value).value.vtype);
      }
    }
  }

  /** The bit span laid over base-type info keeps the span and the target. */
  lemma BitfieldParams(position: int, length: int, info: map<string, Param>, base: VType)
    requires CarriesTarget(info, base) && info.Keys <= {"target", "target_args"}
    ensures var params := map["start_bit" := Int(position), "end_bit" := Int(position + length)] + info;
      && params.Keys <= {"start_bit", "end_bit", "target", "target_args"}
      && "start_bit" in params && params["start_bit"] == Int(position)
      && "end_bit" in params && params["end_bit"] == Int(position + length)
      && CarriesTarget(params, base)
  {
  }

  /** A pointer to a tabled primitive always decodes to a Pointer with a non-empty target. */
  lemma PointerToPrimitive(tag: string, n: LeafNode)
    requires tag in TypeEnumToVtype
    requires n.Leaf? && n.leafType == Some("LF_POINTER") && n.utype == Some(EnumTag(tag))
    ensures ProcessMemberType(n).Ok? && ProcessMemberType(n).value.Typed?
    ensures ProcessMemberType(n).value.vtype.name == "Pointer"
    ensures "target" in ProcessMemberType(n).value.vtype.params
    ensures ProcessMemberType(n).value.vtype.params["target"].Text?
    ensures ProcessMemberType(n).value.vtype.params["target"].text != ""
  {
    TableShape();
    DecodePointer(n);
  }

  // Properties of the structure flattener and the type table processor.

  /** Anything but a structure with a field list (unions included) flattens to `[0, {}]`. */
  lemma NonStructureFlattensEmpty(struct: StructRecord)
    requires struct.leafType != "LF_STRUCTURE" || struct.fieldlist.None?
    ensures ProcessStructure(struct) == Ok(Layout(0, map[]))
  {
  }

  /**
   * A structure with a field list keeps its size and gets one entry per
   * distinct member name; it fails exactly when some member fails, with
   * the first failing member's exception.
   */
  lemma StructureFlattening(struct: StructRecord)
    requires struct.leafType == "LF_STRUCTURE" && struct.fieldlist.Some?
    ensures var ms := struct.fieldlist.value;
      ProcessStructure(struct).Ok? <==> forall i | 0 <= i < |ms| :: ProcessMemberType(ms[i].index).Ok?
    ensures var ms := struct.fieldlist.value;
      ProcessStructure(struct).Ok? ==>
        && ProcessStructure(struct).value.size == struct.size
        && ProcessStructure(struct).value.members.Keys == set i | 0 <= i < |ms| :: ms[i].name
    ensures var ms := struct.fieldlist.value;
      ProcessStructure(struct).Err? ==>
        exists i | 0 <= i < |ms| ::
          && ProcessMemberType(ms[i].index) == Err(ProcessStructure(struct).error)
          && forall j | 0 <= j < i :: ProcessMemberType(ms[j].index).Ok?
  {
    var ms := struct.fieldlist.value;
    PyDict.ComprehendSucceeds(ms, MemberName, ProcessStructureMember);
    if ProcessStructure(struct).Ok? {
      PyDict.ComprehendKeys(ms, MemberName, ProcessStructureMember);
      assert (set i | 0 <= i < |ms| :: MemberName(ms[i])) == set i | 0 <= i < |ms| :: ms[i].name;
    } else {
      PyDict.ComprehendRaisesFirst(ms, MemberName, ProcessStructureMember);
    }
  }

  /** A member name's entry is the decoded type of the last member with that name. */
  lemma StructureMemberLastWins(struct: StructRecord, i: nat)
    requires struct.leafType == "LF_STRUCTURE" && struct.fieldlist.Some?
    requires ProcessStructure(struct).Ok?
    requires i < |struct.fieldlist.value|
    requires forall j | i < j < |struct.fieldlist.value| :: struct.fieldlist.value[j].name != struct.fieldlist.value[i].name
    ensures var m := struct.fieldlist.value[i];
      && m.name in ProcessStructure(struct).value.members
      && ProcessMemberType(m.index).Ok?
      && ProcessStructure(struct).value.members[m.name] == ProcessMemberType(m.index).value
  {
    PyDict.ComprehendLastWins(struct.fieldlist.value, MemberName, ProcessStructureMember, i);
  }

  /** `$STRUCTS` has exactly one entry per structure name, and fails when some structure does. */
  lemma TpiOneEntryPerName(structures: seq<(string, StructRecord)>)
    ensures ProcessTpi(structures).Ok? <==> forall i | 0 <= i < |structures| :: ProcessStructure(structures[i].1).Ok?
    ensures ProcessTpi(structures).Ok? ==> ProcessTpi(structures).value.Keys == set i | 0 <= i < |structures| :: structures[i].0
  {
    PyDict.ComprehendSucceeds(structures, StructureName, ProcessStructureItem);
    if ProcessTpi(structures).Ok? {
      PyDict.ComprehendKeys(structures, StructureName, ProcessStructureItem);
      assert (set i | 0 <= i < |structures| :: StructureName(structures[i])) == set i | 0 <= i < |structures| :: structures[i].0;
    }
  }

  /** The entry for a name is the flattening of the last structure with that name. */
  lemma TpiEntry(structures: seq<(string, StructRecord)>, i: nat)
    requires ProcessTpi(structures).Ok? && i < |structures|
    requires forall j | i < j < |structures| :: structures[j].0 != structures[i].0
    ensures structures[i].0 in ProcessTpi(structures).value
    ensures ProcessStructure(structures[i].1).Ok?
    ensures ProcessTpi(structures).value[structures[i].0] == ProcessStructure(structures[i].1).value
  {
    PyDict.ComprehendLastWins(structures, StructureName, ProcessStructureItem, i);
  }

  /** `_FOO` of size 8 with one member `x` of an unsupported kind. */
  lemma UnsupportedMemberExample()
    ensures var x := Member("x", 0, Leaf(Some("LF_ARRAY"), None, None, None, None, None));
      ProcessTpi([("_FOO", StructRecord("LF_STRUCTURE", 8, Some([x]))) ])
        == Ok(map["_FOO" := Layout(8, map["x" := Typed(VType("<unknown>", map[]))])])
  {
    var x := Member("x", 0, Leaf(Some("LF_ARRAY"), None, None, None, None, None));
    var foo := StructRecord("LF_STRUCTURE", 8, Some([x]));
    assert [x][..0] == [];
    assert [("_FOO", foo)][..0] == [];
  }
}
