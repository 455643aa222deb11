# drakpdb profile generation, modelled in Dafny

drakpdb turns the records of a parsed Microsoft PDB file into a "profile".
A profile is a JSON document with these sections:

- `$FUNCTIONS` and `$CONSTANTS`: symbol name to virtual address;
- `$STRUCTS`: structure layouts;
- `$METADATA`: the GUID/age identity string, file name, profile class, timestamp, type and version;
- `$EXTRAS`: extra data about the DLL.

This project models that transformation and proves what it promises. It is
written one module per file:

| file | module | models |
|---|---|---|
| `wrappers.dfy` | `Wrappers` | `Option` and `Result` |
| `pdb_records.dfy` | `PdbRecords` | the parser's outputs as datatypes (type leaves, members, structures, symbols, sections, GUID, PDB info), Python exception kinds (`Raised`), and the identity remap (`DummyOmap.remap`) |
| `py_str.dfy` | `PyStr` | `str.split`, `str.rfind`, `rsplit(".", 1)[0]`, `os.path.basename`, the root of `os.path.splitext`, ASCII `upper`/`lower`, and Python's negative indexing |
| `numerals.dfy` | `Numerals` | `%x`, `%08x`, `%.8X`, `%d` and `bytes.hex()`, with their read-back (parse) functions |
| `py_dict.dfy` | `PyDict` | dict comprehensions (later key wins, first exception escapes) and insertion-ordered dicts |
| `type_info.dfy` | `TypeInfo` | `drakpdb/type_info.py`: the type-leaf decoder, structure flattening and `$STRUCTS` |
| `demangler.dfy` | `Demangler` | `Demangler` in `drakpdb/drakpdb.py`: the three patterns as string predicates, plus string-literal unescaping |
| `symbol_mapper.dfy` | `SymbolMapper` | the global-symbol loop of `make_pdb_profile`: resolve, group by demangled name, sort, suffix `_1`, `_2`, … |
| `profile.dfy` | `Profile` | `make_symstore_hash`, the profile class, and the assembly of the whole profile |
| `legacy_profile.dfy` | `LegacyProfile` | the older stand-alone `drakpdb.py`: its own table, `get_field_type_info`, `process_struct` (members keep offsets), the last-write-wins symbol loop, and the upper-case GUID/age |
| `fetch_pdbs.dfy` | `FetchPdbs` | the test helper `add_guid_to_name` |

## Modelling choices

- **Parser outputs are datatypes.**
  - A type leaf is either an enum-tagged primitive (`EnumTag`) or a record whose attributes may be absent (`Leaf` with `Option` fields).
  - Reading an absent attribute that the code needs is an `AttributeError` in the model, as it is in Python.
- **The OMAP table is a parameter.** `remap: Remap` stands for the real OMAP table's `remap`. A `Remap` maps an address to `Some` translated address, or to `None` when the lookup raises IndexError or AttributeError; the symbol loop catches both and skips the symbol. Without OMAP it is the identity, which always gives `Some`.
- **`undname` and `DemangleName` are parameters.**
  - `undname` is a C extension and is always a parameter.
  - The symbol mapper takes the demangler as a parameter as well. The full profile passes `Demangler.DemangleName`.
- **Loops become methods.** The source's loops are methods with loop invariants:
  - the grouping loop;
  - the sorted-suffix writing loop;
  - the `ss` loop of `process_struct`;
  - the older symbol loop;
  - the `$STRUCTS` copy loop.

  Each method is proved equal to a prefix-recursive specification function. The properties are proved about those functions.
- **Exceptions that escape are `Err` results.** These exceptions escape the newer `make_pdb_profile`:
  - the `AttributeError` of a type leaf that lacks an attribute its handler reads: the `name` of an `LF_STRUCTURE`/`LF_UNION` reference, the `utype` of an `LF_POINTER`, the `position`, `length` or `base_type` of an `LF_BITFIELD` (`drakpdb/type_info.py:60`, `64`, `71-73`);
  - the `ValueError` of unpacking the bare string `"<unknown>"`;
  - the `IndexError` of a `??_C@` name with fewer than four `@`-fields;
  - the `IndexError` of `base_filename[0]` when the file name's stem is empty (a path such as `dir/`).

  In the older generator only the `KeyError` of an unknown tag escapes; its profile class cannot fail, because `.pdb` is appended to the path first.

  Exceptions that the code catches become the skipped or default cases.
- **Integers are unbounded.** Guid fields are the `newtype`s `uint32` and `uint16`, and bytes are the `newtype` `byte`. The bit test `symtype & 2` is written as `(symtype / 2) % 2 == 1`, which agrees with it for every non-negative `symtype`.

## Model

| member | source | states |
|---|---|---|
| TypeInfo.ProcessStructureReference | drakpdb/type_info.py:59-60 | `process_structure_reference`: `[name, {}]`, AttributeError without a name (its contract is `DecodeAggregateReference`) |
| TypeInfo.ProcessPointer | drakpdb/type_info.py:63-64 | `process_pointer`: `Pointer` with the pointee's base-type info, AttributeError without `utype` (see `DecodePointer`) |
| TypeInfo.ProcessBitfield | drakpdb/type_info.py:67-75 | `process_bitfield`: `BitField` with `start_bit`, `end_bit` and the base type, AttributeError without `position`, `length` or `base_type` (see `DecodeBitfield`) |
| TypeInfo.ProcessBaseTypeInfo | drakpdb/type_info.py:78-83 | `process_base_type_info`: `target`, plus `target_args` only when they are non-empty; ValueError on the bare `"<unknown>"` (see `BaseTypeInfo`) |
| TypeInfo.ProcessMemberType | drakpdb/type_info.py:86-102 | `process_member_type`: an enum tag is looked up with a bare `"<unknown>"` default; the four complex leaf kinds go to their handlers; anything else is `["<unknown>", {}]` (see `DecodeEnumTag`, `DecodeUnsupportedKind`) |
| TypeInfo.ProcessStructureMember | drakpdb/type_info.py:105-106 | `process_structure_member`: the member's index decoded as a member type (see `StructureFlattening`, `StructureMemberLastWins`) |
| TypeInfo.ProcessStructure | drakpdb/type_info.py:109-122 | `process_structure`: `[0, {}]` for a non-structure or a missing field list, else the size and the member comprehension (see `NonStructureFlattensEmpty`, `StructureFlattening`, `StructureMemberLastWins`) |
| TypeInfo.ProcessTpi | drakpdb/type_info.py:125-134 | `process_tpi`: the `$STRUCTS` comprehension over the type stream's structures (see `TpiOneEntryPerName`, `TpiEntry`) |
| TypeInfo.TableShape | drakpdb/type_info.py:4-56 | every `T_32P*`/`T_64P*` tag maps to `Pointer` with only a non-empty `target` parameter; every other tag maps to a non-pointer name with empty parameters |
| TypeInfo.BuiltTableShape | drakpdb/type_info.py:4-56 | a table assembled from pointer-32, pointer-64 and primitive parts has the pointer/non-pointer shape whenever the parts do |
| TypeInfo.Pointer32Shape | drakpdb/type_info.py:5-19 | every 32-bit pointer tag starts `T_32P`/`T_64P` and has a non-empty target |
| TypeInfo.Pointer64Shape | drakpdb/type_info.py:20-35 | every 64-bit pointer tag starts `T_32P`/`T_64P` and has a non-empty target |
| TypeInfo.PrimitiveShape | drakpdb/type_info.py:36-55 | no primitive tag is a pointer tag, and no primitive name is empty or `Pointer` |
| TypeInfo.DecodeEnumTag | drakpdb/type_info.py:86-88 | a tabled enum tag decodes to its table entry; an absent one to the bare string `"<unknown>"` |
| TypeInfo.DecodeAggregateReference | drakpdb/type_info.py:59-60 | an `LF_STRUCTURE`/`LF_UNION` node decodes to `[name, {}]` without visiting members; no name is an AttributeError |
| TypeInfo.DecodeUnsupportedKind | drakpdb/type_info.py:89-101 | a node without a leaf kind, or of any kind other than the four handled, decodes to `["<unknown>", {}]` |
| TypeInfo.BaseTypeInfo | drakpdb/type_info.py:78-83 | `target` is the decoded name; `target_args` is present exactly when the decoded parameters are non-empty; a bare `"<unknown>"` raises ValueError; errors propagate |
| TypeInfo.DecodePointer | drakpdb/type_info.py:63-64 | `LF_POINTER` without `utype` raises AttributeError; otherwise it decodes to `Pointer` carrying its pointee's base-type info, and fails exactly when the pointee does |
| TypeInfo.DecodeBitfield | drakpdb/type_info.py:67-75 | `LF_BITFIELD` raises AttributeError for the first of `position`, `length`, `base_type` that is missing, in that order; with all three it decodes to `BitField` with `start_bit = position`, `end_bit = position + length` and the base type's target |
| TypeInfo.BitfieldParams | drakpdb/type_info.py:70-74 | laying `start_bit`/`end_bit` over the base-type info keeps both bits and the target |
| TypeInfo.PointerToPrimitive | drakpdb/type_info.py:63-64 | a pointer to a tabled primitive always succeeds, with a non-empty textual target |
| TypeInfo.NonStructureFlattensEmpty | drakpdb/type_info.py:109-115 | anything but an `LF_STRUCTURE` with a field list (unions included) flattens to `[0, {}]` |
| TypeInfo.StructureFlattening | drakpdb/type_info.py:116-122 | a structure keeps its size, has one entry per distinct member name, and fails exactly when a member does, with the first failing member's exception |
| TypeInfo.StructureMemberLastWins | drakpdb/type_info.py:118-121 | a member name's entry is the decoded type of the last member with that name |
| TypeInfo.TpiOneEntryPerName | drakpdb/type_info.py:125-134 | `$STRUCTS` has exactly one key per structure name, and succeeds exactly when every structure flattens |
| TypeInfo.TpiEntry | drakpdb/type_info.py:129-134 | each `$STRUCTS` entry is the flattening of the last structure with that name |
| TypeInfo.UnsupportedMemberExample | drakpdb/type_info.py:116-122 | a structure whose only member has kind `LF_ARRAY` flattens to `[size, {"x": ["<unknown>", {}]}]` |
| Demangler.MatchX86Call | drakpdb/drakpdb.py:67 | `SIMPLE_X86_CALL.match` written out as a scanner (its contract is `X86CallMatches`) |
| Demangler.MatchFunctionName | drakpdb/drakpdb.py:68 | `FUNCTION_NAME_RE.match` written out as a scanner (its contract is `FunctionNameMatches`) |
| Demangler.UnescapeLiteral | drakpdb/drakpdb.py:62-64 | `STRING_MANGLE_RE.sub` with the table lookup (see `UnescapeToken`, `UnescapeKeepsPlainText`, `UnescapeNeverLonger`) |
| Demangler.UnpackMangledString | drakpdb/drakpdb.py:60-65 | `_UnpackMangledString`: `str:` and the unescaped fourth `@`-field, IndexError with fewer than four fields (see `DemangleStringLiteral`) |
| Demangler.DemangleName | drakpdb/drakpdb.py:70-99 | `DemangleName`: the five rules in order (see `DemangleX86Call`, `DemangleFunctionName`, `DemangleStripsLeadingMark`, `DemangleStringLiteral`, `DemangleKeepsOtherNames`) |
| Demangler.IdentPrefixLength | drakpdb/drakpdb.py:67-68 | the result is the longest run of identifier characters at the start |
| Demangler.X86CallMatches | drakpdb/drakpdb.py:67 | the x86-call matcher yields `ident` exactly when the whole name is `_` or `@`, then `ident`, then `@`, then 1-3 digits (an optional final newline allowed) |
| Demangler.X86CallFound | drakpdb/drakpdb.py:67 | every name of the x86-call shape is matched, with its identifier |
| Demangler.X86CallSound | drakpdb/drakpdb.py:67 | everything the x86-call matcher accepts has the x86-call shape |
| Demangler.FunctionNameMatches | drakpdb/drakpdb.py:68 | the function-name matcher yields `ident` exactly when the name starts `?ident@` with `ident` maximal |
| Demangler.DemangleX86Call | drakpdb/drakpdb.py:77-85 | a name of x86-call shape demangles to its identifier |
| Demangler.DemangleFunctionName | drakpdb/drakpdb.py:87-89 | a name of `?ident@` shape demangles to `ident` |
| Demangler.DemangleStripsLeadingMark | drakpdb/drakpdb.py:91-94 | a name starting `_` or `.` (not x86-call shaped) loses exactly its first character |
| Demangler.DemangleStringLiteral | drakpdb/drakpdb.py:60-65 | a `??_C@` name demangles to its unpacked literal; this raises IndexError exactly when the name has fewer than three `@` |
| Demangler.DemangleKeepsOtherNames | drakpdb/drakpdb.py:77-99 | a name that neither pattern matches, that does not start with `_` or `.` and that is not a `??_C@` literal (the empty name, `@foo`, `??0Foo@@QAE@XZ`, `??_7Foo@@6B@`, …) is returned unchanged |
| Demangler.FirstToken | drakpdb/drakpdb.py:52-58 | the alternation matches nothing exactly when no token is a prefix of the text; otherwise it matches the first token, in table order, that is a prefix |
| Demangler.TokensNonEmpty | drakpdb/drakpdb.py:25-50 | every escape token has at least two characters and starts with `?`, and its replacement is no longer than it |
| Demangler.NoTokenWithoutMark | drakpdb/drakpdb.py:53-58 | text not starting with `?` matches no escape token |
| Demangler.UnescapeKeepsPlainText | drakpdb/drakpdb.py:62-64 | a literal without `?` is unchanged by unescaping |
| Demangler.TokensDiffer | drakpdb/drakpdb.py:25-50 | any two escape tokens disagree at a position both have, so none is a prefix of another |
| Demangler.DifferExcludes | drakpdb/drakpdb.py:52-58 | a text that starts with one of two disagreeing tokens does not start with the other |
| Demangler.UnescapeToken | drakpdb/drakpdb.py:60-64 | a token at the head of the text is replaced by its own text, and the scan goes on right after it |
| Demangler.UnescapeNeverLonger | drakpdb/drakpdb.py:62-64 | unescaping never lengthens the literal |
| Demangler.DemangleX86Example | drakpdb/drakpdb.py:77-85 | `_Baz@4` demangles to `Baz` |
| Demangler.DemangleFunctionNameExample | drakpdb/drakpdb.py:87-89 | `?Bar@@YAHXZ` demangles to `Bar` |
| SymbolMapper.BucketOf | drakpdb/drakpdb.py:143-146 | the bucket chosen by `symtype & 2` (see `BucketIsBitOne`) |
| SymbolMapper.Resolve | drakpdb/drakpdb.py:138-152 | the `try` block of the symbol loop: bucket and translated address, or a skip (see `ResolveSkips`, `ResolveWithoutOmap`, `SegmentZeroWraps`) |
| SymbolMapper.SymbolTablesOf | drakpdb/drakpdb.py:137-172 | both symbol loops: group, then write each sorted, suffixed run (see `GroupingRaises`, `SymbolTableEntry`, `SymbolTableKey`) |
| PdbRecords.DummyRemap | drakpdb.py:59-61 | `DummyOmap.remap`, the identity translation (see `ResolveWithoutOmap`, `AddressSpaceWithoutOmap`) |
| SymbolMapper.Record | drakpdb/drakpdb.py:156-159 | appending an address to a name's list, creating the list first (see `GroupedAddresses`) |
| SymbolMapper.SuffixedName | drakpdb/drakpdb.py:166-169 | `name` for index 0, `"{}_{}".format(name, ndx)` otherwise (see `SuffixedNameInjective`, `SuffixedNameSplits`) |
| SymbolMapper.WriteRun | drakpdb/drakpdb.py:163-172 | writing one name's sorted addresses under its suffixed names (see `WriteRunEntries`, `WriteSorted`) |
| SymbolMapper.EmitNames | drakpdb/drakpdb.py:161-172 | writing every name's run of one bucket in key order (see `EmitNamesEntry`, `EmitNamesKey`, `EmitBucket`) |
| SymbolMapper.BucketIsBitOne | drakpdb/drakpdb.py:143-146 | a symbol goes to `$FUNCTIONS` exactly when bit 2 of `symtype` is set |
| SymbolMapper.ResolveSkips | drakpdb/drakpdb.py:138-152 | a symbol is skipped exactly when it has no offset, `segment - 1` is not a valid Python index into the sections, or the OMAP lookup of its address raises |
| SymbolMapper.ResolveWithoutOmap | drakpdb/drakpdb.py:123-142 | without OMAP, a symbol's address is `offset + VirtualAddress` of section `segment` |
| SymbolMapper.SegmentZeroWraps | drakpdb/drakpdb.py:141-142 | segment 0 resolves against the last section, and is skipped only when the OMAP lookup raises |
| SymbolMapper.GroupSymbols | drakpdb/drakpdb.py:137-159 | a successful grouping is a pair of well-formed insertion-ordered dicts |
| SymbolMapper.GroupGlobals | drakpdb/drakpdb.py:137-159 | the grouping loop computes the grouping specification, stopping at the first demangling error |
| SymbolMapper.GroupFailureSticks | drakpdb/drakpdb.py:154 | once a prefix of the symbols fails to demangle, the whole grouping fails with that error |
| SymbolMapper.GroupingRaises | drakpdb/drakpdb.py:137-159 | grouping fails exactly when demangling some resolved symbol's name raises |
| SymbolMapper.GroupedAddresses | drakpdb/drakpdb.py:154-159 | a name is grouped in a bucket exactly when some symbol lands there, and its list is those symbols' addresses in symbol order |
| SymbolMapper.Insert | drakpdb/drakpdb.py:165 | inserting into a sorted list keeps it sorted and adds exactly the one element |
| SymbolMapper.SortAscending | drakpdb/drakpdb.py:165 | `sorted` returns an ascending permutation of its input |
| SymbolMapper.WriteSorted | drakpdb/drakpdb.py:163-172 | the `ndx` loop writes the run of suffixed names into the table |
| SymbolMapper.EmitBucket | drakpdb/drakpdb.py:161-172 | the loop over one bucket writes every name's sorted, suffixed run in key order |
| SymbolMapper.MapSymbols | drakpdb/drakpdb.py:137-172 | the symbol section of the profile is what the grouping and emitting specifications give |
| SymbolMapper.SuffixedNameInjective | drakpdb/drakpdb.py:166-169 | different positions give different suffixed names |
| SymbolMapper.WriteRunEntries | drakpdb/drakpdb.py:163-172 | the k-th address of a run lands under the k-th suffixed name; no other key is added; other keys are untouched |
| SymbolMapper.WriteRunWrites | drakpdb/drakpdb.py:165-172 | the k-th sorted address is stored under `name` (k = 0) or `name_k` |
| SymbolMapper.WriteRunAddsOnlyRun | drakpdb/drakpdb.py:165-172 | the inner loop adds no key but the run's suffixed names |
| SymbolMapper.WriteRunKeepsOthers | drakpdb/drakpdb.py:165-172 | a key that is none of the run's names keeps its value |
| SymbolMapper.WriteRunStep | drakpdb/drakpdb.py:166-172 | one turn of the inner loop writes the next suffixed name |
| SymbolMapper.EmitNamesEntry | drakpdb/drakpdb.py:161-172 | with no suffix clashes, `name_k` holds the k-th smallest address of `name` |
| SymbolMapper.EmitNamesKey | drakpdb/drakpdb.py:161-172 | every key written is some grouped name with some suffix index |
| SymbolMapper.SymbolTableEntry | drakpdb/drakpdb.py:156-172 | with no suffix clashes, the k-th smallest address of a name's symbols is stored under `name` (k = 0) or `name_k` |
| SymbolMapper.SymbolTableKey | drakpdb/drakpdb.py:161-172 | every key of a symbol table is a grouped name, possibly suffixed |
| SymbolMapper.SuffixedNameSplits | drakpdb/drakpdb.py:166-169 | a suffixed name starts with the name; only index 0 leaves it bare; otherwise `_` follows the name |
| SymbolMapper.NoUnderscoreNoClash | drakpdb/drakpdb.py:169-172 | names without `_` can never collide with another name's suffixed form |
| SymbolMapper.WriteTwo | drakpdb/drakpdb.py:163-172 | a two-address run writes the bare name, then `name_1` |
| SymbolMapper.SortTwoExample | drakpdb/drakpdb.py:165 | `sorted([0x2000, 0x1000])` is `[0x1000, 0x2000]` |
| SymbolMapper.FirstSuffixExample | drakpdb/drakpdb.py:169 | the first suffix of `Foo` is `Foo_1` |
| SymbolMapper.SuffixExample | drakpdb/drakpdb.py:161-172 | `Foo` at `[0x2000, 0x1000]` gives `Foo = 0x1000` and `Foo_1 = 0x2000` |
| SymbolMapper.SuffixCollisionExample | drakpdb/drakpdb.py:169-172 | a real symbol `Foo_1` grouped after `Foo` overwrites the generated `Foo_1`, losing an address |
| SymbolMapper.SuffixCollisionOrderExample | drakpdb/drakpdb.py:161-172 | in the other key order the generated `Foo_1` overwrites the real one |
| Profile.GuidHex | drakpdb/drakpdb.py:108-114 | `guid_str` (see `GuidHexLayout`, `GuidHexReadsBack`) |
| Profile.SymstoreHash | drakpdb/drakpdb.py:102-115 | `make_symstore_hash` (see `SymstoreHashReadsBack`, `SymstoreHashInjective`) |
| Profile.BaseFilename | drakpdb/drakpdb.py:176 | `os.path.splitext(os.path.basename(filepath))[0]` |
| Profile.ProfileClass | drakpdb/drakpdb.py:182 | the capitalised stem, IndexError on an empty one (see `ProfileClassIdempotent`, `ProfileClassIgnoresCase`, `ProfileOutcome`) |
| Profile.AddressSpace | drakpdb/drakpdb.py:123-130 | the section table and OMAP, with the `AttributeError` fallback (see `AddressSpaceWithoutOmap`) |
| Profile.ExtrasPath | drakpdb/drakpdb.py:191-193 | `DLLPath` is set only for a non-empty origin path (see the `dllPath` clauses of `ProfileOutcome`) |
| Profile.ProfileOf | drakpdb/drakpdb.py:118-193 | `make_pdb_profile` as a value (see `ProfileOutcome`, `ProfileFunctionsTable`, `MakePdbProfile`) |
| Profile.GuidHexLayout | drakpdb/drakpdb.py:108-114 | the GUID part is 32 characters: Data1 in 8, Data2 in 4, Data3 in 4 zero-padded lower-case hex digits, then `Data4.hex()` |
| Profile.GuidHexInAlphabet | drakpdb/drakpdb.py:109-114 | the GUID part is made of lower-case hex digits only |
| Profile.GuidHexReadsBack | drakpdb/drakpdb.py:108-114 | the GUID part is lower-case hex, and Data1/Data2/Data3 read back from their fields |
| Profile.SymstoreHashReadsBack | drakpdb/drakpdb.py:102-115 | the hash is lower-case hex longer than 32 characters; the GUID fields and the age (`%x`) read back |
| Profile.SymstoreHashInAlphabet | drakpdb/drakpdb.py:102-115 | the hash is longer than 32 characters and all lower-case hex |
| Profile.HexBytesInAlphabet | drakpdb/drakpdb.py:113 | `bytes.hex()` yields only lower-case hex digits |
| Profile.SymstoreHashInjective | drakpdb/drakpdb.py:102-115 | different GUID/age pairs give different hashes |
| Profile.ProfileClassIdempotent | drakpdb/drakpdb.py:182 | capitalising a profile class again changes nothing |
| Profile.ProfileClassIgnoresCase | drakpdb/drakpdb.py:182 | the profile class does not depend on the case of the base file name |
| Profile.AddressSpaceWithoutOmap | drakpdb/drakpdb.py:123-130 | without both OMAP streams the plain section headers are used and every address translates to itself |
| Profile.MakePdbProfile | drakpdb/drakpdb.py:118-193 | building the profile gives the profile specification |
| Profile.ProfileOutcome | drakpdb/drakpdb.py:118-193 | the profile is built exactly when `$STRUCTS`, the symbols and the profile class all succeed; it then holds the decoded `$STRUCTS` and the two symbol tables; its metadata carries the DLL hash given, the symstore hash, the base name, the profile class of the stem, the timestamp, type `Profile` and the PDB's version; `DLLPath` is present exactly when a non-empty origin path is given |
| Profile.ProfileFunctionsTable | drakpdb/drakpdb.py:137-172 | with or without OMAP, when no grouped function name clashes with another's suffixed form, `$FUNCTIONS` maps `name` (k = 0) or `name_k` to the k-th smallest address of the function symbols demangled to `name` |
| LegacyProfile.ProcessStructValue | drakpdb.py:74-85 | the older `process_struct` as a value (see `ProcessStructRaises`, `ProcessStructKeys`, `ProcessStructLast`) |
| LegacyProfile.Substructs | drakpdb.py:77-81 | the field list's members, or none when it has no `substructs` (see `ProcessStructKeys`) |
| LegacyProfile.LegacyName | drakpdb.py:124-125 | a name starting with `?` goes through `undname`, any other is kept (see `LegacyLastWins`) |
| LegacyProfile.LegacyTables | drakpdb.py:110-130 | the older symbol loop as a value (see `LegacyLastWins`) |
| LegacyProfile.LegacyGuidAge | drakpdb.py:132-134 | the older GUID/age string (see `LegacyGuidAgeVersusSymstoreHash`) |
| LegacyProfile.LegacyProfileOf | drakpdb.py:88-144 | the older `make_pdb_profile` as a value (see `LegacyProfileRaises`, `LegacyProfileStructs`, `LegacyProfileMetadata`) |
| LegacyProfile.LegacyTableShape | drakpdb.py:14-56 | every `T_32P*`/`T_64P*` tag of the older table maps to `Pointer` with only a non-empty target; every other tag to a plain name with empty parameters |
| LegacyProfile.LegacyPointer32Shape | drakpdb.py:15-28 | every 32-bit pointer tag of the older table is a pointer tag with a non-empty target |
| LegacyProfile.LegacyPointer64Shape | drakpdb.py:29-37 | every 64-bit pointer tag of the older table is a pointer tag with a non-empty target |
| LegacyProfile.LegacyPrimitiveShape | drakpdb.py:38-55 | no primitive tag of the older table is a pointer tag, and no primitive name is empty or `Pointer` |
| LegacyProfile.DecodeField | drakpdb.py:64-71 | an enum-tagged field gives its table entry or a KeyError naming the tag; any other field gives `[name, {}]`, or `["<unknown>", {}]` without a name |
| LegacyProfile.FieldTypeInfo | drakpdb.py:64-71 | looking up a field's type fails only with KeyError |
| LegacyProfile.FieldInfo | drakpdb.py:83 | a member's `[offset, type]` entry fails only with KeyError |
| LegacyProfile.LastOccurrence | drakpdb.py:77-79 | every member's name has a last occurrence at or after it |
| LegacyProfile.Collect | drakpdb.py:76-79 | the `ss` dict stays a well-formed insertion-ordered dict |
| LegacyProfile.CollectUnderOwnName | drakpdb.py:78-79 | every member of `ss` is stored under its own name |
| LegacyProfile.CollectKeys | drakpdb.py:76-79 | the keys of `ss` are exactly the members' names |
| LegacyProfile.CollectKeepsLast | drakpdb.py:78-79 | the member kept under a name is the last one with that name |
| LegacyProfile.CollectMembers | drakpdb.py:76-82 | the `ss` loop computes the collected dict |
| LegacyProfile.CollectedValues | drakpdb.py:82-84 | `ss.values()` are exactly the last members of each name |
| LegacyProfile.ProcessStruct | drakpdb.py:74-85 | `process_struct` computes its specification |
| LegacyProfile.ProcessStructRaises | drakpdb.py:64-85 | `process_struct` raises exactly when some name's last member has an unknown enum tag, and then with KeyError |
| LegacyProfile.ProcessStructKeys | drakpdb.py:74-85 | the size is kept (a missing field list gives `[size, {}]`) and the keys are the distinct member names |
| LegacyProfile.ProcessStructLast | drakpdb.py:82-85 | each field holds `[offset, type]` of the last member of that name |
| LegacyProfile.LegacyMapSymbols | drakpdb.py:110-130 | the older symbol loop computes its last-write-wins specification |
| LegacyProfile.LegacyLastWins | drakpdb.py:110-130 | a name is present exactly when some symbol lands under it, and holds the address of the last such symbol |
| LegacyProfile.UpperOfPaddedHex | drakpdb.py:133 | upper-casing zero-padded lower-case hex gives `%.NX` |
| LegacyProfile.UpperDistributes | drakpdb.py:133 | upper-casing distributes over concatenation |
| LegacyProfile.LegacyGuidAgeVersusSymstoreHash | drakpdb.py:132-134 | the older GUID/age is the upper-cased GUID part of the symstore hash followed by the age in decimal rather than hex |
| LegacyProfile.AgeTenExample | drakpdb.py:134 | age 10 is `10` in the older string and `a` in the symstore hash |
| LegacyProfile.LegacyStem | drakpdb.py:135-140 | with `.pdb` appended the stem is never empty (so the class never fails), and it is the base name whenever that has a non-dot character |
| LegacyProfile.BasenameAppend | drakpdb.py:139 | appending `.pdb` appends it to the base name |
| LegacyProfile.RFindAppend | drakpdb.py:135 | appending text without the searched character does not move its last occurrence |
| LegacyProfile.RFindLast | drakpdb.py:135 | the stem of `b + ".pdb"` is non-empty, and is `b` when `b` has a non-dot character |
| LegacyProfile.CopyStructs | drakpdb.py:107-108 | copying every structure name's layout into `$STRUCTS` reproduces the computed layouts |
| LegacyProfile.LegacyMakePdbProfile | drakpdb.py:88-144 | the older generator computes its profile specification |
| LegacyProfile.LegacyProfileRaises | drakpdb.py:103-106 | the older generator fails exactly when some structure's layout raises, and then with KeyError |
| LegacyProfile.LegacyProfileStructs | drakpdb.py:103-108 | when the older generator succeeds, `$STRUCTS` has exactly one key per structure name |
| LegacyProfile.LegacyProfileMetadata | drakpdb.py:132-143 | GUID_AGE is the older GUID/age string; PDBFile is the base name with `.pdb`; there is no DLL GUID key; Type is `Profile`; Timestamp is the one given; Version is the PDB version |
| FetchPdbs.AddGuidToName | tests/fetch_pdbs.py:11-12 | `add_guid_to_name` (see `AddGuidToNameLayout`, `AddGuidToNameStem`) |
| FetchPdbs.AddGuidToNameLayout | tests/fetch_pdbs.py:12 | the result is the stem, `_`, the GUID/age verbatim and `.pdb`, and those pieces read back at fixed positions |
| FetchPdbs.StemOfName | tests/fetch_pdbs.py:12 | a name without `.` is its own stem; otherwise the stem is everything before the last `.` |
| FetchPdbs.AddGuidToNameStem | tests/fetch_pdbs.py:12 | for a GUID/age without `.`, splitting the result again only removes the added `.pdb` |
| FetchPdbs.LastDotOnlyExample | tests/fetch_pdbs.py:12 | `a.b.pdb` with `g` gives `a.b_g.pdb` |
| PyStr.SplitJoin | drakpdb/drakpdb.py:61 | splitting on a character and joining again restores the text |
| PyStr.SplitCount | drakpdb/drakpdb.py:61 | a split has one more field than there are separators |
| PyStr.RFind | drakpdb.py:135 | `rfind` finds nothing exactly when the character is absent; otherwise it finds the last occurrence |
| PyStr.LowerOfCase | drakpdb/drakpdb.py:182 | lower-casing after any case mapping gives the plain lower-case text |
| PyStr.PyIndex | drakpdb/drakpdb.py:141 | a Python index is valid exactly in `-length <= i < length`, and a negative one counts from the end |
| PyDict.Comprehend | drakpdb/type_info.py:129-134 | a dict comprehension: later keys win, the first exception escapes (see `ComprehendSucceeds`, `ComprehendRaisesFirst`, `ComprehendKeys`, `ComprehendLastWins`) |
| PyDict.ComprehendSucceeds | drakpdb/type_info.py:118-121 | a dict comprehension succeeds exactly when every item's value can be computed |
| PyDict.ComprehendRaisesFirst | drakpdb/type_info.py:118-121 | a failing comprehension raises the first failing item's exception |
| PyDict.ComprehendKeys | drakpdb/type_info.py:129-134 | a comprehension's keys are exactly the items' keys |
| PyDict.ComprehendLastWins | drakpdb/type_info.py:118-121 | a key holds the value of the last item with that key |
| PyDict.Dict.Put | drakpdb/drakpdb.py:156-157 | an existing key keeps its place; a new key goes last |
| Numerals.DigitsRoundTrip | drakpdb/drakpdb.py:115 | reading back a numeral gives the number |
| Numerals.ValueSnoc | drakpdb/drakpdb.py:115 | appending a digit multiplies the value by the base and adds the digit |
| Numerals.DigitsInjective | drakpdb/drakpdb.py:115 | different numbers give different numerals |
| Numerals.PaddedRoundTrip | drakpdb/drakpdb.py:109 | reading back a zero-padded numeral gives the number |
| Numerals.PaddedLength | drakpdb/drakpdb.py:109 | a number below base^width pads to exactly `width` digits |
| Numerals.PaddedInjective | drakpdb/drakpdb.py:109 | different numbers give different padded numerals |
| Numerals.HexBytesLength | drakpdb/drakpdb.py:113 | `bytes.hex()` has two digits per byte |
| Numerals.HexBytesInjective | drakpdb/drakpdb.py:113 | different byte strings of one length give different hex |
| Numerals.UpperOfLowerHex | drakpdb.py:133 | upper-casing `%x` gives `%X` |

## Left out

- PDB and CodeView parsing (`pdbparse.parse`, the `STREAM_*` objects, `CV_RSDS_HEADER`): these are external parsers. Their outputs are the datatypes of `PdbRecords`.
- The real OMAP table: its code is outside this repository, so it is the parameter `remap`. A lookup that raises something other than IndexError or AttributeError, which would escape the loop, is not modelled.
- `pe_codeview_data` and the ImageBase lookup (`dll_path`, `$EXTRAS.ImageBase`): thin wrappers over `pefile`.
- `undname`: a foreign C extension, so it is a parameter.
- Timestamp formatting (`strftime`): a library call. The formatted timestamp is an input.
- JSON serialisation and printing: the profile is returned as a datatype.
- Network download (`fetch_pdb`), the command-line interface, and the test plumbing (`update_pdbs`, fixtures): I/O.
- The `$`, `\d` and `str.upper`/`str.lower` rules are ASCII-only here. Python's Unicode digits and case mappings are not modelled. Paths are POSIX paths.
- `DummyOmap` of `drakpdb/drakpdb.py` is imported from `pdbparse.symlookup`, which is not part of this model. It is taken to be the identity, as the top-level `drakpdb.py` defines it.
- Demangler.UnescapeLiteral: each token at the head is proved to become its text, plain text is kept and the length is bounded, but no round trip with an escaping function is proved, because the source has no escaping function.
- SymbolMapper.SymbolTableEntry: the placement of every address is proved only when no grouped name clashes with another name's suffixed form. With a clash the source loses addresses, and `SuffixCollisionExample` shows this.
- Global symbols are taken to carry a name, a segment and a symbol type (`Symbol` has no absent fields besides the offset). In the source, a record missing any of them raises AttributeError inside the `try` and is skipped, exactly as one without an offset; here such a record is represented with `offset == None`.
- Field-list members are taken to carry a name, an offset and an index (`Member` has no absent fields). So the model does not capture:
  - the AttributeError that a nameless member raises inside the older generator's `try` (`drakpdb.py:77-81`), which keeps the members collected before it;
  - the AttributeError of a missing offset escaping at `drakpdb.py:84`, or of a missing index in `get_field_type_info`;
  - the AttributeError of `member.name` or `member.index` escaping from `process_tpi` (`drakpdb/type_info.py:106`, `119`).
- The older generator's structure dictionary is keyed by the structure names of the type stream. A name repeated in the stream counts once, with its last layout, as for a Python dict.
