/**
 * The global-symbol half of make_pdb_profile (drakpdb/drakpdb.py): every
 * symbol is placed in a section, translated through the OMAP, sorted into
 * $FUNCTIONS or $CONSTANTS and grouped under its demangled name; then each
 * name's addresses are written out in ascending order as name, name_1,
 * name_2, ...
 *
 * The name rewriting is the `demangle` argument (the profile builder passes
 * Demangler.DemangleName), so that the results here hold for any demangler
 * and the OMAP translation is the `remap` argument.
 */
module SymbolMapper {
  import opened Wrappers
  import opened PdbRecords
  import opened PyStr
  import opened PyDict
  import Numerals

  datatype Bucket = Functions | Constants

  /** `sym.symtype & 2 == 2` selects $FUNCTIONS. */
  function BucketOf(symtype: nat): Bucket {
    if (symtype / 2) % 2 == 1 then Functions else Constants
  }

  /**
   * The `try` block of the symbol loop: the bucket and the translated
   * address, or None when the symbol is skipped (a missing offset raises
   * AttributeError, a section index out of range IndexError, and the
   * OMAP lookup may raise either).
   */
  function Resolve(sym: Symbol, sects: seq<Section>, remap: Remap): Option<(Bucket, int)> {
    match sym.offset
    case None => None
    case Some(off) =>
      match PyIndex(|sects|, sym.segment - 1)
      case None => None
      case Some(i) =>
        match remap(off + sects[i].virtualAddress)
        case None => None
        case Some(mapped) => Some((BucketOf(sym.symtype), mapped))
  }

  /** The two `mapped_syms` dictionaries: demangled name to the addresses seen, in order. */
  datatype Groups = Groups(functions: Dict<seq<int>>, constants: Dict<seq<int>>) {
    ghost predicate Valid() {
      functions.Valid() && constants.Valid()
    }

    function Of(b: Bucket): Dict<seq<int>> {
      if b == Functions then functions else constants
    }
  }

  /** `mapped_syms[key].setdefault(name, []).append(addr)`, spelled as the source spells it. */
  function Record(d: Dict<seq<int>>, name: string, addr: int): (r: Dict<seq<int>>)
    requires d.Valid()
    ensures r.Valid()
  {
    d.Put(name, (if name in d.entries then d.entries[name] else []) + [addr])
  }

  /**
   * The first loop of make_pdb_profile over `syms`: the grouped addresses,
   * or the exception a demangling raised (it is outside the `try`).
   */
  function GroupSymbols(syms: seq<Symbol>, sects: seq<Section>, remap: Remap, demangle: string -> Result<string, Raised>): (r: Result<Groups, Raised>)
    ensures r.Ok? ==> r.value.Valid()
    decreases |syms|
  {
    if syms == [] then Ok(Groups(EmptyDict(), EmptyDict()))
    else
      var g :- GroupSymbols(syms[..|syms| - 1], sects, remap, demangle);
      var sym := syms[|syms| - 1];
      match Resolve(sym, sects, remap)
      case None => Ok(g)
      case Some((bucket, addr)) =>
        var name :- demangle(sym.name);
        if bucket == Functions then Ok(Groups(Record(g.functions, name, addr), g.constants))
        else Ok(Groups(g.functions, Record(g.constants, name, addr)))
  }

  /**
   * Reference reading of the grouping: the addresses, in symbol order, of
   * the symbols that land in bucket `b` under the name `name`.
   */
  function AddressesOf(syms: seq<Symbol>, sects: seq<Section>, remap: Remap, demangle: string -> Result<string, Raised>, b: Bucket, name: string): seq<int>
    decreases |syms|
  {
    if syms == [] then []
    else
      var rest := AddressesOf(syms[..|syms| - 1], sects, remap, demangle, b, name);
      var sym := syms[|syms| - 1];
      match Resolve(sym, sects, remap)
      case None => rest
      case Some((bucket, addr)) =>
        if bucket == b && demangle(sym.name) == Ok(name) then rest + [addr] else rest
  }

  /** Some symbol that is not skipped has a name whose demangling raises. */
  ghost predicate SomeDemanglingRaises(syms: seq<Symbol>, sects: seq<Section>, remap: Remap, demangle: string -> Result<string, Raised>) {
    exists i | 0 <= i < |syms| :: Resolve(syms[i], sects, remap).Some? && demangle(syms[i].name).Err?
  }

  predicate IsSortedAscending(xs: seq<int>) {
    forall i, j | 0 <= i < j < |xs| :: xs[i] <= xs[j]
  }

  function Insert(x: int, xs: seq<int>): (r: seq<int>)
    requires IsSortedAscending(xs)
    ensures |r| == |xs| + 1
    ensures r[0] == x || (xs != [] && r[0] == xs[0])
    ensures IsSortedAscending(r)
    ensures multiset(r) == multiset(xs) + multiset{x}
  {
    if xs == [] || x <= xs[0] then [x] + xs
    else
      var rest := Insert(x, xs[1..]);
      assert xs == [xs[0]] + xs[1..];
      assert xs[0] <= rest[0];
      [xs[0]] + rest
  }

  /** Python's `sorted` on a list of integers. */
  function SortAscending(xs: seq<int>): (r: seq<int>)
    ensures |r| == |xs|
    ensures IsSortedAscending(r)
    ensures multiset(r) == multiset(xs)
  {
    if xs == [] then []
    else
      assert xs == xs[..|xs| - 1] + [xs[|xs| - 1]];
      Insert(xs[|xs| - 1], SortAscending(xs[..|xs| - 1]))
  }

  /** The key the `ndx`-th smallest address of `name` is written under. */
  function SuffixedName(name: string, ndx: nat): string {
    if ndx == 0 then name else name + "_" + Numerals.Digits(ndx, Numerals.DecimalDigits)
  }

  /** The inner loop: write the first |addrs| sorted addresses of one name. */
  function WriteRun(m: map<string, int>, name: string, addrs: seq<int>): map<string, int>
    decreases |addrs|
  {
    if addrs == [] then m
    else WriteRun(m, name, addrs[..|addrs| - 1])[SuffixedName(name, |addrs| - 1) := addrs[|addrs| - 1]]
  }

  /** The outer loop over the first `n` names of one bucket, in insertion order. */
  function EmitNames(m: map<string, int>, d: Dict<seq<int>>, n: nat): map<string, int>
    requires n <= |d.keys|
    requires forall k | k in d.keys :: k in d.entries
  {
    if n == 0 then m
    else
      var name := d.keys[n - 1];
      WriteRun(EmitNames(m, d, n - 1), name, SortAscending(d.entries[name]))
  }

  datatype SymbolTables = SymbolTables(functions: map<string, int>, constants: map<string, int>)

  /** What the two loops of make_pdb_profile leave in $FUNCTIONS and $CONSTANTS. */
  function SymbolTablesOf(syms: seq<Symbol>, sects: seq<Section>, remap: Remap, demangle: string -> Result<string, Raised>): Result<SymbolTables, Raised> {
    var g :- GroupSymbols(syms, sects, remap, demangle);
    Ok(SymbolTables(
      EmitNames(map[], g.functions, |g.functions.keys|),
      EmitNames(map[], g.constants, |g.constants.keys|)))
  }

  /** The grouping loop, appending to the two dictionaries in place. */
  method GroupGlobals(syms: seq<Symbol>, sects: seq<Section>, remap: Remap, demangle: string -> Result<string, Raised>) returns (r: Result<Groups, Raised>)
    ensures r == GroupSymbols(syms, sects, remap, demangle)
  {
    var functions: Dict<seq<int>> := EmptyDict();
    var constants: Dict<seq<int>> := EmptyDict();
    var i := 0;
    while i < |syms|
      invariant 0 <= i <= |syms|
      invariant GroupSymbols(syms[..i], sects, remap, demangle) == Ok(Groups(functions, constants))
    {
      assert syms[..i + 1][..i] == syms[..i];
      var sym := syms[i];
      var resolved := Resolve(sym, sects, remap);
      if resolved.Some? {
        var (bucket, addr) := resolved.value;
        var demangled := demangle(sym.name);
        if demangled.Err? {
          assert syms[..i + 1] == syms[..i] + [sym];
          r := Err(demangled.error);
          assert GroupSymbols(syms[..i + 1], sects, remap, demangle) == r;
          GroupFailureSticks(syms, i + 1, sects, remap, demangle);
          return;
        }
        var name := demangled.value;
        if bucket == Functions {
          functions := Record(functions, name, addr);
        } else {
          constants := Record(constants, name, addr);
        }
      }
      i := i + 1;
    }
    assert syms[..i] == syms;
    r := Ok(Groups(functions, constants));
  }

  /** Once the grouping of a prefix raises, so does the grouping of the whole. */
  lemma {:induction false} GroupFailureSticks(syms: seq<Symbol>, n: nat, sects: seq<Section>, remap: Remap, demangle: string -> Result<string, Raised>)
    requires n <= |syms|
    requires GroupSymbols(syms[..n], sects, remap, demangle).Err?
    ensures GroupSymbols(syms, sects, remap, demangle) == GroupSymbols(syms[..n], sects, remap, demangle)
    decreases |syms| - n
  {
    if n < |syms| {
      assert syms[..n + 1][..n] == syms[..n];
      GroupFailureSticks(syms, n + 1, sects, remap, demangle);
    } else {
      assert syms[..n] == syms;
    }
  }

  /** The inner writing loop: one name's sorted addresses, counted by `ndx`. */
  method WriteSorted(m: map<string, int>, name: string, sorted: seq<int>) returns (out: map<string, int>)
    ensures out == WriteRun(m, name, sorted)
  {
    out := m;
    var ndx := 0;
    while ndx < |sorted|
      invariant 0 <= ndx <= |sorted|
      invariant out == WriteRun(m, name, sorted[..ndx])
    {
      var nextName := SuffixedName(name, ndx);
      WriteRunStep(m, name, sorted, ndx);
      out := out[nextName := sorted[ndx]];
      ndx := ndx + 1;
    }
    assert sorted[..ndx] == sorted;
  }

  /** One more turn of the inner loop writes one more suffixed name. */
  lemma WriteRunStep(m: map<string, int>, name: string, sorted: seq<int>, ndx: nat)
    requires ndx < |sorted|
    ensures WriteRun(m, name, sorted[..ndx + 1]) == WriteRun(m, name, sorted[..ndx])[SuffixedName(name, ndx) := sorted[ndx]]
  {
    assert sorted[..ndx + 1][..ndx] == sorted[..ndx];
  }

  /** The outer writing loop over one bucket's names, in insertion order. */
  method EmitBucket(d: Dict<seq<int>>) returns (out: map<string, int>)
    requires d.Valid()
    ensures out == EmitNames(map[], d, |d.keys|)
  {
    out := map[];
    var i := 0;
    while i < |d.keys|
      invariant 0 <= i <= |d.keys|
      invariant out == EmitNames(map[], d, i)
    {
      var name := d.keys[i];
      out := WriteSorted(out, name, SortAscending(d.entries[name]));
      i := i + 1;
    }
  }

  /** Both loops of make_pdb_profile over the global symbols. */
  method MapSymbols(syms: seq<Symbol>, sects: seq<Section>, remap: Remap, demangle: string -> Result<string, Raised>) returns (r: Result<SymbolTables, Raised>)
    ensures r == SymbolTablesOf(syms, sects, remap, demangle)
  {
    var grouped := GroupGlobals(syms, sects, remap, demangle);
    if grouped.Err? {
      return Err(grouped.error);
    }
    var functions := EmitBucket(grouped.value.functions);
    var constants := EmitBucket(grouped.value.constants);
    r := Ok(SymbolTables(functions, constants));
  }

  /** Bit 1 of the symbol type, and nothing else, decides the bucket. */
  lemma BucketIsBitOne(symtype: nat)
    ensures BucketOf(symtype) == Functions <==> symtype % 4 >= 2
  {
    var q, r := symtype / 4, symtype % 4;
    assert symtype == 4 * q + r;
    assert symtype / 2 == 2 * q + r / 2;
  }

  /**
   * A symbol is skipped exactly when it has no offset, `segment - 1` is not
   * a valid Python index, or the OMAP lookup of its address raises.
   */
  lemma ResolveSkips(sym: Symbol, sects: seq<Section>, remap: Remap)
    ensures Resolve(sym, sects, remap).None? <==>
      || sym.offset.None?
      || sym.segment > |sects|
      || sym.segment < 1 - |sects|
      || remap(sym.offset.value + sects[PyIndex(|sects|, sym.segment - 1).value].virtualAddress).None?
  {
  }

  /** Without an OMAP the address is the offset plus the section's virtual address. */
  lemma ResolveWithoutOmap(sym: Symbol, sects: seq<Section>)
    requires sym.offset.Some? && 1 <= sym.segment <= |sects|
    ensures Resolve(sym, sects, DummyRemap)
      == Some((BucketOf(sym.symtype), sym.offset.value + sects[sym.segment - 1].virtualAddress))
  {
  }

  /** Segment 0 is not rejected: index -1 picks the last section. */
  lemma SegmentZeroWraps(sym: Symbol, sects: seq<Section>, remap: Remap)
    requires sym.offset.Some? && sym.segment == 0 && |sects| >= 1
    ensures var mapped := remap(sym.offset.value + sects[|sects| - 1].virtualAddress);
      Resolve(sym, sects, remap) == if mapped.Some? then Some((BucketOf(sym.symtype), mapped.value)) else None
  {
  }

  /** The grouping raises exactly when some symbol that is not skipped fails to demangle. */
  lemma {:induction false} GroupingRaises(syms: seq<Symbol>, sects: seq<Section>, remap: Remap, demangle: string -> Result<string, Raised>)
    ensures GroupSymbols(syms, sects, remap, demangle).Err? <==> SomeDemanglingRaises(syms, sects, remap, demangle)
    decreases |syms|
  {
    if syms != [] {
      var prefix := syms[..|syms| - 1];
      var last := syms[|syms| - 1];
      GroupingRaises(prefix, sects, remap, demangle);
      var lastRaises := Resolve(last, sects, remap).Some? && demangle(last.name).Err?;
      if SomeDemanglingRaises(prefix, sects, remap, demangle) {
        var i :| 0 <= i < |prefix| && Resolve(prefix[i], sects, remap).Some? && demangle(prefix[i].name).Err?;
        assert syms[i] == prefix[i];
      } else if SomeDemanglingRaises(syms, sects, remap, demangle) {
        var i :| 0 <= i < |syms| && Resolve(syms[i], sects, remap).Some? && demangle(syms[i].name).Err?;
        assert lastRaises;
      }
    }
  }

  /**
   * The dictionaries agree with the reference reading: a name is present in
   * a bucket exactly when some symbol lands there under it, and it holds all
   * those addresses, duplicates included, in symbol order.
   */
  lemma {:induction false} GroupedAddresses(syms: seq<Symbol>, sects: seq<Section>, remap: Remap, demangle: string -> Result<string, Raised>, g: Groups, b: Bucket, name: string)
    requires GroupSymbols(syms, sects, remap, demangle) == Ok(g)
    ensures name in g.Of(b).entries <==> AddressesOf(syms, sects, remap, demangle, b, name) != []
    ensures name in g.Of(b).entries ==> g.Of(b).entries[name] == AddressesOf(syms, sects, remap, demangle, b, name)
    decreases |syms|
  {
    if syms != [] {
      var prefix := syms[..|syms| - 1];
      var g0 := GroupSymbols(prefix, sects, remap, demangle).value;
      GroupedAddresses(prefix, sects, remap, demangle, g0, b, name);
    }
  }

  /** Distinct counters give distinct keys. */
  lemma SuffixedNameInjective(name: string, j: nat, k: nat)
    requires SuffixedName(name, j) == SuffixedName(name, k)
    ensures j == k
  {
    if j != 0 && k != 0 {
      var dj := Numerals.Digits(j, Numerals.DecimalDigits);
      var dk := Numerals.Digits(k, Numerals.DecimalDigits);
      assert dj == SuffixedName(name, j)[|name| + 1..];
      assert dk == SuffixedName(name, k)[|name| + 1..];
      Numerals.AlphabetsAreAlphabets();
      Numerals.DigitsInjective(j, k, Numerals.DecimalDigits);
    }
  }

  /**
   * Writing a run of addresses puts the k-th under SuffixedName(name, k),
   * adds no other key and leaves every other key alone.
   */
  lemma WriteRunEntries(m: map<string, int>, name: string, addrs: seq<int>)
    ensures forall k | 0 <= k < |addrs| ::
      SuffixedName(name, k) in WriteRun(m, name, addrs) && WriteRun(m, name, addrs)[SuffixedName(name, k)] == addrs[k]
    ensures forall key | key in WriteRun(m, name, addrs) ::
      key in m || exists k | 0 <= k < |addrs| :: key == SuffixedName(name, k)
    ensures forall key | key in m && (forall k | 0 <= k < |addrs| :: key != SuffixedName(name, k)) ::
      key in WriteRun(m, name, addrs) && WriteRun(m, name, addrs)[key] == m[key]
  {
    forall k | 0 <= k < |addrs|
      ensures SuffixedName(name, k) in WriteRun(m, name, addrs) && WriteRun(m, name, addrs)[SuffixedName(name, k)] == addrs[k]
    {
      WriteRunWrites(m, name, addrs, k);
    }
    WriteRunAddsOnlyRun(m, name, addrs);
    WriteRunKeepsOthers(m, name, addrs);
  }

  /** The k-th address of the run ends up under SuffixedName(name, k). */
  lemma {:induction false} WriteRunWrites(m: map<string, int>, name: string, addrs: seq<int>, k: nat)
    requires k < |addrs|
    ensures SuffixedName(name, k) in WriteRun(m, name, addrs)
    ensures WriteRun(m, name, addrs)[SuffixedName(name, k)] == addrs[k]
    decreases |addrs|
  {
    var last := |addrs| - 1;
    if k < last {
      var init := addrs[..last];
      WriteRunWrites(m, name, init, k);
      if SuffixedName(name, k) == SuffixedName(name, last) {
        SuffixedNameInjective(name, k, last);
      }
    }
  }

  /** Every key after the run was there before or is one of the run's names. */
  lemma {:induction false} WriteRunAddsOnlyRun(m: map<string, int>, name: string, addrs: seq<int>)
    ensures forall key | key in WriteRun(m, name, addrs) ::
      key in m || exists k | 0 <= k < |addrs| :: key == SuffixedName(name, k)
    decreases |addrs|
  {
    if addrs != [] {
      WriteRunAddsOnlyRun(m, name, addrs[..|addrs| - 1]);
    }
  }

  /** A key that is none of the run's names keeps its value. */
  lemma {:induction false} WriteRunKeepsOthers(m: map<string, int>, name: string, addrs: seq<int>)
    ensures forall key | key in m && (forall k | 0 <= k < |addrs| :: key != SuffixedName(name, k)) ::
      key in WriteRun(m, name, addrs) && WriteRun(m, name, addrs)[key] == m[key]
    decreases |addrs|
  {
    if addrs != [] {
      WriteRunKeepsOthers(m, name, addrs[..|addrs| - 1]);
    }
  }

  /** No key written for one name is also written for another. */
  ghost predicate NoClash(d: Dict<seq<int>>) {
    forall n1, n2, j: nat, k: nat |
      n1 in d.entries && n2 in d.entries && n1 != n2 && j < |d.entries[n1]| && k < |d.entries[n2]| ::
      SuffixedName(n1, j) != SuffixedName(n2, k)
  }

  /**
   * Without clashes, after the first `n` names every address of those names
   * sits under its own key: the k-th smallest under SuffixedName(name, k).
   */
  lemma {:induction false} EmitNamesEntry(d: Dict<seq<int>>, n: nat, i: nat, k: nat)
    requires d.Valid() && NoClash(d) && n <= |d.keys|
    requires i < n && k < |d.entries[d.keys[i]]|
    ensures SuffixedName(d.keys[i], k) in EmitNames(map[], d, n)
    ensures EmitNames(map[], d, n)[SuffixedName(d.keys[i], k)] == SortAscending(d.entries[d.keys[i]])[k]
    decreases n
  {
    var name := d.keys[n - 1];
    var prev := EmitNames(map[], d, n - 1);
    var sorted := SortAscending(d.entries[name]);
    WriteRunEntries(prev, name, sorted);
    if i < n - 1 {
      EmitNamesEntry(d, n - 1, i, k);
      assert d.keys[i] != name;
      assert forall j | 0 <= j < |sorted| :: SuffixedName(d.keys[i], k) != SuffixedName(name, j);
    }
  }

  /** The writing loops add no key but the suffixed names of the bucket's names. */
  lemma {:induction false} EmitNamesKey(d: Dict<seq<int>>, n: nat, key: string)
    requires d.Valid() && n <= |d.keys|
    requires key in EmitNames(map[], d, n)
    ensures exists i, k | 0 <= i < n && 0 <= k < |d.entries[d.keys[i]]| :: key == SuffixedName(d.keys[i], k)
    decreases n
  {
    var name := d.keys[n - 1];
    var prev := EmitNames(map[], d, n - 1);
    var sorted := SortAscending(d.entries[name]);
    WriteRunAddsOnlyRun(prev, name, sorted);
    if key in prev {
      EmitNamesKey(d, n - 1, key);
    } else {
      var k :| 0 <= k < |sorted| && key == SuffixedName(name, k);
      assert key == SuffixedName(d.keys[n - 1], k);
    }
  }

  /** Which profile dictionary a bucket is written to. */
  function TableOf(t: SymbolTables, b: Bucket): map<string, int> {
    if b == Functions then t.functions else t.constants
  }

  /**
   * The symbol tables of the profile, when no suffixed key clashes: the k-th
   * smallest address any symbol maps to under `name` in bucket `b` is stored
   * under SuffixedName(name, k).
   */
  lemma SymbolTableEntry(syms: seq<Symbol>, sects: seq<Section>, remap: Remap, demangle: string -> Result<string, Raised>, g: Groups, b: Bucket, name: string, k: nat)
    requires GroupSymbols(syms, sects, remap, demangle) == Ok(g)
    requires NoClash(g.Of(b))
    requires k < |AddressesOf(syms, sects, remap, demangle, b, name)|
    ensures SymbolTablesOf(syms, sects, remap, demangle).Ok?
    ensures SuffixedName(name, k) in TableOf(SymbolTablesOf(syms, sects, remap, demangle).value, b)
    ensures TableOf(SymbolTablesOf(syms, sects, remap, demangle).value, b)[SuffixedName(name, k)]
      == SortAscending(AddressesOf(syms, sects, remap, demangle, b, name))[k]
  {
    var d := g.Of(b);
    GroupedAddresses(syms, sects, remap, demangle, g, b, name);
    var i :| 0 <= i < |d.keys| && d.keys[i] == name;
    EmitNamesEntry(d, |d.keys|, i, k);
  }

  /** Every key of a profile symbol table is some name's suffixed name. */
  lemma SymbolTableKey(syms: seq<Symbol>, sects: seq<Section>, remap: Remap, demangle: string -> Result<string, Raised>, g: Groups, b: Bucket, key: string)
    requires GroupSymbols(syms, sects, remap, demangle) == Ok(g)
    requires key in TableOf(SymbolTablesOf(syms, sects, remap, demangle).value, b)
    ensures exists name, k | 0 <= k < |AddressesOf(syms, sects, remap, demangle, b, name)| :: key == SuffixedName(name, k)
  {
    var d := g.Of(b);
    assert TableOf(SymbolTablesOf(syms, sects, remap, demangle).value, b) == EmitNames(map[], d, |d.keys|);
    EmitNamesKey(d, |d.keys|, key);
    var i, k :| 0 <= i < |d.keys| && 0 <= k < |d.entries[d.keys[i]]| && key == SuffixedName(d.keys[i], k);
    var name := d.keys[i];
    GroupedAddresses(syms, sects, remap, demangle, g, b, name);
    assert k < |AddressesOf(syms, sects, remap, demangle, b, name)|;
  }

  /** In a suffixed name built from a name without "_", the name is everything before the first "_". */
  lemma SuffixedNameSplits(name: string, j: nat)
    requires '_' !in name
    ensures forall i | 0 <= i < |name| :: SuffixedName(name, j)[i] == name[i]
    ensures j == 0 <==> |SuffixedName(name, j)| == |name|
    ensures j > 0 ==> |SuffixedName(name, j)| > |name| && SuffixedName(name, j)[|name|] == '_'
  {
  }

  /** Names free of "_" can never clash with each other's suffixed forms. */
  lemma NoUnderscoreNoClash(d: Dict<seq<int>>)
    requires forall name | name in d.entries :: '_' !in name
    ensures NoClash(d)
  {
    forall n1, n2, j: nat, k: nat |
      n1 in d.entries && n2 in d.entries && n1 != n2 && j < |d.entries[n1]| && k < |d.entries[n2]|
      ensures SuffixedName(n1, j) != SuffixedName(n2, k)
    {
      SuffixedNameSplits(n1, j);
      SuffixedNameSplits(n2, k);
    }
  }

  /** Writing two sorted addresses under one name. */
  lemma WriteTwo(m: map<string, int>, name: string, lo: int, hi: int)
    ensures WriteRun(m, name, [lo, hi]) == m[name := lo][SuffixedName(name, 1) := hi]
  {
    assert [lo, hi][..1] == [lo];
    assert [lo][..0] == [];
    assert WriteRun(m, name, [lo]) == WriteRun(m, name, [])[SuffixedName(name, 0) := lo];
    assert WriteRun(m, name, [lo, hi]) == WriteRun(m, name, [lo])[SuffixedName(name, 1) := hi];
  }

  lemma SortTwoExample()
    ensures SortAscending([0x2000, 0x1000]) == [0x1000, 0x2000]
    ensures SortAscending([0x3000]) == [0x3000]
  {
    assert [0x2000, 0x1000][..1] == [0x2000];
    assert [0x2000][..0] == [];
    assert [0x3000][..0] == [];
  }

  lemma FirstSuffixExample()
    ensures SuffixedName("Foo", 1) == "Foo_1"
  {
    assert Numerals.Digits(1, Numerals.DecimalDigits) == "1";
  }

  /** Two addresses under one name: the lower one gets the bare name. */
  lemma SuffixExample()
    ensures EmitNames(map[], Dict(["Foo"], map["Foo" := [0x2000, 0x1000]]), 1)
      == map["Foo" := 0x1000, "Foo_1" := 0x2000]
  {
    var d := Dict(["Foo"], map["Foo" := [0x2000, 0x1000]]);
    SortTwoExample();
    FirstSuffixExample();
    WriteTwo(map[], "Foo", 0x1000, 0x2000);
    assert EmitNames(map[], d, 0) == map[];
  }

  /**
   * A real symbol named "Foo_1" collides with the generated key of Foo's
   * second address and, coming later in the dictionary, wins: 0x2000 is lost.
   */
  lemma SuffixCollisionExample()
    ensures EmitNames(map[], Dict(["Foo", "Foo_1"], map["Foo" := [0x2000, 0x1000], "Foo_1" := [0x3000]]), 2)
      == map["Foo" := 0x1000, "Foo_1" := 0x3000]
  {
    var d := Dict(["Foo", "Foo_1"], map["Foo" := [0x2000, 0x1000], "Foo_1" := [0x3000]]);
    SortTwoExample();
    FirstSuffixExample();
    WriteTwo(map[], "Foo", 0x1000, 0x2000);
    assert EmitNames(map[], d, 0) == map[];
    var afterFoo := EmitNames(map[], d, 1);
    assert afterFoo == map["Foo" := 0x1000, "Foo_1" := 0x2000];
    assert [0x3000][..0] == [];
    assert WriteRun(afterFoo, "Foo_1", [0x3000]) == afterFoo[SuffixedName("Foo_1", 0) := 0x3000];
  }

  /** The same two names in the other order: now Foo's own 0x2000 overwrites the real "Foo_1". */
  lemma SuffixCollisionOrderExample()
    ensures EmitNames(map[], Dict(["Foo_1", "Foo"], map["Foo" := [0x2000, 0x1000], "Foo_1" := [0x3000]]), 2)
      == map["Foo" := 0x1000, "Foo_1" := 0x2000]
  {
    var d := Dict(["Foo_1", "Foo"], map["Foo" := [0x2000, 0x1000], "Foo_1" := [0x3000]]);
    SortTwoExample();
    FirstSuffixExample();
    assert EmitNames(map[], d, 0) == map[];
    assert [0x3000][..0] == [];
    assert WriteRun(map[], "Foo_1", [0x3000]) == map[][SuffixedName("Foo_1", 0) := 0x3000];
    assert EmitNames(map[], d, 1) == map["Foo_1" := 0x3000];
    WriteTwo(map["Foo_1" := 0x3000], "Foo", 0x1000, 0x2000);
  }
}
