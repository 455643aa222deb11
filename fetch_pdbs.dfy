/**
 * The test helper that names a downloaded PDB after its GUID/age string:
 * the name up to its last ".", then "_", the GUID/age, and ".pdb".
 */
module FetchPdbs {
  import opened Wrappers
  import opened PyStr

  function AddGuidToName(pdbname: string, guidage: string): string {
    BeforeLast(pdbname, '.') + "_" + guidage + ".pdb"
  }

  /**
   * The name is the part of `pdbname` before its last ".", then "_", then
   * `guidage` verbatim, then ".pdb"; and those pieces read back off it.
   */
  lemma AddGuidToNameLayout(pdbname: string, guidage: string)
    ensures var r := AddGuidToName(pdbname, guidage);
      var stem := BeforeLast(pdbname, '.');
      && |r| == |stem| + |guidage| + 5
      && r[..|stem|] == stem
      && r[|stem|] == '_'
      && r[|stem| + 1..|r| - 4] == guidage
      && r[|r| - 4..] == ".pdb"
  {
    var stem := BeforeLast(pdbname, '.');
    var r := AddGuidToName(pdbname, guidage);
    assert r == stem + ("_" + guidage + ".pdb");
    assert r[|stem| + 1..|r| - 4] == guidage;
  }

  /** The stem keeps everything up to the last "."; with no "." it is the whole name. */
  lemma StemOfName(pdbname: string)
    ensures '.' !in pdbname ==> BeforeLast(pdbname, '.') == pdbname
    ensures '.' in pdbname ==>
      && |BeforeLast(pdbname, '.')| < |pdbname|
      && pdbname[|BeforeLast(pdbname, '.')|] == '.'
      && pdbname[..|BeforeLast(pdbname, '.')|] == BeforeLast(pdbname, '.')
      && '.' !in pdbname[|BeforeLast(pdbname, '.')| + 1..]
  {
  }

  /**
   * When the GUID/age has no ".", the stem of the result is its name
   * without ".pdb": splitting the result again only takes off the suffix
   * this helper added.
   */
  lemma AddGuidToNameStem(pdbname: string, guidage: string)
    requires '.' !in guidage
    ensures BeforeLast(AddGuidToName(pdbname, guidage), '.') == BeforeLast(pdbname, '.') + "_" + guidage
  {
    var body := BeforeLast(pdbname, '.') + "_" + guidage;
    var r := AddGuidToName(pdbname, guidage);
    assert r == body + ".pdb";
    assert r[|body|] == '.';
    assert forall j | |body| < j < |r| :: r[j] != '.' by {
      forall j | |body| < j < |r| ensures r[j] != '.' {
        assert r[j] == ".pdb"[j - |body|];
      }
    }
    RFindIs(r, '.', |body|);
    assert r[..|body|] == body;
  }

  /** Only the last "." splits: "a.b.pdb" with "g" gives "a.b_g.pdb". */
  lemma LastDotOnlyExample()
    ensures AddGuidToName("a.b.pdb", "g") == "a.b_g.pdb"
  {
    var s := "a.b.pdb";
    assert s[3] == '.' && s[4..] == "pdb";
    assert RFind(s, '.') == Some(3);
    assert s[..3] == "a.b";
  }
}
