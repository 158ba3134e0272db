/** The detailed breakdown of the results page: the label shown for each
    metadata key, `key.replace(/([A-Z])/g, ' $1').trim()`, and the tab that
    selects which of three sections is shown. */
module DetailedBreakdown {
  import opened Text

  /** The key with a space put before every upper-case letter. */
  function Spaced(s: string): string
  {
    if s == [] then []
    else (if IsUpper(s[0]) then [' ', s[0]] else [s[0]]) + Spaced(s[1..])
  }

  function Label(key: string): string
  {
    Trim(Spaced(key))
  }

  function CountUpper(s: string): nat
  {
    if s == [] then 0 else (if IsUpper(s[0]) then 1 else 0) + CountUpper(s[1..])
  }

  /** The string with every space removed. */
  function Unspaced(s: string): (r: string)
    ensures |r| <= |s|
  {
    if s == [] then [] else (if s[0] == ' ' then [] else [s[0]]) + Unspaced(s[1..])
  }

  predicate NoWhitespace(s: string) {
    forall i :: 0 <= i < |s| ==> !IsJsWhitespace(s[i])
  }

  lemma {:induction false} SpacedAppend(a: string, b: string)
    ensures Spaced(a + b) == Spaced(a) + Spaced(b)
    decreases |a|
  {
    if a != [] {
      assert (a + b)[1..] == a[1..] + b;
      SpacedAppend(a[1..], b);
    } else {
      assert a + b == b;
    }
  }

  lemma {:induction false} UnspacedAppend(a: string, b: string)
    ensures Unspaced(a + b) == Unspaced(a) + Unspaced(b)
    decreases |a|
  {
    if a != [] {
      assert (a + b)[1..] == a[1..] + b;
      UnspacedAppend(a[1..], b);
    } else {
      assert a + b == b;
    }
  }

  /** Each upper-case letter adds one character. */
  lemma {:induction false} SpacedLength(s: string)
    ensures |Spaced(s)| == |s| + CountUpper(s)
  {
    if s != [] {
      SpacedLength(s[1..]);
    }
  }

  /** Removing the spaces again gives back a key that had none. */
  lemma {:induction false} UnspacedSpaced(s: string)
    requires ' ' !in s
    ensures Unspaced(Spaced(s)) == s
  {
    if s != [] {
      var c := s[0];
      assert c != ' ';
      var head := if IsUpper(c) then [' ', c] else [c];
      assert Spaced(s) == head + Spaced(s[1..]);
      UnspacedAppend(head, Spaced(s[1..]));
      assert [c][1..] == [];
      assert Unspaced([c]) == [c];
      if IsUpper(c) {
        assert [' ', c][1..] == [c];
        assert Unspaced([' ', c]) == Unspaced([c]);
      }
      assert ' ' !in s[1..] by {
        forall i | 0 <= i < |s[1..]| ensures s[1..][i] != ' ' { assert s[1..][i] == s[i + 1]; }
      }
      UnspacedSpaced(s[1..]);
      assert s == [c] + s[1..];
    }
  }

  /** Every character of the spaced key is a space or a character of the key. */
  lemma {:induction false} SpacedChars(s: string)
    ensures forall c :: c in Spaced(s) ==> c == ' ' || c in s
  {
    if s != [] {
      SpacedChars(s[1..]);
    }
  }

  /** The spaced key ends with the key's last character. */
  lemma {:induction false} SpacedLast(s: string)
    requires s != []
    ensures Spaced(s) != [] && Spaced(s)[|Spaced(s)| - 1] == s[|s| - 1]
  {
    if |s| > 1 {
      SpacedLast(s[1..]);
    }
  }

  /** For a key without whitespace, trimming removes only the space put
      before a leading capital. */
  lemma LabelShape(key: string)
    requires NoWhitespace(key)
    ensures Label(key) == if key != [] && IsUpper(key[0]) then Spaced(key)[1..] else Spaced(key)
  {
    if key != [] {
      var sp := Spaced(key);
      SpacedLast(key);
      var t := if IsUpper(key[0]) then sp[1..] else sp;
      assert t != [] && t[0] == key[0];
      assert TrimStart(sp) == t;
      assert t[|t| - 1] == key[|key| - 1];
      assert TrimEnd(t) == t;
    }
  }

  /** Deleting the spaces from the label gives back the key, for keys
      that contain no whitespace. */
  lemma NoSpaceIn(key: string)
    requires NoWhitespace(key)
    ensures ' ' !in key
  {
    forall i | 0 <= i < |key| ensures key[i] != ' ' {
      assert !IsJsWhitespace(key[i]);
    }
  }

  lemma LabelUnspaced(key: string)
    requires NoWhitespace(key)
    ensures Unspaced(Label(key)) == key
  {
    LabelShape(key);
    NoSpaceIn(key);
    UnspacedSpaced(key);
    var sp := Spaced(key);
    if key != [] && IsUpper(key[0]) {
      assert sp == [' ', key[0]] + Spaced(key[1..]);
      assert sp == [' '] + sp[1..];
      UnspacedAppend([' '], sp[1..]);
      assert Unspaced([' ']) == [];
      assert Unspaced(Label(key)) == Unspaced(sp[1..]) == Unspaced(sp);
    } else {
      assert Label(key) == sp;
    }
  }

  /** The label is as long as the key plus one per capital, less the one
      space trimmed before a leading capital. */
  lemma LabelLength(key: string)
    requires NoWhitespace(key)
    ensures |Label(key)| == |key| + CountUpper(key) - (if key != [] && IsUpper(key[0]) then 1 else 0)
  {
    LabelShape(key);
    SpacedLength(key);
  }

  /** A key with no capital is its own label. */
  lemma {:induction false} SpacedNoUpper(s: string)
    requires forall i :: 0 <= i < |s| ==> !IsUpper(s[i])
    ensures Spaced(s) == s
  {
    if s != [] {
      SpacedNoUpper(s[1..]);
    }
  }

  lemma LabelNoUpper(key: string)
    requires NoWhitespace(key)
    requires forall i :: 0 <= i < |key| ==> !IsUpper(key[i])
    ensures Label(key) == key
  {
    LabelShape(key);
    SpacedNoUpper(key);
  }

  lemma SpacedVoxel()
    ensures Spaced("voxel") == "voxel"
  {
    var lower: string := "voxel";
    assert forall i :: 0 <= i < |lower| ==> 'a' <= lower[i] <= 'z';
    SpacedNoUpper(lower);
  }

  lemma SpacedSize()
    ensures Spaced("Size") == [' '] + "Size"
  {
    var rest: string := "ize";
    assert forall i :: 0 <= i < |rest| ==> 'a' <= rest[i] <= 'z';
    SpacedNoUpper(rest);
    assert "Size"[1..] == rest;
  }

  /** "voxelSize" is labelled "voxel Size". */
  lemma VoxelSizeLabel()
    ensures Label("voxel" + "Size") == "voxel" + [' '] + "Size"
  {
    SpacedVoxel();
    SpacedSize();
    SpacedAppend("voxel", "Size");
    var sp := Spaced("voxel" + "Size");
    assert sp == "voxel" + ([' '] + "Size");
    TrimNoop(sp);
  }

  predicate AllLower(s: string) {
    forall i :: 0 <= i < |s| ==> 'a' <= s[i] <= 'z'
  }

  /** A key of lower-case letters only is its own label. */
  lemma LowerLabel(key: string)
    requires AllLower(key)
    ensures Label(key) == key
  {
    SpacedNoUpper(key);
    if key != [] {
      assert 'a' <= key[0] <= 'z' && 'a' <= key[|key| - 1] <= 'z';
    }
    TrimNoop(key);
  }

  lemma AllLowerAppend(a: string, b: string)
    requires AllLower(a) && AllLower(b)
    ensures AllLower(a + b)
  {
    forall i | 0 <= i < |a + b|
      ensures 'a' <= (a + b)[i] <= 'z'
    {
      if i < |a| {
        assert (a + b)[i] == a[i];
      } else {
        assert (a + b)[i] == b[i - |a|];
      }
    }
  }

  /** An all-lower-case key such as "dimensions" is unchanged. */
  lemma DimensionsLabel()
    ensures Label("dimen" + "sions") == "dimen" + "sions"
  {
    var a: string := "dimen";
    var b: string := "sions";
    assert AllLower(a);
    assert AllLower(b);
    AllLowerAppend(a, b);
    LowerLabel(a + b);
  }

  /** The three tabs, in the order they are drawn. */
  const TabIds: seq<string> := ["model-insights", "processing-metadata", "technical-details"]

  class Breakdown {
    var activeTab: string

    constructor ()
      ensures activeTab == "model-insights"
    {
      activeTab := "model-insights";
    }

    /** A click on a tab. */
    method SelectTab(id: string)
      modifies this
      ensures activeTab == id
    {
      activeTab := id;
    }

    /** The sections drawn: one independent `activeTab === …` test per
        section, in page order. */
    function Sections(): seq<string>
      reads this
    {
      (if activeTab == "model-insights" then ["model-insights"] else [])
      + (if activeTab == "processing-metadata" then ["processing-metadata"] else [])
      + (if activeTab == "technical-details" then ["technical-details"] else [])
    }

    /** Exactly the section of a known tab is drawn, and none for any
        other value. */
    lemma SectionsMeaning()
      ensures activeTab in TabIds ==> Sections() == [activeTab]
      ensures activeTab !in TabIds ==> Sections() == []
    {
    }
  }
}
