/** The rules the skeleton tools apply to bone names: which bones count as
    right-hand bones, the name of a bone's mirror partner, the armature's
    name, and the renaming that moves a side tag from the middle of a name
    to its end. Side tags are `_L` and `_R`; the tags in the middle of a
    name are `_L_` and `_R_`. */
module BoneNames {
  import opened Results
  import opened Text
  import opened Lists

  /** `_x_`: a side tag in the middle of a name. */
  function InnerTag(x: char): string
  {
    ['_', x, '_']
  }

  // ------------------------------------------------------------ selection

  /** The bones the flip-all and mirror-all tools act on: names ending in
      `_R`, and, when non-final tags are honoured, names holding `_R_`. */
  predicate Selected(name: string, nonFinalMirror: bool)
  {
    EndsWith(name, Tag('R')) || (nonFinalMirror && Contains(name, InnerTag('R')))
  }

  /** Without the non-final option only a final `_R` selects a bone; the
      option only ever adds bones; and every selected name holds `_R`, so
      it has a mirror partner name. */
  lemma SelectedSpec(name: string, nonFinalMirror: bool)
    ensures !nonFinalMirror ==> (Selected(name, nonFinalMirror) <==> EndsWith(name, Tag('R')))
    ensures Selected(name, false) ==> Selected(name, true)
    ensures Selected(name, nonFinalMirror) ==> Contains(name, Tag('R')) && MirrorName(name) != []
  {
    if Selected(name, nonFinalMirror) {
      if EndsWith(name, Tag('R')) {
        ContainsSuffix(name, Tag('R'));
      } else {
        ContainsPrefixOf(name, InnerTag('R'), Tag('R'));
      }
      assert name != [];
      if Contains(name, Tag('L')) {
        ReplaceTagHead(name, 'L', 'R');
      } else {
        ReplaceTagHead(name, 'R', 'L');
      }
    }
  }

  /** How many bones the flip-all tool flips: one per selected name. */
  function SelectedCount(names: seq<string>, nonFinalMirror: bool, k: nat): nat
    requires k <= |names|
  {
    if k == 0 then 0
    else SelectedCount(names, nonFinalMirror, k - 1) + (if Selected(names[k - 1], nonFinalMirror) then 1 else 0)
  }

  /** The flip-all tool's walk over the bones, counting those it flips; the
      flip itself is a matrix edit and is not modelled. */
  method FlipCount(names: seq<string>, nonFinalMirror: bool) returns (count: nat)
    ensures count == SelectedCount(names, nonFinalMirror, |names|)
  {
    count := 0;
    var i := 0;
    while i < |names|
      invariant i <= |names| && count == SelectedCount(names, nonFinalMirror, i)
    {
      if Selected(names[i], nonFinalMirror) {
        count := count + 1;
      }
      i := i + 1;
    }
  }

  /** At most every bone is flipped, every bone exactly when every name is
      selected, and honouring non-final tags never flips fewer bones. */
  lemma {:induction false} SelectedCountSpec(names: seq<string>, k: nat, nonFinalMirror: bool)
    requires k <= |names|
    ensures SelectedCount(names, nonFinalMirror, k) <= k
    ensures SelectedCount(names, nonFinalMirror, k) == k <==> forall j :: 0 <= j < k ==> Selected(names[j], nonFinalMirror)
    ensures SelectedCount(names, false, k) <= SelectedCount(names, true, k)
  {
    if k > 0 {
      SelectedCountSpec(names, k - 1, nonFinalMirror);
      SelectedCountSpec(names, k - 1, false);
      SelectedCountSpec(names, k - 1, true);
      SelectedSpec(names[k - 1], false);
    }
  }

  // ------------------------------------------------------------ mirroring

  /** The name of the bone a bone is mirrored from: every `_R` turned into
      `_L`, except that a name holding `_L` has every `_L` turned into `_R`
      instead; a name with neither has the empty name. */
  function MirrorName(name: string): string
  {
    var fromRight := if Contains(name, Tag('R')) then ReplaceAll(name, Tag('R'), Tag('L')) else "";
    if Contains(name, Tag('L')) then ReplaceAll(name, Tag('L'), Tag('R')) else fromRight
  }

  /** A right-hand name without `_L` is mirrored onto a left-hand name of
      the same length that has no `_R` left, and whose own mirror is the
      original name. A final `_R` becomes a final `_L`. */
  lemma MirrorOfRight(name: string)
    requires Contains(name, Tag('R')) && !Contains(name, Tag('L'))
    ensures var m := MirrorName(name);
      && m == ReplaceAll(name, Tag('R'), Tag('L'))
      && |m| == |name|
      && Contains(m, Tag('L')) && !Contains(m, Tag('R'))
      && MirrorName(m) == name
      && (EndsWith(name, Tag('R')) ==> EndsWith(m, Tag('L')))
  {
    var m := ReplaceAll(name, Tag('R'), Tag('L'));
    ReplaceKeepsLength(name, Tag('R'), Tag('L'));
    ReplaceIntroduces(name, Tag('R'), Tag('L'));
    ReplaceTagRemoves(name, 'R', 'L');
    ReplaceTagRoundTrip(name, 'R', 'L');
    if EndsWith(name, Tag('R')) {
      ReplaceTagSuffix(name, 'R', 'L');
    }
  }

  /** A name holding `_L` is mirrored by turning its `_L` into `_R`,
      leaving no `_L`; when it had no `_R` the mirror of the mirror is the
      original name. */
  lemma MirrorOfLeft(name: string)
    requires Contains(name, Tag('L'))
    ensures var m := MirrorName(name);
      && m == ReplaceAll(name, Tag('L'), Tag('R'))
      && |m| == |name|
      && Contains(m, Tag('R')) && !Contains(m, Tag('L'))
      && (!Contains(name, Tag('R')) ==> MirrorName(m) == name)
  {
    var m := ReplaceAll(name, Tag('L'), Tag('R'));
    ReplaceKeepsLength(name, Tag('L'), Tag('R'));
    ReplaceIntroduces(name, Tag('L'), Tag('R'));
    ReplaceTagRemoves(name, 'L', 'R');
    if !Contains(name, Tag('R')) {
      ReplaceTagRoundTrip(name, 'L', 'R');
    }
  }

  /** A name without side tags has no partner name. */
  lemma MirrorOfUntagged(name: string)
    requires !Contains(name, Tag('L')) && !Contains(name, Tag('R'))
    ensures MirrorName(name) == []
  {
  }

  /** Mirroring is its own inverse on names tagged on one side only. */
  lemma MirrorInvolution(name: string)
    requires Contains(name, Tag('L')) != Contains(name, Tag('R'))
    ensures MirrorName(MirrorName(name)) == name
  {
    if Contains(name, Tag('L')) {
      MirrorOfLeft(name);
    } else {
      MirrorOfRight(name);
    }
  }

  // -------------------------------------------------------- armature name

  /** The armature is named after its first bone, with a trailing `_top`
      and then a trailing `_Bone` removed; an armature without bones has
      no first bone to name it after. */
  function ArmatureName(names: seq<string>): Result<string>
  {
    if names == [] then Failure(IndexOutOfRange)
    else
      var first := names[0];
      var base := if EndsWith(first, "_top") then first[..|first| - 4] else first;
      Success(if EndsWith(base, "_Bone") then base[..|base| - 5] else base)
  }

  /** The armature name is the first bone's name less one of the suffixes
      "", "_top", "_Bone" or "_Bone_top", the longest that fits; a name
      ending in neither is kept whole. */
  lemma ArmatureNameSpec(names: seq<string>)
    ensures ArmatureName(names).Failure? <==> names == []
    ensures names != [] ==> var r, first := ArmatureName(names).value, names[0];
      && (first == r || first == r + "_top" || first == r + "_Bone" || first == r + "_Bone_top")
      && (!EndsWith(first, "_top") && !EndsWith(first, "_Bone") ==> r == first)
      && (EndsWith(first, "_Bone_top") ==> r == first[..|first| - 9])
      && (EndsWith(first, "_top") && !EndsWith(first, "_Bone_top") ==> r == first[..|first| - 4])
  {
    if names != [] {
      var first := names[0];
      var r := ArmatureName(names).value;
      if EndsWith(first, "_top") {
        var base := first[..|first| - 4];
        assert first == base + "_top";
        if EndsWith(base, "_Bone") {
          assert base == r + "_Bone";
          assert first == r + "_Bone_top";
          assert EndsWith(first, "_Bone_top");
        } else {
          assert !EndsWith(first, "_Bone_top");
        }
      } else {
        assert !EndsWith(first, "_Bone_top");
        if EndsWith(first, "_Bone") {
          assert first == r + "_Bone";
        }
      }
    }
  }

  // --------------------------------------------------------- L/R fixing

  /** One pass of the fix: a name holding `_x_` has every `_x_` collapsed
      to `_` and `_x` appended. */
  function MoveTag(name: string, x: char): string
  {
    if Contains(name, InnerTag(x)) then ReplaceAll(name, InnerTag(x), "_") + Tag(x) else name
  }

  /** The name after both passes: `_L_` first, then `_R_` on the result. */
  function FixedName(name: string): string
  {
    MoveTag(MoveTag(name, 'L'), 'R')
  }

  /** How many of the two passes renamed the bone. */
  function Rewrites(name: string): nat
  {
    (if Contains(name, InnerTag('L')) then 1 else 0) + (if Contains(MoveTag(name, 'L'), InnerTag('R')) then 1 else 0)
  }

  /** The sum of Rewrites over the first k names whose indices are selected. */
  function TotalRewrites(names: seq<string>, selected: set<nat>, k: nat): nat
    requires k <= |names|
  {
    if k == 0 then 0
    else TotalRewrites(names, selected, k - 1) + (if k - 1 in selected then Rewrites(names[k - 1]) else 0)
  }

  /** A name is renamed exactly when it holds an inner tag, at most twice,
      and a renamed name ends in a side tag. */
  lemma RewritesSpec(name: string)
    ensures Rewrites(name) <= 2
    ensures Rewrites(name) > 0 <==> Contains(name, InnerTag('L')) || Contains(name, InnerTag('R'))
    ensures Rewrites(name) == 0 ==> FixedName(name) == name
    ensures Rewrites(name) > 0 ==> EndsWith(FixedName(name), Tag('L')) || EndsWith(FixedName(name), Tag('R'))
  {
    var once := MoveTag(name, 'L');
    if Contains(once, InnerTag('R')) {
      var t := ReplaceAll(once, InnerTag('R'), "_");
      assert (t + Tag('R'))[|t + Tag('R')| - 2..] == Tag('R');
    } else if Contains(name, InnerTag('L')) {
      var t := ReplaceAll(name, InnerTag('L'), "_");
      assert (t + Tag('L'))[|t + Tag('L')| - 2..] == Tag('L');
    }
  }

  /** Collapsing `_x_` inside p + `_x_` + s, where neither p nor s holds x,
      gives p + `_` + s. */
  lemma CollapseInnerTag(p: string, s: string, x: char)
    requires x != '_' && x !in p && x !in s
    ensures ReplaceAll(p + InnerTag(x) + s, InnerTag(x), "_") == p + "_" + s
    ensures Contains(p + InnerTag(x) + s, InnerTag(x))
  {
    var t := InnerTag(x) + s;
    assert p + InnerTag(x) + s == p + t;
    NoTagStartsIn(p, t, x);
    ReplacePast(p, t, InnerTag(x), "_");
    ReplaceLeading(InnerTag(x), s, "_");
    AbsentChar(s, InnerTag(x));
    ReplaceAbsent(s, InnerTag(x), "_");
    ContainsPrefix(s, InnerTag(x));
    ContainsOfSuffix(p, t, InnerTag(x));
  }

  /** No `_x_` starts inside p when x is not in p and what follows starts with `_`. */
  lemma NoTagStartsIn(p: string, t: string, x: char)
    requires x != '_' && x !in p && t != [] && t[0] == '_'
    ensures forall k :: 0 <= k < |p| ==> !StartsWith((p + t)[k..], InnerTag(x))
  {
    forall k | 0 <= k < |p|
      ensures !StartsWith((p + t)[k..], InnerTag(x))
    {
      if k + 1 < |p| {
        assert (p + t)[k..][1] == p[k + 1];
      } else {
        assert (p + t)[k..][1] == t[0];
      }
    }
  }

  /** A string containing q after a prefix p contains q. */
  lemma {:induction false} ContainsOfSuffix(p: string, t: string, q: string)
    requires Contains(t, q)
    ensures Contains(p + t, q)
    decreases |p|
  {
    if p != [] {
      ContainsOfSuffix(p[1..], t, q);
      assert p == [p[0]] + p[1..];
      assert p + t == [p[0]] + (p[1..] + t);
      ContainsTail(p[0], p[1..] + t, q);
    } else {
      assert p + t == t;
    }
  }

  /** A name holding no `L` and no `R` besides one inner tag gets that tag
      moved to its end, in one rename. */
  lemma FixMovesTag(p: string, s: string, x: char)
    requires x == 'L' || x == 'R'
    requires 'L' !in p && 'R' !in p && 'L' !in s && 'R' !in s
    ensures FixedName(p + InnerTag(x) + s) == p + "_" + s + Tag(x)
    ensures Rewrites(p + InnerTag(x) + s) == 1
  {
    var name := p + InnerTag(x) + s;
    CollapseInnerTag(p, s, x);
    var moved := p + "_" + s + Tag(x);
    if x == 'L' {
      assert 'R' !in moved;
      AbsentChar(moved, InnerTag('R'));
    } else {
      assert 'L' !in name;
      AbsentChar(name, InnerTag('L'));
      assert MoveTag(name, 'L') == name;
    }
  }

  /** The bones of an armature, by name, as the L/R fix tools rename them. */
  class Armature {
    var names: seq<string>

    constructor(names: seq<string>)
      ensures this.names == names
    {
      this.names := names;
    }

    /** Renames the bones whose indices are selected, each by both passes,
        and counts the renames. */
    method FixNonFinalLR(selected: set<nat>) returns (count: nat)
      modifies this
      ensures |names| == |old(names)|
      ensures forall i :: 0 <= i < |names| ==>
        names[i] == (if i in selected then FixedName(old(names)[i]) else old(names)[i])
      ensures count == TotalRewrites(old(names), selected, |names|)
    {
      count := 0;
      var i := 0;
      while i < |names|
        invariant i <= |names| == |old(names)|
        invariant forall j :: 0 <= j < |names| ==>
          names[j] == (if j < i && j in selected then FixedName(old(names)[j]) else old(names)[j])
        invariant count == TotalRewrites(old(names), selected, i)
      {
        if i in selected {
          var name := names[i];
          if Contains(name, InnerTag('L')) {
            name := ReplaceAll(name, InnerTag('L'), "_") + Tag('L');
            count := count + 1;
          }
          if Contains(name, InnerTag('R')) {
            name := ReplaceAll(name, InnerTag('R'), "_") + Tag('R');
            count := count + 1;
          }
          names := names[i := name];
        }
        i := i + 1;
      }
    }

    /** The fix-all tool: every bone is renamed. */
    method FixAllNonFinalLR() returns (count: nat)
      modifies this
      ensures |names| == |old(names)|
      ensures forall i :: 0 <= i < |names| ==> names[i] == FixedName(old(names)[i])
      ensures count == TotalRewrites(old(names), set i | i in Range(|old(names)|), |names|)
    {
      RangeDistinct(|names|);
      count := FixNonFinalLR(set i | i in Range(|names|));
    }
  }

  /** No renames are counted when no selected name holds an inner tag, and
      never more than two per selected name. */
  lemma {:induction false} TotalRewritesSpec(names: seq<string>, selected: set<nat>, k: nat)
    requires k <= |names|
    ensures TotalRewrites(names, selected, k) <= 2 * k
    ensures (forall j :: 0 <= j < k && j in selected ==>
               !Contains(names[j], InnerTag('L')) && !Contains(names[j], InnerTag('R')))
            ==> TotalRewrites(names, selected, k) == 0
  {
    if k > 0 {
      TotalRewritesSpec(names, selected, k - 1);
      RewritesSpec(names[k - 1]);
    }
  }
}
