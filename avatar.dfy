/** How the avatar shows a viseme (frontend/src/components/AIAvatar3D.jsx):
    a fixed table from viseme names to morph targets, and an effect that
    zeroes every morph-target influence of the head and the teeth and then
    sets the current viseme's target to 1. */
module Avatar {
  import opened Common

  /** The seven morph targets of the avatar's face the table uses. */
  datatype MorphTarget = MouthClose | MouthF | MouthUpperUp | JawOpen | MouthSmile | MouthFunnel | MouthSh

  /** A morph target's name in the mesh's dictionary. None is empty, so
      every successful table lookup passes the truthiness test. */
  function Name(t: MorphTarget): (r: string)
    ensures |r| > 0
  {
    match t
    case MouthClose => "mouthClose"
    case MouthF => "mouthF"
    case MouthUpperUp => "mouthUpperUp"
    case JawOpen => "jawOpen"
    case MouthSmile => "mouthSmile"
    case MouthFunnel => "mouthFunnel"
    case MouthSh => "mouthSh"
  }

  /** The seven names are distinct. */
  lemma NamesDistinct(t1: MorphTarget, t2: MorphTarget)
    requires Name(t1) == Name(t2)
    ensures t1 == t2
  {
  }

  /** `visemeToMorphTarget`: thirty viseme names onto the seven targets. */
  const VisemeToMorphTarget: map<string, MorphTarget> := map[
    "sil" := MouthClose, "p" := MouthClose, "b" := MouthClose, "m" := MouthClose,
    "f" := MouthF, "v" := MouthF,
    "t" := MouthUpperUp, "d" := MouthUpperUp, "n" := MouthUpperUp, "l" := MouthUpperUp,
    "s" := MouthUpperUp, "z" := MouthUpperUp, "r" := MouthUpperUp,
    "k" := JawOpen, "g" := JawOpen,
    "i" := MouthSmile, "I" := MouthSmile,
    "u" := MouthFunnel, "U" := MouthFunnel, "o" := MouthFunnel, "O" := MouthFunnel,
    "a" := JawOpen, "A" := JawOpen, "E" := JawOpen,
    "e" := MouthSmile,
    "schwa" := JawOpen,
    "th" := MouthUpperUp,
    "ch" := MouthSh, "j" := MouthSh, "sh" := MouthSh
  ]

  /** Silence closes the mouth. */
  lemma SilenceClosesMouth()
    ensures "sil" in VisemeToMorphTarget && VisemeToMorphTarget["sil"] == MouthClose
  {
  }

  /** The influence slot set to 1 for `viseme`: the slot of its morph
      target in the head's dictionary, if the viseme is in the table and
      its target is in the dictionary. */
  function TargetIndex(dict: map<string, nat>, viseme: string): (r: Option<nat>)
    ensures r.Some? <==> viseme in VisemeToMorphTarget && Name(VisemeToMorphTarget[viseme]) in dict
    ensures r.Some? ==> r.value in dict.Values
  {
    if viseme in VisemeToMorphTarget && Name(VisemeToMorphTarget[viseme]) in dict
    then Some(dict[Name(VisemeToMorphTarget[viseme])])
    else None
  }

  /** Every slot the dictionary names lies inside the influences. */
  predicate InBounds(dict: map<string, nat>, influences: seq<real>)
  {
    forall k :: k in dict ==> dict[k] < |influences|
  }

  /** The influences after the effect: the target slot is 1, every other
      slot the dictionary names is 0, and the slots it does not name keep
      their value. */
  function NewInfluences(before: seq<real>, dict: map<string, nat>, viseme: string): (r: seq<real>)
    requires InBounds(dict, before)
    ensures |r| == |before|
  {
    seq(|before|, i requires 0 <= i < |before| =>
      if TargetIndex(dict, viseme) == Some(i) then 1.0
      else if i in dict.Values then 0.0
      else before[i])
  }

  /** The slots the reset loop has zeroed once it has visited `done`. */
  function Zeroed(dict: map<string, nat>, done: set<string>): (r: set<nat>)
    requires done <= dict.Keys
    ensures forall i :: i in r <==> exists k :: k in done && dict[k] == i
  {
    set k | k in done :: dict[k]
  }

  /** The influences after the reset loop has visited `done`. */
  function Reset(before: seq<real>, dict: map<string, nat>, done: set<string>): (r: seq<real>)
    requires done <= dict.Keys
    ensures |r| == |before|
    ensures forall i :: 0 <= i < |r| ==> r[i] == (if i in Zeroed(dict, done) then 0.0 else before[i])
  {
    seq(|before|, i requires 0 <= i < |before| => if i in Zeroed(dict, done) then 0.0 else before[i])
  }

  /** Visiting every key zeroes exactly the slots the dictionary names. */
  lemma ZeroedAll(dict: map<string, nat>)
    ensures Zeroed(dict, dict.Keys) == dict.Values
  {
    forall i | i in dict.Values ensures i in Zeroed(dict, dict.Keys) {
      var k :| k in dict && dict[k] == i;
    }
  }

  /** Of the slots the dictionary names, exactly the target is on: it is
      1 and all others are 0, whatever the influences were before. */
  lemma OnlyTargetOn(before: seq<real>, dict: map<string, nat>, viseme: string)
    requires InBounds(dict, before)
    ensures forall k :: k in dict ==>
      NewInfluences(before, dict, viseme)[dict[k]] == (if TargetIndex(dict, viseme) == Some(dict[k]) then 1.0 else 0.0)
  {
  }

  /** A viseme outside the table, or whose target the head lacks, leaves
      every named slot at 0: a neutral mouth. */
  lemma UnknownVisemeNeutral(before: seq<real>, dict: map<string, nat>, viseme: string)
    requires InBounds(dict, before)
    requires viseme !in VisemeToMorphTarget || Name(VisemeToMorphTarget[viseme]) !in dict
    ensures forall k :: k in dict ==> NewInfluences(before, dict, viseme)[dict[k]] == 0.0
  {
    assert TargetIndex(dict, viseme) == None;
    forall k | k in dict ensures NewInfluences(before, dict, viseme)[dict[k]] == 0.0 {
      assert dict[k] in dict.Values;
    }
  }

  /** The effect leaves no trace of earlier visemes: on the slots the
      dictionary names, two heads end up alike whatever they showed
      before, and showing the same viseme twice changes nothing. */
  lemma HistoryFree(b1: seq<real>, b2: seq<real>, dict: map<string, nat>, viseme: string)
    requires InBounds(dict, b1) && InBounds(dict, b2)
    ensures forall k :: k in dict ==>
      NewInfluences(b1, dict, viseme)[dict[k]] == NewInfluences(b2, dict, viseme)[dict[k]]
    ensures InBounds(dict, NewInfluences(b1, dict, viseme))
    ensures NewInfluences(NewInfluences(b1, dict, viseme), dict, viseme) == NewInfluences(b1, dict, viseme)
  {
  }

  /** Slots the dictionary does not name are never touched. */
  lemma UnnamedSlotsKept(before: seq<real>, dict: map<string, nat>, viseme: string, i: nat)
    requires InBounds(dict, before) && i < |before| && i !in dict.Values
    ensures NewInfluences(before, dict, viseme)[i] == before[i]
  {
    assert TargetIndex(dict, viseme) != Some(i);
  }

  /** After the reset loop, setting the target slot (if any) gives the
      new influences. */
  lemma SetAfterReset(before: seq<real>, dict: map<string, nat>, viseme: string)
    requires InBounds(dict, before)
    ensures TargetIndex(dict, viseme).None? ==>
      Reset(before, dict, dict.Keys) == NewInfluences(before, dict, viseme)
    ensures TargetIndex(dict, viseme).Some? ==>
      Reset(before, dict, dict.Keys)[TargetIndex(dict, viseme).value := 1.0] == NewInfluences(before, dict, viseme)
  {
    ZeroedAll(dict);
  }

  /** The reset loop: every slot the dictionary names is zeroed in both
      meshes, in whatever order the keys come. */
  method ResetInfluences(head: array<real>, dict: map<string, nat>, teeth: array<real>)
    requires InBounds(dict, head[..]) && InBounds(dict, teeth[..])
    modifies head, teeth
    ensures head[..] == Reset(old(head[..]), dict, dict.Keys)
    ensures teeth[..] == Reset(old(teeth[..]), dict, dict.Keys)
  {
    var remaining := dict.Keys;
    while remaining != {}
      invariant remaining <= dict.Keys
      invariant head[..] == Reset(old(head[..]), dict, dict.Keys - remaining)
      invariant teeth[..] == Reset(old(teeth[..]), dict, dict.Keys - remaining)
      decreases |remaining|
    {
      var key :| key in remaining;
      var index := dict[key];
      head[index] := 0.0;
      teeth[index] := 0.0;
      remaining := remaining - {key};
    }
  }

  /** The effect, run when the viseme changes. `head` and `teeth` are the
      meshes' influence arrays (null when the mesh is missing), `dict` the
      head's morph-target dictionary; the teeth use the head's slots.
      Unless both meshes and the dictionary are there nothing happens;
      otherwise both meshes end up as `NewInfluences` of what they held. */
  method ShowViseme(head: array?<real>, dict: Option<map<string, nat>>, teeth: array?<real>, viseme: string)
    requires head != null && dict.Some? && teeth != null ==>
      InBounds(dict.value, head[..]) && InBounds(dict.value, teeth[..])
    modifies head, teeth
    ensures head == null || dict.None? || teeth == null ==>
      (head != null ==> head[..] == old(head[..])) && (teeth != null ==> teeth[..] == old(teeth[..]))
    ensures head != null && dict.Some? && teeth != null ==>
      head[..] == NewInfluences(old(head[..]), dict.value, viseme)
      && teeth[..] == NewInfluences(old(teeth[..]), dict.value, viseme)
  {
    if head == null || dict.None? || teeth == null {
      return;
    }
    var d := dict.value;
    ResetInfluences(head, d, teeth);
    SetAfterReset(old(head[..]), d, viseme);
    SetAfterReset(old(teeth[..]), d, viseme);
    if viseme in VisemeToMorphTarget {
      var morphTargetName := Name(VisemeToMorphTarget[viseme]);
      if morphTargetName in d {
        var index := d[morphTargetName];
        head[index] := 1.0;
        teeth[index] := 1.0;
      }
    }
  }
}
