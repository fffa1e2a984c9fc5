/** The effect-chain API of engine/src/api/effects.rs: adding an effect
    of a named type to a track's FX chain, removing it, listing a chain
    as comma-separated ids, and setting an effect parameter by name.
    The track manager and the effect manager are two maps, track id to
    FX chain and effect id to effect. The effects' DSP (engine/src/effects/,
    not part of this model) is reduced to the parameter values set here
    and the values the coefficients were last derived from. */
module Effects {
  import opened Common

  datatype EffectKind = Eq | Compressor | Reverb | Delay | Chorus | Limiter | Vst3

  // ---------------------------------------------------------------------
  // Effect type names

  /** The name `add_effect_to_track` accepts for each built-in type. */
  function EffectName(k: EffectKind): string
    requires k != Vst3
  {
    match k
    case Eq => "eq"
    case Compressor => "compressor"
    case Reverb => "reverb"
    case Delay => "delay"
    case Chorus => "chorus"
    case Limiter => "limiter"
  }

  /** The type-name match of `add_effect_to_track`, on the lower-cased
      name. A plug-in cannot be created this way. */
  function ParseEffectType(s: string): (r: Option<EffectKind>)
    ensures r.Some? ==> r.value != Vst3 && Lower(s) == EffectName(r.value)
    ensures r.None? ==> forall k :: k != Vst3 ==> Lower(s) != EffectName(k)
  {
    var name := Lower(s);
    if name == "eq" then Some(Eq)
    else if name == "compressor" then Some(Compressor)
    else if name == "reverb" then Some(Reverb)
    else if name == "delay" then Some(Delay)
    else if name == "chorus" then Some(Chorus)
    else if name == "limiter" then Some(Limiter)
    else None
  }

  /** Names round-trip, and case never matters. */
  lemma EffectNameRoundTrip(k: EffectKind, s: string)
    requires k != Vst3
    ensures ParseEffectType(EffectName(k)) == Some(k)
    ensures ParseEffectType(Lower(s)) == ParseEffectType(s)
  {
    LowerIdempotent(s);
    assert Lower(EffectName(k)) == EffectName(k);
  }

  // ---------------------------------------------------------------------
  // Parameter names

  const VST3_PREFIX: string := "param_"

  /** The parameter names each built-in effect accepts. */
  function ParamNames(k: EffectKind): set<string>
  {
    match k
    case Eq => {"low_freq", "low_gain", "mid1_freq", "mid1_gain", "mid1_q",
                 "mid2_freq", "mid2_gain", "mid2_q", "high_freq", "high_gain"}
    case Compressor => {"threshold", "ratio", "attack", "release", "makeup"}
    case Reverb => {"room_size", "damping", "wet_dry"}
    case Delay => {"time", "feedback", "wet_dry"}
    case Chorus => {"rate", "depth", "wet_dry"}
    case Limiter => {"threshold", "release"}
    case Vst3 => {}
  }

  /** The label used in the "Unknown ... parameter" error. */
  function KindLabel(k: EffectKind): string
  {
    match k
    case Eq => "EQ"
    case Compressor => "Compressor"
    case Reverb => "Reverb"
    case Delay => "Delay"
    case Chorus => "Chorus"
    case Limiter => "Limiter"
    case Vst3 => "VST3"
  }

  predicate HasVst3Prefix(name: string)
  {
    |name| >= |VST3_PREFIX| && name[..|VST3_PREFIX|] == VST3_PREFIX
  }

  /** The plug-in parameter index a "param_N" name carries. */
  function Vst3Index(name: string): (r: Option<nat>)
    ensures r.Some? ==> HasVst3Prefix(name) && r.value <= U32_MAX
  {
    if HasVst3Prefix(name) then ParseU32(name[|VST3_PREFIX|..]) else None
  }

  /** The name check of `set_effect_parameter`: a built-in effect accepts
      its own names only; a plug-in accepts "param_" followed by a `u32`. */
  function CheckParameter(k: EffectKind, name: string): (r: Result<(), string>)
    ensures k != Vst3 ==> (r.Ok? <==> name in ParamNames(k))
    ensures k == Vst3 ==> (r.Ok? <==> Vst3Index(name).Some?)
    ensures k == Vst3 && !HasVst3Prefix(name) ==>
      r == Err("VST3 parameter must be in format 'param_N': " + name)
    ensures k == Vst3 && HasVst3Prefix(name) && Vst3Index(name).None? ==>
      r == Err("Invalid VST3 parameter index: " + name)
    ensures k != Vst3 && name !in ParamNames(k) ==> r == Err("Unknown " + KindLabel(k) + " parameter: " + name)
  {
    if k == Vst3 then
      if !HasVst3Prefix(name) then Err("VST3 parameter must be in format 'param_N': " + name)
      else if ParseU32(name[|VST3_PREFIX|..]).None? then Err("Invalid VST3 parameter index: " + name)
      else Ok(())
    else if name in ParamNames(k) then Ok(())
    else Err("Unknown " + KindLabel(k) + " parameter: " + name)
  }

  /** Every 32-bit index written as "param_N" is accepted and names index
      N; a name without the prefix is refused. */
  lemma Vst3ParamNames(n: nat, name: string)
    requires n <= U32_MAX
    ensures Vst3Index(VST3_PREFIX + NatToString(n)) == Some(n)
    ensures CheckParameter(Vst3, VST3_PREFIX + NatToString(n)) == Ok(())
    ensures !HasVst3Prefix(name) ==> CheckParameter(Vst3, name).Err?
  {
    var p := VST3_PREFIX + NatToString(n);
    assert p[..|VST3_PREFIX|] == VST3_PREFIX;
    assert p[|VST3_PREFIX|..] == NatToString(n);
    ParseU32OfNatToString(n);
  }

  /** Setting which parameters re-derives the effect's coefficients: every
      EQ parameter, the compressor's attack and release, and the limiter's
      release. */
  predicate Recomputes(k: EffectKind, name: string)
  {
    k == Eq || (k == Compressor && name in {"attack", "release"}) || (k == Limiter && name == "release")
  }

  // ---------------------------------------------------------------------
  // Effects

  /** An effect: its kind, the parameter values set so far, and the
      values its coefficients were last derived from. */
  datatype Effect = Effect(kind: EffectKind, params: map<string, real>, coefficientsFrom: map<string, real>)

  function NewEffect(k: EffectKind): Effect
  {
    Effect(k, map[], map[])
  }

  /** An effect whose coefficients follow every parameter (the EQ) is up
      to date. */
  predicate Coherent(e: Effect)
  {
    e.kind == Eq ==> e.coefficientsFrom == e.params
  }

  /** One accepted assignment: the value is stored, and the coefficients
      are re-derived iff the parameter is one that `Recomputes`. */
  function SetParam(e: Effect, name: string, value: real): (r: Effect)
    ensures r.kind == e.kind && r.params == e.params[name := value]
    ensures Recomputes(e.kind, name) ==> r.coefficientsFrom == r.params
    ensures !Recomputes(e.kind, name) ==> r.coefficientsFrom == e.coefficientsFrom
    ensures Coherent(e) ==> Coherent(r)
  {
    var stored := e.(params := e.params[name := value]);
    if Recomputes(e.kind, name) then stored.(coefficientsFrom := stored.params) else stored
  }

  // ---------------------------------------------------------------------
  // Chain text

  /** `fx_chain` ids joined with ",". */
  function JoinIds(ids: seq<nat>): string
  {
    if |ids| == 0 then ""
    else if |ids| == 1 then NatToString(ids[0])
    else NatToString(ids[0]) + "," + JoinIds(ids[1..])
  }

  /** Index of the first ',' in `s`, or `|s|`. */
  function CommaAt(s: string): (k: nat)
    ensures k <= |s| && (k < |s| ==> s[k] == ',')
    ensures forall i :: 0 <= i < k ==> s[i] != ','
  {
    if |s| == 0 then 0 else if s[0] == ',' then 0 else 1 + CommaAt(s[1..])
  }

  /** The fields of a comma-separated text. */
  function SplitCommas(s: string): (r: seq<string>)
    ensures |r| >= 1
    decreases |s|
  {
    var k := CommaAt(s);
    if k == |s| then [s] else [s[..k]] + SplitCommas(s[k + 1..])
  }

  /** Reading a chain listing back: each field must be a non-empty run of
      digits; the empty text is the empty chain. */
  function ParseIds(s: string): (r: Option<seq<nat>>)
  {
    if s == "" then Some([]) else ParseFields(SplitCommas(s))
  }

  function ParseFields(fields: seq<string>): Option<seq<nat>>
  {
    if |fields| == 0 then Some([])
    else if |fields[0]| == 0 || !AllDigits(fields[0]) then None
    else match ParseFields(fields[1..])
      case None => None
      case Some(rest) => Some([DigitsValue(fields[0])] + rest)
  }

  lemma CommaAfterDigits(a: string, b: string)
    requires AllDigits(a)
    ensures CommaAt(a + "," + b) == |a|
    decreases |a|
  {
    if |a| > 0 {
      assert (a + "," + b)[1..] == a[1..] + "," + b;
      CommaAfterDigits(a[1..], b);
    }
  }

  /** Splitting a listing gives back the printed ids. */
  lemma {:induction false} SplitJoin(ids: seq<nat>)
    requires |ids| > 0
    ensures SplitCommas(JoinIds(ids)) == seq(|ids|, i requires 0 <= i < |ids| => NatToString(ids[i]))
  {
    var head := NatToString(ids[0]);
    if |ids| == 1 {
      assert CommaAt(head) == |head|;
    } else {
      var rest := JoinIds(ids[1..]);
      var s := head + "," + rest;
      CommaAfterDigits(head, rest);
      assert s[..|head|] == head;
      assert s[|head| + 1..] == rest;
      SplitJoin(ids[1..]);
    }
  }

  lemma {:induction false} ParsePrinted(ids: seq<nat>)
    ensures ParseFields(seq(|ids|, i requires 0 <= i < |ids| => NatToString(ids[i]))) == Some(ids)
  {
    var fields := seq(|ids|, i requires 0 <= i < |ids| => NatToString(ids[i]));
    if |ids| > 0 {
      assert fields[1..] == seq(|ids| - 1, i requires 0 <= i < |ids| - 1 => NatToString(ids[1..][i]));
      ParsePrinted(ids[1..]);
      DigitsOfNatToString(ids[0]);
      assert [ids[0]] + ids[1..] == ids;
    }
  }

  /** The chain listing reads back as the chain. */
  lemma ParseJoin(ids: seq<nat>)
    ensures ParseIds(JoinIds(ids)) == Some(ids)
  {
    if |ids| > 0 {
      assert JoinIds(ids) != "" by {
        assert |NatToString(ids[0])| >= 1;
        if |ids| > 1 {
          assert |JoinIds(ids)| >= |NatToString(ids[0])|;
        }
      }
      SplitJoin(ids);
      ParsePrinted(ids);
    }
  }

  // ---------------------------------------------------------------------
  // The graph

  predicate NoDuplicates(ids: seq<nat>)
  {
    forall i, j :: 0 <= i < j < |ids| ==> ids[i] != ids[j]
  }

  /** Position of the first occurrence of `x`, or `|ids|`. */
  function IndexOf(ids: seq<nat>, x: nat): (k: nat)
    ensures k <= |ids| && (k < |ids| ==> ids[k] == x)
    ensures forall j :: 0 <= j < k ==> ids[j] != x
  {
    if |ids| == 0 then 0 else if ids[0] == x then 0 else 1 + IndexOf(ids[1..], x)
  }

  /** In a chain without duplicates, removing the first occurrence of an
      id removes the id altogether and keeps the rest in order. */
  lemma RemoveFirstOccurrence(ids: seq<nat>, x: nat)
    requires NoDuplicates(ids) && x in ids
    ensures var k := IndexOf(ids, x);
      var r := ids[..k] + ids[k + 1..];
      x !in r && NoDuplicates(r) && |r| == |ids| - 1 && multiset(r) == multiset(ids) - multiset{x}
  {
    var k := IndexOf(ids, x);
    var r := ids[..k] + ids[k + 1..];
    forall i | 0 <= i < |r|
      ensures r[i] != x
    {
      var i' := if i < k then i else i + 1;
      assert r[i] == ids[i'];
    }
    forall i, j | 0 <= i < j < |r|
      ensures r[i] != r[j]
    {
      var i' := if i < k then i else i + 1;
      var j' := if j < k then j else j + 1;
      assert r[i] == ids[i'] && r[j] == ids[j'];
    }
    assert ids == ids[..k] + [x] + ids[k + 1..];
  }

  function TrackNotFound(trackId: nat): string
  {
    "Track " + NatToString(trackId) + " not found"
  }

  function EffectNotFound(effectId: nat): string
  {
    "Effect " + NatToString(effectId) + " not found"
  }

  const VST3_FAILED: string := "Failed to set VST3 parameter"

  class EffectGraph {
    /** Track id to its FX chain (the track manager's tracks). */
    var chains: map<nat, seq<nat>>
    /** Effect id to effect (the effect manager). */
    var effects: map<nat, Effect>
    /** The effect manager's next id. */
    var nextEffectId: nat

    ghost predicate Valid()
      reads this
    {
      (forall id :: id in effects ==> id < nextEffectId && Coherent(effects[id])) &&
      (forall t :: t in chains ==> NoDuplicates(chains[t]) && forall x :: x in chains[t] ==> x < nextEffectId)
    }

    /** Tracks with empty chains and no effects. */
    constructor (tracks: set<nat>)
      ensures Valid()
      ensures chains == (map t | t in tracks :: []) && effects == map[] && nextEffectId == 0
    {
      chains := map t | t in tracks :: [];
      effects := map[];
      nextEffectId := 0;
    }

    /** `add_effect_to_track`: an unknown type name is refused before
        anything is created. Otherwise the effect is registered under the
        next id, then appended to the track's chain; a missing track is an
        error, but the effect stays registered. */
    method AddEffectToTrack(trackId: nat, typeName: string) returns (r: Result<nat, string>)
      requires Valid()
      modifies this
      ensures Valid()
      ensures ParseEffectType(typeName).None? ==>
        r == Err("Unknown effect type: " + typeName) &&
        chains == old(chains) && effects == old(effects) && nextEffectId == old(nextEffectId)
      ensures ParseEffectType(typeName).Some? ==>
        var id := old(nextEffectId);
        nextEffectId == id + 1 && id !in old(effects) &&
        effects == old(effects)[id := NewEffect(ParseEffectType(typeName).value)] &&
        (trackId in old(chains) ==> r == Ok(id) && chains == old(chains)[trackId := old(chains)[trackId] + [id]]) &&
        (trackId !in old(chains) ==> r == Err(TrackNotFound(trackId)) && chains == old(chains))
    {
      var kind := ParseEffectType(typeName);
      if kind.None? {
        return Err("Unknown effect type: " + typeName);
      }
      var id := nextEffectId;
      nextEffectId := nextEffectId + 1;
      effects := effects[id := NewEffect(kind.value)];
      if trackId in chains {
        var chain := chains[trackId];
        assert id !in chain;
        chains := chains[trackId := chain + [id]];
        r := Ok(id);
      } else {
        r := Err(TrackNotFound(trackId));
      }
    }

    /** `remove_effect_from_track`: a missing track, or an effect not in
        its chain, is an error and changes nothing; otherwise the first
        occurrence leaves the chain and the effect is deregistered. */
    method RemoveEffectFromTrack(trackId: nat, effectId: nat) returns (r: Result<string, string>)
      requires Valid()
      modifies this
      ensures Valid()
      ensures nextEffectId == old(nextEffectId)
      ensures trackId !in old(chains) ==>
        r == Err(TrackNotFound(trackId)) && chains == old(chains) && effects == old(effects)
      ensures trackId in old(chains) && effectId !in old(chains)[trackId] ==>
        r == Err("Effect " + NatToString(effectId) + " not found in track " + NatToString(trackId) + "'s FX chain") &&
        chains == old(chains) && effects == old(effects)
      ensures trackId in old(chains) && effectId in old(chains)[trackId] ==>
        var chain := old(chains)[trackId];
        var k := IndexOf(chain, effectId);
        r == Ok("Effect " + NatToString(effectId) + " removed from track " + NatToString(trackId)) &&
        chains == old(chains)[trackId := chain[..k] + chain[k + 1..]] &&
        effects == old(effects) - {effectId}
    {
      if trackId !in chains {
        return Err(TrackNotFound(trackId));
      }
      var chain := chains[trackId];
      var pos := 0;
      while pos < |chain| && chain[pos] != effectId
        invariant 0 <= pos <= |chain|
        invariant forall j :: 0 <= j < pos ==> chain[j] != effectId
      {
        pos := pos + 1;
      }
      if pos == |chain| {
        return Err("Effect " + NatToString(effectId) + " not found in track " + NatToString(trackId) + "'s FX chain");
      }
      assert pos == IndexOf(chain, effectId);
      RemoveFirstOccurrence(chain, effectId);
      var rest := chain[..pos] + chain[pos + 1..];
      assert forall x :: x in rest ==> x in chain;
      chains := chains[trackId := rest];
      effects := effects - {effectId};
      r := Ok("Effect " + NatToString(effectId) + " removed from track " + NatToString(trackId));
    }

    /** `get_track_effects`: the chain as comma-separated ids. */
    function GetTrackEffects(trackId: nat): (r: Result<string, string>)
      reads this
      ensures trackId !in chains ==> r == Err(TrackNotFound(trackId))
      ensures trackId in chains ==> r.Ok? && ParseIds(r.value) == Some(chains[trackId])
    {
      if trackId in chains then
        ParseJoin(chains[trackId]);
        Ok(JoinIds(chains[trackId]))
      else Err(TrackNotFound(trackId))
    }

    /** `set_effect_parameter`: a missing effect and a name the effect does
        not accept are errors that change nothing; a plug-in may refuse
        the value (`pluginAccepts`). Otherwise the value is stored and the
        coefficients re-derived where the effect does so. */
    method SetEffectParameter(effectId: nat, name: string, value: real, pluginAccepts: bool)
      returns (r: Result<(), string>)
      requires Valid()
      modifies this
      ensures Valid()
      ensures chains == old(chains) && nextEffectId == old(nextEffectId)
      ensures effectId !in old(effects) ==> r == Err(EffectNotFound(effectId)) && effects == old(effects)
      ensures effectId in old(effects) && CheckParameter(old(effects)[effectId].kind, name).Err? ==>
        r == CheckParameter(old(effects)[effectId].kind, name) && effects == old(effects)
      ensures effectId in old(effects) && CheckParameter(old(effects)[effectId].kind, name).Ok? ==>
        var e := old(effects)[effectId];
        if e.kind == Vst3 && !pluginAccepts then r == Err(VST3_FAILED) && effects == old(effects)
        else r == Ok(()) && effects == old(effects)[effectId := SetParam(e, name, value)]
    {
      if effectId !in effects {
        return Err(EffectNotFound(effectId));
      }
      var e := effects[effectId];
      var check := CheckParameter(e.kind, name);
      if check.Err? {
        return check;
      }
      if e.kind == Vst3 && !pluginAccepts {
        return Err(VST3_FAILED);
      }
      effects := effects[effectId := SetParam(e, name, value)];
      r := Ok(());
    }
  }
}
