/**
  The rules `toSelections`, `checkAndCorrectSelections`, `getFromServer` and
  `requestInputStream` apply, as functions: first-match index search with a default, the
  bounds clamp, effect switching from `effect_<name>_selected` / `effect_<name>_parameters`,
  the request query string and the synthesis request map.
*/
module Selection {
  import opened Wrappers
  import opened JavaText
  import opened MaryTypes

  /** `map.get(key)` on a map that may itself be absent. */
  function Lookup(kv: Option<map<string, string>>, key: string): (r: Option<string>)
    ensures r.Some? <==> kv.Some? && key in kv.value
    ensures r.Some? ==> r.value == kv.value[key]
  {
    if kv.Some? && key in kv.value then Some(kv.value[key]) else None
  }

  /** The index a search loop leaves behind: the first position holding `selected`, or
      `default` when nothing was selected or nothing matches. */
  function SelectIndex(names: seq<string>, selected: Option<string>, default: int): (r: int)
    ensures selected.Some? && selected.value in names ==>
      0 <= r < |names| && names[r] == selected.value && selected.value !in names[..r]
    ensures (selected.None? || selected.value !in names) ==> r == default
  {
    if selected.Some? && selected.value in names then FirstIndex(names, selected.value) else default
  }

  /** The linear search of `toSelections`: the first index holding `x`, or -1. */
  method Search(s: seq<string>, x: string) returns (i: int)
    ensures i == FirstIndex(s, x)
    ensures -1 <= i < |s| && (i == -1 <==> x !in s)
  {
    i := 0;
    while i < |s|
      invariant 0 <= i <= |s|
      invariant x !in s[..i]
    {
      if s[i] == x {
        FirstIndexAt(s, x, i);
        return;
      }
      assert s[..i + 1] == s[..i] + [s[i]];
      i := i + 1;
    }
    assert s[..i] == s;
    i := -1;
  }

  /** One search loop of `toSelections`: the index keeps `current` unless `selected` is found. */
  method SelectAmong(names: seq<string>, selected: string, current: int) returns (r: int)
    ensures r == SelectIndex(names, Some(selected), current)
  {
    var i := Search(names, selected);
    r := if i < 0 then current else i;
  }

  /** `MathUtils.CheckLimits(x, lo, hi)`: raise to `lo`, then lower to `hi`. On an empty list
      (`lo == 0`, `hi == -1`) every index becomes -1. */
  function CheckLimits(x: int, lo: int, hi: int): (r: int)
    ensures r <= hi
    ensures lo <= hi ==> lo <= r
    ensures lo <= x <= hi ==> r == x
    ensures x < lo <= hi ==> r == lo
    ensures x > hi ==> r == hi
    ensures lo > hi ==> r == hi
  {
    var raised := if x < lo then lo else x;
    if raised > hi then hi else raised
  }

  /** Clamping twice is clamping once. */
  lemma CheckLimitsIdempotent(x: int, lo: int, hi: int)
    ensures CheckLimits(CheckLimits(x, lo, hi), lo, hi) == CheckLimits(x, lo, hi)
  {
  }

  // ---------------------------------------------------------------- effects

  function SelectedKey(effectName: string): string {
    "effect_" + effectName + "_selected"
  }

  function ParametersKey(effectName: string): string {
    "effect_" + effectName + "_parameters"
  }

  /** One effect control after `toSelections`: switched on exactly when its "_selected" key
      maps to "on"; its parameters from the "_parameters" key, else its example parameters. */
  function ApplyEffect(e: Effect, kv: map<string, string>): (r: Effect)
    ensures r.name == e.name && r.exampleParams == e.exampleParams
    ensures r.selected <==> SelectedKey(e.name) in kv && kv[SelectedKey(e.name)] == "on"
    ensures ParametersKey(e.name) in kv ==> r.params == kv[ParametersKey(e.name)]
    ensures ParametersKey(e.name) !in kv ==> r.params == e.exampleParams
  {
    var p := ParametersKey(e.name);
    e.(selected := SelectedKey(e.name) in kv && kv[SelectedKey(e.name)] == "on",
       params := if p in kv then kv[p] else e.exampleParams)
  }

  function ApplyEffects(es: seq<Effect>, kv: map<string, string>): (r: seq<Effect>)
    ensures |r| == |es|
  {
    seq(|es|, i requires 0 <= i < |es| => ApplyEffect(es[i], kv))
  }

  /** The effect state after `toSelections` depends only on the map and on each control's
      name and example parameters: applying the same map again changes nothing. */
  lemma ApplyEffectsIdempotent(es: seq<Effect>, kv: map<string, string>)
    ensures ApplyEffects(ApplyEffects(es, kv), kv) == ApplyEffects(es, kv)
  {
    var once := ApplyEffects(es, kv);
    forall i | 0 <= i < |es|
      ensures ApplyEffect(once[i], kv) == once[i]
    {
      assert once[i].name == es[i].name;
    }
  }

  /** A map without any key of an effect switches it off and restores its example parameters. */
  lemma EffectWithoutKeysIsReset(e: Effect, kv: map<string, string>)
    requires SelectedKey(e.name) !in kv && ParametersKey(e.name) !in kv
    ensures ApplyEffect(e, kv) == Effect(e.name, false, e.exampleParams, e.exampleParams)
  {
  }

  // ---------------------------------------------------------------- requests

  /** The value `getFromServer` sends under its key: "?" for no parameters, else "? params". */
  function Query(params: Option<string>): (r: string)
    ensures |r| >= 1 && r[0] == '?'
  {
    if params.None? || |params.value| < 1 then "?" else "? " + params.value
  }

  /** What the server reads back from a query value. */
  function QueryParams(q: string): Option<string> {
    if |q| < 2 then None else Some(q[2..])
  }

  /** The parameters survive the query encoding, with an empty string read as none. */
  lemma QueryRoundTrip(params: Option<string>)
    ensures QueryParams(Query(params)) == (if params.None? || params.value == "" then None else params)
  {
    if params.Some? && params.value != "" {
      assert Query(params)[2..] == params.value;
    }
  }

  /** The key-value pairs of a synthesis request: the caller's map with SYNTHESIS_OUTPUT,
      INPUT_TEXT, INPUT_TYPE, OUTPUT_TYPE, LOCALE, AUDIO (when an audio type is given),
      VOICE (when a voice is given) and STYLE put into it, then the effect pairs over all. */
  function SynthesisRequest(kv: map<string, string>, input: string, inputType: string,
                            outputType: string, locale: string, audioType: Option<string>,
                            voice: Option<string>, style: string,
                            effects: Option<map<string, string>>, streaming: bool,
                            canStream: bool): (r: map<string, string>)
    // the effect pairs win over everything
    ensures effects.Some? ==> forall k :: k in effects.value ==> k in r && r[k] == effects.value[k]
    ensures {"SYNTHESIS_OUTPUT", "INPUT_TEXT", "INPUT_TYPE", "OUTPUT_TYPE", "LOCALE", "STYLE"} <= r.Keys
    // the remaining protocol keys carry the arguments
    ensures var fx := effects.GetOr(map[]);
      && ("SYNTHESIS_OUTPUT" !in fx ==> r["SYNTHESIS_OUTPUT"] == "?")
      && ("INPUT_TEXT" !in fx ==> r["INPUT_TEXT"] == input)
      && ("INPUT_TYPE" !in fx ==> r["INPUT_TYPE"] == inputType)
      && ("OUTPUT_TYPE" !in fx ==> r["OUTPUT_TYPE"] == outputType)
      && ("LOCALE" !in fx ==> r["LOCALE"] == locale)
      && ("STYLE" !in fx ==> r["STYLE"] == style)
      && ("VOICE" !in fx ==> ("VOICE" in r <==> voice.Some? || "VOICE" in kv))
      && ("VOICE" !in fx && voice.Some? ==> r["VOICE"] == voice.value)
      && ("VOICE" !in fx && voice.None? && "VOICE" in kv ==> r["VOICE"] == kv["VOICE"])
      && ("AUDIO" !in fx ==> ("AUDIO" in r <==> audioType.Some? || "AUDIO" in kv))
      && ("AUDIO" !in fx && audioType.None? && "AUDIO" in kv ==> r["AUDIO"] == kv["AUDIO"])
    // every other key keeps the caller's value, and no other key appears
    ensures var fx := effects.GetOr(map[]);
      && (forall k :: k in kv && k !in fx && k !in ProtocolKeys ==> k in r && r[k] == kv[k])
      && (forall k :: k in r ==> k in kv || k in fx || k in ProtocolKeys)
  {
    var m0 := kv["SYNTHESIS_OUTPUT" := "?"]["INPUT_TEXT" := input]["INPUT_TYPE" := inputType]
               ["OUTPUT_TYPE" := outputType]["LOCALE" := locale];
    var m1 := if audioType.Some?
              then m0["AUDIO" := audioType.value + (if streaming && canStream then "_STREAM" else "_FILE")]
              else m0;
    var m2 := if voice.Some? then m1["VOICE" := voice.value] else m1;
    var m3 := m2["STYLE" := style];
    if effects.Some? then m3 + effects.value else m3
  }

  const ProtocolKeys: set<string> :=
    {"SYNTHESIS_OUTPUT", "INPUT_TEXT", "INPUT_TYPE", "OUTPUT_TYPE", "LOCALE", "AUDIO", "VOICE", "STYLE"}

  /** The AUDIO value asks for a stream exactly when streaming was requested and the server can
      stream, unless an effect pair overrides AUDIO; it is there exactly when an audio type is
      given or the caller's map already had one. */
  lemma AudioStreamsOnlyWhenPossible(kv: map<string, string>, input: string, inputType: string,
                                     outputType: string, locale: string, audioType: Option<string>,
                                     voice: Option<string>, style: string,
                                     effects: Option<map<string, string>>, streaming: bool,
                                     canStream: bool)
    requires effects.None? || "AUDIO" !in effects.value
    ensures var r := SynthesisRequest(kv, input, inputType, outputType, locale, audioType,
                                      voice, style, effects, streaming, canStream);
      && ("AUDIO" in r <==> audioType.Some? || "AUDIO" in kv)
      && (audioType.Some? ==>
            (r["AUDIO"] == audioType.value + "_STREAM" <==> streaming && canStream) &&
            (r["AUDIO"] == audioType.value + "_FILE" <==> !(streaming && canStream)))
  {
    if audioType.Some? {
      var t := audioType.value;
      assert (t + "_STREAM")[|t|..] == "_STREAM" && (t + "_FILE")[|t|..] == "_FILE";
    }
  }

  /** `isHMMEffect`: the lower-cased reply contains "yes". */
  predicate IsHMMReply(info: string) {
    info != "" && Contains(AsciiLower(info), "yes")
  }
}
