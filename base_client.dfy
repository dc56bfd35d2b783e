/**
  `MaryBaseClient`: the client-side state of the MARY TTS HTTP protocol. It parses the
  server's capability replies into lists, fetches and memoises example texts and effect
  information, reconciles a caller's key-value selections with those lists and assembles
  the synthesis request.

  The HTTP transport is the function `server(key, query)`, the reply to a request that sends
  `query` under `key`; `sent` records every request handed to the transport, in order: the
  single-key requests and the synthesis request maps. The helpers the class calls but
  does not define are parameters fixed at construction.
*/
module MaryHttpClient {
  import opened Wrappers
  import opened JavaText
  import opened MaryTypes
  import opened Capabilities
  import opened Selection

  /** The keys `toSelections` may fetch under while it runs. */
  const SelectionFetchKeys: set<string> :=
    {"VOICE_EXAMPLE_TEXT", "EXAMPLE_TEXT", "AUDIO_EFFECT_HELP_TEXT_LINE_BREAK", "DEFAULT_AUDIO_EFFECTS"}

  /** Outside `keys`, the two key-value maps agree. */
  ghost predicate OnlyKeysChanged(before: Option<map<string, string>>, after: Option<map<string, string>>,
                            keys: set<string>)
  {
    forall k :: k !in keys ==> Lookup(before, k) == Lookup(after, k)
  }

  /** A request handed to the transport: the single key and query value `getFromServer`
      sends, or the whole key-value map of a synthesis request. */
  datatype Request = KeyQuery(key: string, query: string) | SynthesisPairs(pairs: map<string, string>)

  /** `after` extends the request log `before` with single-key requests under `keys` only. */
  ghost predicate NewRequestsUse(before: seq<Request>, after: seq<Request>, keys: set<string>)
  {
    before <= after && forall j :: |before| <= j < |after| ==> after[j].KeyQuery? && after[j].key in keys
  }

  /** The version number and the streaming flag are those of the version reply `info`. */
  ghost predicate VersionFits(info: Option<string>, versionNo: string, canStream: bool) {
    versionNo == VersionNumber(info) && canStream == CanStream(versionNo)
  }

  /** Two runs of requests under `keys` make one. */
  lemma RequestsChain(a: seq<Request>, b: seq<Request>, c: seq<Request>,
                      keys1: set<string>, keys2: set<string>, keys: set<string>)
    requires NewRequestsUse(a, b, keys1) && NewRequestsUse(b, c, keys2)
    requires keys1 <= keys && keys2 <= keys
    ensures NewRequestsUse(a, c, keys)
  {
    forall j | |a| <= j < |c|
      ensures c[j].KeyQuery? && c[j].key in keys
    {
      if j < |b| {
        assert c[j] == b[j];
      }
    }
  }

  /** Whether `toSelections` has a map to search once its effect controls exist: the caller's,
      or the one the first fetch of the line break or the effects creates. */
  predicate MapAfterEffectsBox(kvIn: Option<map<string, string>>, box: Option<seq<Effect>>,
                               lineBreak: Option<string>, effects: Option<string>)
  {
    kvIn.Some? || (box.None? && (lineBreak.None? || effects.None?))
  }

  /** The keys `toSelections` reads from the caller's map. */
  const SelectionKeys: set<string> :=
    {"INPUT_TYPE", "OUTPUT_TYPE", "VOICE", "exampletext", "INPUT_TEXT", "OUTPUT_TEXT", "AUDIO_OUT"}

  /** Two maps that differ only in fetched keys agree on every selection key. */
  lemma SelectionLookupsAgree(a: Option<map<string, string>>, b: Option<map<string, string>>)
    requires OnlyKeysChanged(a, b, SelectionFetchKeys)
    ensures Lookup(a, "INPUT_TYPE") == Lookup(b, "INPUT_TYPE")
    ensures Lookup(a, "OUTPUT_TYPE") == Lookup(b, "OUTPUT_TYPE")
    ensures Lookup(a, "VOICE") == Lookup(b, "VOICE")
    ensures Lookup(a, "exampletext") == Lookup(b, "exampletext")
    ensures Lookup(a, "INPUT_TEXT") == Lookup(b, "INPUT_TEXT")
    ensures Lookup(a, "OUTPUT_TEXT") == Lookup(b, "OUTPUT_TEXT")
    ensures Lookup(a, "AUDIO_OUT") == Lookup(b, "AUDIO_OUT")
  {
    assert SelectionKeys !! SelectionFetchKeys;
  }

  lemma KeysChain(a: Option<map<string, string>>, b: Option<map<string, string>>, c: Option<map<string, string>>,
                  keys1: set<string>, keys2: set<string>, keys: set<string>)
    requires OnlyKeysChanged(a, b, keys1) && OnlyKeysChanged(b, c, keys2)
    requires keys1 <= keys && keys2 <= keys
    ensures OnlyKeysChanged(a, c, keys)
  {
  }

  /** A cache that only gained entries. */
  ghost predicate Grows(before: map<string, string>, after: map<string, string>) {
    forall k :: k in before ==> k in after && after[k] == before[k]
  }

  /** An index into a list of `n` entries, when there are any. */
  predicate IndexFits(i: int, n: nat) {
    n > 0 ==> 0 <= i < n
  }

  /** Every selection index points into its list, for the lists that are not empty. */
  predicate SelectionsInRange(formats: seq<string>, outs: seq<string>, inputs: seq<DataType>,
                              outputs: seq<DataType>, voices: seq<Voice>, formatIndex: int,
                              outIndex: int, inputIndex: int, outputIndex: int, voiceIndex: int)
  {
    && IndexFits(formatIndex, |formats|) && IndexFits(outIndex, |outs|)
    && IndexFits(inputIndex, |inputs|) && IndexFits(outputIndex, |outputs|)
    && IndexFits(voiceIndex, |voices|)
  }

  /** The output index `toSelections` starts from: the last output type, or 0. */
  function DefaultOutputIndex(outputs: Option<seq<DataType>>): int {
    if outputs.Some? && |outputs.value| > 0 then |outputs.value| - 1 else 0
  }

  /** The outcome of a step whose result is `r`. */
  function OutcomeOf<T>(r: Result<T, JavaException>): Outcome<JavaException> {
    if r.Success? then Pass else Fail(r.error)
  }

  /** The selections `toSelections` leaves: the data-type, voice, example-text and audio
      indices, whether the output is text, the example texts, the input and the output text. */
  datatype Picked = Picked(inputType: int, outputType: int, voice: int, isOutputText: bool,
                           exampleTexts: Option<seq<string>>, exampleText: int, inputText: string,
                           outputText: string, audioFormat: int, audioOut: int)

  /** The INPUT_TYPE, OUTPUT_TYPE and VOICE searches of `toSelections` for the values found
      under those keys: the input, output and voice indices (the first entry so named, else 0,
      the last output type and 0) and whether the output is text (an OUTPUT_TYPE was given and
      the selected output type's name lacks "AUDIO"). Searching a list that is not there
      throws NullPointerException; an output index outside the list (there are no output
      types) throws IndexOutOfBoundsException. */
  function TypesAndVoice(inType: Option<string>, outType: Option<string>, voice: Option<string>,
                         inputs: Option<seq<DataType>>, outputs: Option<seq<DataType>>,
                         voices: Option<seq<Voice>>): Result<(int, int, int, bool), JavaException>
  {
    if inType.Some? && inputs.None? then Failure(NullPointerException)
    else if outType.Some? && outputs.None? then Failure(NullPointerException)
    else
      var inputIndex := if inputs.Some? then SelectIndex(Names(inputs.value), inType, 0) else 0;
      var outputIndex :=
        if outputs.Some? then SelectIndex(Names(outputs.value), outType, DefaultOutputIndex(outputs)) else 0;
      if outType.Some? && !(0 <= outputIndex < |outputs.value|) then Failure(IndexOutOfBoundsException)
      else if voice.Some? && voices.None? then Failure(NullPointerException)
      else
        var voiceIndex := if voices.Some? then SelectIndex(VoiceNames(voices.value), voice, 0) else 0;
        var isOutputText := outType.Some? && !Contains(outputs.value[outputIndex].name, "AUDIO");
        Success((inputIndex, outputIndex, voiceIndex, isOutputText))
  }

  /** The AUDIO_OUT searches for the value found under that key: the first format whose type
      name is the whole value, else 0, and the first out-type equal to it, else the out index
      from before. Searching a list that is not there throws NullPointerException. */
  function AudioOut(audioOut: Option<string>, formats: Option<seq<string>>, outs: Option<seq<string>>,
                    outIndexBefore: int): Result<(int, int), JavaException>
  {
    if audioOut.None? then Success((0, outIndexBefore))
    else if formats.None? || outs.None? then Failure(NullPointerException)
    else Success((SelectIndex(TypeNames(formats.value), audioOut, 0), SelectIndex(outs.value, audioOut, outIndexBefore)))
  }

  class MaryBaseClient {
    // The server and the helpers this class calls but does not define.
    const server: (string, string) -> string
    /** Whether the platform can write audio of a type name (MP3, Vorbis, WAVE, ...). */
    const supported: string -> bool
    /** `StringUtils.toStringArray`. */
    const toStringArray: string -> seq<string>
    /** `StringUtils.processVoiceExampleText`. */
    const processVoiceExampleText: string -> seq<string>
    /** `new AudioEffectsBoxData(effects, lineBreak)`: the effect controls a description yields. */
    const effectsFromText: (string, Option<string>) -> seq<Effect>
    /** `MaryHttpClientUtils.toKeyValuePairs(text, false)`. */
    const toKeyValuePairs: string -> Option<map<string, string>>
    /** `System.getProperty("line.separator")`. */
    const lineSeparator: string

    var serverVersionInfo: Option<string>
    var serverVersionNo: string
    var serverCanStream: bool

    var allVoices: Option<seq<Voice>>
    var voicesByLocaleMap: Option<map<Locale, seq<Voice>>>
    var limitedDomainVoices: Option<map<string, seq<string>>>
    var allDataTypes: Option<seq<DataType>>
    var inputDataTypes: Option<seq<DataType>>
    var outputDataTypes: Option<seq<DataType>>
    var audioFileFormatTypes: Option<seq<string>>
    var audioOutTypes: Option<seq<string>>

    var serverExampleTexts: map<string, string>
    var currentExampleText: string
    var voiceExampleTextsLimitedDomain: map<string, string>
    var audioEffectHelpTextsMap: map<string, string>

    var inputText: string
    var outputText: string
    var isOutputText: bool
    var voiceSelected: int
    var inputTypeSelected: int
    var outputTypeSelected: int
    var audioFormatSelected: int
    var audioOutSelected: int
    var limitedDomainExampleTextSelected: int
    var limitedDomainExampleTexts: Option<seq<string>>

    var audioEffects: Option<string>
    var audioEffectsHelpTextLineBreak: Option<string>
    var effectsBoxData: Option<seq<Effect>>

    var keyValuePairs: Option<map<string, string>>

    /** Every request handed to the transport, oldest first. */
    ghost var sent: seq<Request>

    /** The server's reply to a request under `key` with `params`. */
    function Answer(key: string, params: Option<string>): string {
      server(key, Query(params))
    }

    /** `replaceAll("\n", line.separator)`. */
    function Cleaned(reply: string): string {
      ReplaceNewlines(reply, lineSeparator)
    }

    /** The version number once it is known: an "unknown" version is fetched from the server. */
    function KnownVersion(versionNo: string): string {
      if versionNo == Unknown then VersionNumber(Some(Answer("VERSION", None))) else versionNo
    }

    // ------------------------------------------------------------ invariant

    ghost predicate VersionCoherent()
      reads this`serverVersionInfo, this`serverVersionNo, this`serverCanStream
    {
      VersionFits(serverVersionInfo, serverVersionNo, serverCanStream)
    }

    /** Every text in `cache` is the cleaned, non-empty reply the server gives under `key` for
        its entry. */
    ghost predicate CacheSound(cache: map<string, string>, key: string) {
      forall n :: n in cache ==> Answer(key, Some(n)) != "" && cache[n] == Cleaned(Answer(key, Some(n)))
    }

    ghost predicate CachesSound()
      reads this`voiceExampleTextsLimitedDomain, this`serverExampleTexts, this`audioEffectHelpTextsMap
    {
      && CacheSound(voiceExampleTextsLimitedDomain, "VOICE_EXAMPLE_TEXT")
      && CacheSound(serverExampleTexts, "EXAMPLE_TEXT")
      && CacheSound(audioEffectHelpTextsMap, "AUDIO_EFFECT_HELP_TEXT")
    }

    /** The per-locale buckets hold the voice list; the example texts of limited-domain voices
        are the processed texts the server gives for them. */
    ghost predicate VoicesCoherent()
      reads this`allVoices, this`voicesByLocaleMap, this`limitedDomainVoices
    {
      && (allVoices.Some? <==> voicesByLocaleMap.Some?)
      && (allVoices.Some? ==> voicesByLocaleMap.value == ByLocale(allVoices.value))
      && (limitedDomainVoices.Some? ==> TextsFetched(limitedDomainVoices.value))
    }

    /** Every example-text list is the processed, cleaned text the server gives for its voice. */
    ghost predicate TextsFetched(limited: map<string, seq<string>>) {
      forall n :: n in limited ==>
        limited[n] == processVoiceExampleText(Cleaned(Answer("VOICE_EXAMPLE_TEXT", Some(n))))
    }

    /** The exception reading `line` in the layout `newFormat` throws, if any: `string2locale`
        on a locale of only '_', or the missing example text of a limited-domain voice. */
    ghost function LineError(line: string, newFormat: bool): Option<JavaException> {
      match ParseVoiceLine(line, newFormat)
      case BadLocale => Some(NoSuchElementException)
      case Parsed(v) =>
        if IsLimitedDomain(v) && Answer("VOICE_EXAMPLE_TEXT", Some(v.name)) == ""
        then Some(IOException(ExampleTextMissing)) else None
      case Skipped => None
    }

    /** Line `i` of `lines` does not throw. */
    ghost predicate LineReads(lines: seq<string>, i: int, newFormat: bool)
      requires 0 <= i < |lines|
    {
      LineError(lines[i], newFormat).None?
    }

    /** No line of `lines` throws. */
    ghost predicate LinesRead(lines: seq<string>, newFormat: bool) {
      forall i :: 0 <= i < |lines| ==> LineReads(lines, i, newFormat)
    }

    /** Line `k` is the first line that throws, it throws `error`, the voices are those of the
        lines up to and including it, and example texts were kept for exactly the
        limited-domain voices before it. */
    ghost predicate FailsAt(lines: seq<string>, k: int, newFormat: bool, voices: seq<Voice>,
                            limited: map<string, seq<string>>, error: JavaException) {
      && 0 <= k < |lines|
      && LinesRead(lines[..k], newFormat)
      && LineError(lines[k], newFormat) == Some(error)
      && voices == VoicesOf(lines[..k + 1], newFormat)
      && limited.Keys == LimitedNames(VoicesOf(lines[..k], newFormat))
    }

    /** What reading the voice `lines` yields in the layout `newFormat`: on success the voices
        of all lines, and example texts for exactly the limited-domain voices; otherwise the
        exception of the first line that throws, with the voices read up to and including that
        line and example texts for the limited-domain voices before it. */
    ghost predicate VoicesReadFrom(lines: seq<string>, newFormat: bool, voices: seq<Voice>,
                                   limited: map<string, seq<string>>, outcome: Outcome<JavaException>)
    {
      && (outcome.Pass? ==>
            && voices == VoicesOf(lines, newFormat)
            && LinesRead(lines, newFormat)
            && limited.Keys == LimitedNames(voices))
      && (outcome.Fail? ==>
            exists k :: 0 <= k < |lines| && FailsAt(lines, k, newFormat, voices, limited, outcome.error))
    }

    /** The voice lists `toVoices(info)` leaves: none for a missing or empty reply, else those
        read from its lines. */
    ghost predicate VoicesFilled(info: Option<string>, newFormat: bool, all: Option<seq<Voice>>,
                                 limited: Option<map<string, seq<string>>>, outcome: Outcome<JavaException>)
    {
      && (!HasText(info) ==> outcome.Pass? && all.None? && limited.None?)
      && (HasText(info) ==>
            all.Some? && limited.Some? &&
            VoicesReadFrom(JavaSplit(info.value, '\n'), newFormat, all.value, limited.value, outcome))
    }

    /** The example texts `toSelections` uses for a limited-domain voice: the caller's default
        texts, else the server's example text split into sentences (an empty reply throws). */
    ghost function VoiceExampleTexts(voiceName: string, defaultTexts: Option<seq<string>>): Result<seq<string>, JavaException> {
      if defaultTexts.Some? then Success(defaultTexts.value)
      else
        var reply := Answer("VOICE_EXAMPLE_TEXT", Some(voiceName));
        if reply == "" then Failure(IOException(ExampleTextMissing))
        else Success(processVoiceExampleText(Cleaned(reply)))
    }

    /** The example texts `toSelections` leaves with their selected index, for the value
        `exampleText` found under "exampletext": for a limited-domain selected voice its example
        texts and the first index holding that value, else 0; other voices leave the texts as
        they were. */
    ghost function ExampleTexts(exampleText: Option<string>, defaultTexts: Option<seq<string>>,
                                voices: Option<seq<Voice>>, voiceIndex: int, textsBefore: Option<seq<string>>)
      : Result<(Option<seq<string>>, int), JavaException>
    {
      if voices.None? || |voices.value| == 0 then Success((textsBefore, 0))
      else if !(0 <= voiceIndex < |voices.value|) then Failure(IndexOutOfBoundsException)
      else if !IsLimitedDomain(voices.value[voiceIndex]) then Success((textsBefore, 0))
      else
        var found := VoiceExampleTexts(voices.value[voiceIndex].name, defaultTexts);
        if found.Failure? then Failure(found.error)
        else Success((Some(found.value), SelectIndex(found.value, exampleText, 0)))
    }

    /** The example text `toSelections` falls back on when INPUT_TEXT is not given: the
        selected example text of a limited-domain voice, else the server's example text for the
        selected input type and the voice's locale (an empty reply throws). */
    ghost function DefaultInputText(voice: Voice, inputs: seq<DataType>, inputIndex: int, texts: Option<seq<string>>,
                                    textIndex: int): Result<string, JavaException>
    {
      if IsLimitedDomain(voice) then
        if texts.None? then Failure(NullPointerException)
        else if 0 <= textIndex < |texts.value| then Success(texts.value[textIndex])
        else Failure(IndexOutOfBoundsException)
      else if !(0 <= inputIndex < |inputs|) then Failure(IndexOutOfBoundsException)
      else
        var reply := Answer("EXAMPLE_TEXT", Some(inputs[inputIndex].name + " " + LocaleString(voice.locale)));
        if reply == "" then Failure(IOException(ExampleTextMissing)) else Success(Cleaned(reply))
    }

    /** The input text `toSelections` leaves for the value `given` found under INPUT_TEXT:
        that value; else, when there are voices and input types, the fallback example text;
        else "". */
    ghost function InputText(given: Option<string>, voices: Option<seq<Voice>>, inputs: Option<seq<DataType>>,
                             voiceIndex: int, inputIndex: int, texts: Option<seq<string>>, textIndex: int)
      : Result<string, JavaException>
    {
      if given.Some? then Success(given.value)
      else if voices.None? || |voices.value| == 0 || inputs.None? || |inputs.value| == 0 then Success("")
      else if !(0 <= voiceIndex < |voices.value|) then Failure(IndexOutOfBoundsException)
      else DefaultInputText(voices.value[voiceIndex], inputs.value, inputIndex, texts, textIndex)
    }

    /** What the type, voice and example-text searches of `toSelections` leave for the map
        `kv`, or the first exception they throw: the input, output and voice indices, whether
        the output is text, the example texts and their selected index. */
    ghost function TypesAndExamples(kv: Option<map<string, string>>, defaultTexts: Option<seq<string>>,
                                    inputs: Option<seq<DataType>>, outputs: Option<seq<DataType>>,
                                    voices: Option<seq<Voice>>, textsBefore: Option<seq<string>>)
      : Result<(int, int, int, bool, Option<seq<string>>, int), JavaException>
    {
      var tv := TypesAndVoice(Lookup(kv, "INPUT_TYPE"), Lookup(kv, "OUTPUT_TYPE"), Lookup(kv, "VOICE"),
                              inputs, outputs, voices);
      if tv.Failure? then Failure(tv.error)
      else
        var (inputIndex, outputIndex, voiceIndex, isOutputText) := tv.value;
        var ex := ExampleTexts(Lookup(kv, "exampletext"), defaultTexts, voices, voiceIndex, textsBefore);
        if ex.Failure? then Failure(ex.error)
        else Success((inputIndex, outputIndex, voiceIndex, isOutputText, ex.value.0, ex.value.1))
    }

    /** `TypesAndExamples` followed by the input-text search: what they leave, with the input
        text last, or the first exception they throw. */
    ghost function TextSelections(kv: Option<map<string, string>>, defaultTexts: Option<seq<string>>,
                                  inputs: Option<seq<DataType>>, outputs: Option<seq<DataType>>,
                                  voices: Option<seq<Voice>>, textsBefore: Option<seq<string>>)
      : Result<(int, int, int, bool, Option<seq<string>>, int, string), JavaException>
    {
      var te := TypesAndExamples(kv, defaultTexts, inputs, outputs, voices, textsBefore);
      if te.Failure? then Failure(te.error)
      else
        var (inputIndex, outputIndex, voiceIndex, isOutputText, texts, textIndex) := te.value;
        var input := InputText(Lookup(kv, "INPUT_TEXT"), voices, inputs, voiceIndex, inputIndex, texts, textIndex);
        if input.Failure? then Failure(input.error)
        else Success((inputIndex, outputIndex, voiceIndex, isOutputText, texts, textIndex, input.value))
    }

    /** What the searches of `toSelections` leave for the map `kv`, or the first exception they
        throw. `textsBefore` and `outIndexBefore` are the example texts and the out-type index
        from before the call, which the searches may keep. */
    ghost function Selections(kv: Option<map<string, string>>, defaultTexts: Option<seq<string>>,
                              inputs: Option<seq<DataType>>, outputs: Option<seq<DataType>>,
                              voices: Option<seq<Voice>>, formats: Option<seq<string>>, outs: Option<seq<string>>,
                              textsBefore: Option<seq<string>>, outIndexBefore: int): Result<Picked, JavaException>
    {
      var t := TextSelections(kv, defaultTexts, inputs, outputs, voices, textsBefore);
      if t.Failure? then Failure(t.error)
      else
        var (inputIndex, outputIndex, voiceIndex, isOutputText, texts, textIndex, inputText) := t.value;
        var given := Lookup(kv, "OUTPUT_TEXT");
        var outputText := if isOutputText && given.Some? then given.value else "";
        var audio := AudioOut(Lookup(kv, "AUDIO_OUT"), formats, outs, outIndexBefore);
        if audio.Failure? then Failure(audio.error)
        else
          Success(Picked(inputIndex, outputIndex, voiceIndex, isOutputText, texts, textIndex, inputText,
                         outputText, audio.value.0, audio.value.1))
    }

    /** The selection fields hold what the searches of `toSelections` pick for the map `kv`
        from the example texts `textsBefore` and the out-type index `outIndexBefore`, as
        `Selections` gives them, and `outcome` is how the searches ended. After an exception
        only the outcome is stated. */
    ghost predicate SelectionsMade(kv: Option<map<string, string>>, defaultTexts: Option<seq<string>>,
                                   textsBefore: Option<seq<string>>, outIndexBefore: int,
                                   outcome: Outcome<JavaException>)
      reads this`inputDataTypes, this`outputDataTypes, this`allVoices, this`audioFileFormatTypes,
            this`audioOutTypes, this`inputTypeSelected, this`outputTypeSelected, this`voiceSelected,
            this`isOutputText, this`limitedDomainExampleTexts, this`limitedDomainExampleTextSelected,
            this`inputText, this`outputText, this`audioFormatSelected, this`audioOutSelected
    {
      var r := Selections(kv, defaultTexts, inputDataTypes, outputDataTypes, allVoices,
                          audioFileFormatTypes, audioOutTypes, textsBefore, outIndexBefore);
      && outcome == OutcomeOf(r)
      && (r.Success? ==>
            r.value == Picked(inputTypeSelected, outputTypeSelected, voiceSelected, isOutputText,
                              limitedDomainExampleTexts, limitedDomainExampleTextSelected, inputText,
                              outputText, audioFormatSelected, audioOutSelected))
    }

    /** The effect description once `getAudioEffects` has run: the one known, else the
        DEFAULT_AUDIO_EFFECTS reply. */
    function FetchedEffects(known: Option<string>): string {
      if known.Some? then known.value else Answer("DEFAULT_AUDIO_EFFECTS", None)
    }

    /** The line break once `getAudioEffectHelpTextLineBreak` has run: the one known, else the
        trimmed AUDIO_EFFECT_HELP_TEXT_LINE_BREAK reply, still unknown when that is empty. */
    function FetchedLineBreak(known: Option<string>): Option<string> {
      if known.Some? then known
      else
        var reply := Answer("AUDIO_EFFECT_HELP_TEXT_LINE_BREAK", None);
        if reply == "" then None else Some(Trim(reply))
    }

    /** The effect controls once they are made sure of: `box` when there is one, else built
        from the effect description and the line break, each fetched while unknown. */
    function BoxMade(box: Option<seq<Effect>>, lineBreak: Option<string>, effects: Option<string>): seq<Effect> {
      if box.Some? then box.value else effectsFromText(FetchedEffects(effects), FetchedLineBreak(lineBreak))
    }

    /** The effect description and the line break once the effect controls are made sure of,
        starting from `box`, `lineBreak` and `effects`: kept when there were controls, else
        each fetched while unknown. */
    ghost predicate EffectTextsMade(box: Option<seq<Effect>>, lineBreak: Option<string>, effects: Option<string>)
      reads this`audioEffects, this`audioEffectsHelpTextLineBreak
    {
      if box.Some? then audioEffects == effects && audioEffectsHelpTextLineBreak == lineBreak
      else audioEffects == Some(FetchedEffects(effects)) && audioEffectsHelpTextLineBreak == FetchedLineBreak(lineBreak)
    }

    /** What `toSelections` does to the effect controls, given the caller's map `kvIn` and the
        controls, line break and description `box`, `lineBreak` and `effects` it starts from:
        the texts as `EffectTextsMade` says; a map whenever the caller gave one or a fetch
        created one; and, when the searches end without an exception, the controls made sure
        of, switched by that map when there is one. */
    ghost predicate EffectsSwitched(kvIn: Option<map<string, string>>, box: Option<seq<Effect>>,
                                    lineBreak: Option<string>, effects: Option<string>,
                                    outcome: Outcome<JavaException>)
      reads this`audioEffects, this`audioEffectsHelpTextLineBreak, this`effectsBoxData, this`keyValuePairs
    {
      var searched := MapAfterEffectsBox(kvIn, box, lineBreak, effects);
      && EffectTextsMade(box, lineBreak, effects)
      && (searched ==> keyValuePairs.Some?)
      && (outcome.Pass? ==>
            effectsBoxData == Some(if searched then ApplyEffects(BoxMade(box, lineBreak, effects), keyValuePairs.value)
                                   else BoxMade(box, lineBreak, effects)))
    }

    /** The searches of `toSelections` only pick positions inside the lists they search (an
        out-type index kept from before must already be one), so the clamp of
        `checkAndCorrectSelections` leaves a fresh selection as it is. Of an empty list the
        index is 0, except the out-type index, which keeps its value from before. */
    lemma SelectionsStayInRange(kv: Option<map<string, string>>, defaultTexts: Option<seq<string>>,
                                inputs: seq<DataType>, outputs: seq<DataType>, voices: seq<Voice>,
                                formats: seq<string>, outs: seq<string>, textsBefore: Option<seq<string>>,
                                outIndexBefore: int)
      requires IndexFits(outIndexBefore, |outs|)
      ensures var r := Selections(kv, defaultTexts, Some(inputs), Some(outputs), Some(voices), Some(formats),
                                  Some(outs), textsBefore, outIndexBefore);
        r.Success? ==>
          && SelectionsInRange(formats, outs, inputs, outputs, voices, r.value.audioFormat, r.value.audioOut,
                               r.value.inputType, r.value.outputType, r.value.voice)
          && (|formats| == 0 ==> r.value.audioFormat == 0)
          && (|outs| == 0 ==> r.value.audioOut == outIndexBefore)
          && (|inputs| == 0 ==> r.value.inputType == 0)
          && (|outputs| == 0 ==> r.value.outputType == 0)
          && (|voices| == 0 ==> r.value.voice == 0)
    {
    }

    /** The selections depend on the caller's map only through the keys they look up, so the
        protocol replies stored in the map while they run change nothing. */
    lemma SelectionsIgnoreFetchedKeys(kv: Option<map<string, string>>, kv': Option<map<string, string>>,
                                      defaultTexts: Option<seq<string>>, inputs: Option<seq<DataType>>,
                                      outputs: Option<seq<DataType>>, voices: Option<seq<Voice>>,
                                      formats: Option<seq<string>>, outs: Option<seq<string>>,
                                      textsBefore: Option<seq<string>>, outIndexBefore: int)
      requires OnlyKeysChanged(kv, kv', SelectionFetchKeys)
      ensures Selections(kv, defaultTexts, inputs, outputs, voices, formats, outs, textsBefore, outIndexBefore)
           == Selections(kv', defaultTexts, inputs, outputs, voices, formats, outs, textsBefore, outIndexBefore)
    {
      SelectionLookupsAgree(kv, kv');
      TextSelectionsIgnoreFetchedKeys(kv, kv', defaultTexts, inputs, outputs, voices, textsBefore);
    }

    /** The type, voice, example-text and input-text searches ignore the fetched keys. */
    lemma TextSelectionsIgnoreFetchedKeys(kv: Option<map<string, string>>, kv': Option<map<string, string>>,
                                          defaultTexts: Option<seq<string>>, inputs: Option<seq<DataType>>,
                                          outputs: Option<seq<DataType>>, voices: Option<seq<Voice>>,
                                          textsBefore: Option<seq<string>>)
      requires OnlyKeysChanged(kv, kv', SelectionFetchKeys)
      ensures TextSelections(kv, defaultTexts, inputs, outputs, voices, textsBefore)
           == TextSelections(kv', defaultTexts, inputs, outputs, voices, textsBefore)
    {
      SelectionLookupsAgree(kv, kv');
      assert TypesAndExamples(kv, defaultTexts, inputs, outputs, voices, textsBefore)
          == TypesAndExamples(kv', defaultTexts, inputs, outputs, voices, textsBefore);
    }

    /** What one line does to the voices and example texts read so far, in the layout
        `newFormat`: only a limited-domain voice that does not throw adds its name. */
    ghost predicate VoiceAdded(line: string, newFormat: bool, voices: seq<Voice>, voices': seq<Voice>,
                               limited: map<string, seq<string>>, limited': map<string, seq<string>>,
                               outcome: Outcome<JavaException>)
    {
      var parsed := ParseVoiceLine(line, newFormat);
      && voices' == voices + (if parsed.Parsed? then [parsed.voice] else [])
      && (outcome.Pass? <==> LineError(line, newFormat).None?)
      && (outcome.Fail? ==> LineError(line, newFormat) == Some(outcome.error))
      && limited'.Keys == limited.Keys +
           (if outcome.Pass? && parsed.Parsed? && IsLimitedDomain(parsed.voice) then {parsed.voice.name} else {})
    }

    /** A line that does not throw extends a prefix of lines that do not. */
    lemma LinesReadSnoc(lines: seq<string>, i: nat, newFormat: bool)
      requires i < |lines| && LinesRead(lines[..i], newFormat) && LineError(lines[i], newFormat).None?
      ensures LinesRead(lines[..i + 1], newFormat)
    {
      var before, upTo := lines[..i], lines[..i + 1];
      forall j | 0 <= j < |upTo|
        ensures LineReads(upTo, j, newFormat)
      {
        if j < i {
          assert upTo[j] == before[j] && LineReads(before, j, newFormat);
        }
      }
    }

    /** A line that throws after lines that do not is the first failing line. */
    lemma FailsAtLast(lines: seq<string>, i: nat, newFormat: bool, voices: seq<Voice>,
                      limited: map<string, seq<string>>, error: JavaException)
      requires i < |lines| && LinesRead(lines[..i], newFormat)
      requires LineError(lines[i], newFormat) == Some(error) && voices == VoicesOf(lines[..i + 1], newFormat)
      requires limited.Keys == LimitedNames(VoicesOf(lines[..i], newFormat))
      ensures FailsAt(lines[..i + 1], i, newFormat, voices, limited, error)
    {
      var upTo := lines[..i + 1];
      assert upTo[..i] == lines[..i] && upTo[i] == lines[i] && upTo[..i + 1] == upTo;
    }

    /** Reading one more line. */
    lemma ReadStep(lines: seq<string>, i: nat, newFormat: bool, voices: seq<Voice>,
                   limited: map<string, seq<string>>, voices': seq<Voice>,
                   limited': map<string, seq<string>>, outcome: Outcome<JavaException>)
      requires i < |lines| && VoicesReadFrom(lines[..i], newFormat, voices, limited, Pass)
      requires VoiceAdded(lines[i], newFormat, voices, voices', limited, limited', outcome)
      ensures VoicesReadFrom(lines[..i + 1], newFormat, voices', limited', outcome)
    {
      var parsed := ParseVoiceLine(lines[i], newFormat);
      if parsed.Parsed? {
        VoicesOfSnoc(lines, i, newFormat, parsed.voice);
        LimitedNamesSnoc(voices, parsed.voice);
      } else {
        VoicesOfSkip(lines, i, newFormat);
      }
      if outcome.Pass? {
        LinesReadSnoc(lines, i, newFormat);
      } else {
        FailsAtLast(lines, i, newFormat, voices', limited', outcome.error);
      }
    }

    /** An exception ends the reading: what was read from a prefix stands for all lines. */
    lemma ReadRest(lines: seq<string>, i: nat, newFormat: bool, voices: seq<Voice>,
                   limited: map<string, seq<string>>, error: JavaException)
      requires i <= |lines| && VoicesReadFrom(lines[..i], newFormat, voices, limited, Fail(error))
      ensures VoicesReadFrom(lines, newFormat, voices, limited, Fail(error))
    {
      var prefix := lines[..i];
      var k :| 0 <= k < |prefix| && FailsAt(prefix, k, newFormat, voices, limited, error);
      assert prefix[..k] == lines[..k] && prefix[k] == lines[k] && prefix[..k + 1] == lines[..k + 1];
      assert FailsAt(lines, k, newFormat, voices, limited, error);
    }

    /** The input and output lists are the flagged sub-lists of all data types. */
    ghost predicate DataTypesCoherent()
      reads this`allDataTypes, this`inputDataTypes, this`outputDataTypes
    {
      && (allDataTypes.None? ==> inputDataTypes.None? && outputDataTypes.None?)
      && (allDataTypes.Some? ==>
            inputDataTypes == Some(Filter(allDataTypes.value, IsInput)) &&
            outputDataTypes == Some(Filter(allDataTypes.value, IsOutput)))
    }

    /** The out-types are those of the formats, and the format list is never empty. */
    ghost predicate AudioTypesCoherent()
      reads this`audioFileFormatTypes, this`audioOutTypes
    {
      && (audioFileFormatTypes.Some? <==> audioOutTypes.Some?)
      && (audioFileFormatTypes.Some? ==>
            audioFileFormatTypes.value != [] && audioOutTypes.value == OutTypesOf(audioFileFormatTypes.value))
    }

    ghost predicate Valid()
      reads this`serverVersionInfo, this`serverVersionNo, this`serverCanStream,
            this`voiceExampleTextsLimitedDomain, this`serverExampleTexts, this`audioEffectHelpTextsMap,
            this`allVoices, this`voicesByLocaleMap, this`limitedDomainVoices,
            this`allDataTypes, this`inputDataTypes, this`outputDataTypes,
            this`audioFileFormatTypes, this`audioOutTypes
    {
      VersionCoherent() && CachesSound() && VoicesCoherent() && DataTypesCoherent() && AudioTypesCoherent()
    }

    /** The version and the voice lists as `init` clears them. */
    ghost predicate VersionAndVoicesCleared()
      reads this`serverVersionInfo, this`serverVersionNo, this`serverCanStream, this`allVoices, this`voicesByLocaleMap, this`limitedDomainVoices
    {
      serverVersionInfo.None? && serverVersionNo == Unknown && !serverCanStream && allVoices.None? && voicesByLocaleMap.None? && limitedDomainVoices == Some(map[])
    }

    /** The data-type and audio-type lists as `init` clears them. */
    ghost predicate TypeListsCleared()
      reads this`allDataTypes, this`inputDataTypes, this`outputDataTypes, this`audioFileFormatTypes, this`audioOutTypes
    {
      allDataTypes.None? && inputDataTypes.None? && outputDataTypes.None? && audioFileFormatTypes.None? && audioOutTypes.None?
    }

    /** The caches of fetched texts as `init` clears them. */
    ghost predicate CachesCleared()
      reads this`serverExampleTexts, this`currentExampleText, this`voiceExampleTextsLimitedDomain, this`audioEffectHelpTextsMap
    {
      serverExampleTexts == map[] && currentExampleText == "" && voiceExampleTextsLimitedDomain == map[] && audioEffectHelpTextsMap == map[]
    }

    /** The texts and the list selections as `init` clears them. */
    ghost predicate TextsCleared()
      reads this`inputText, this`outputText, this`isOutputText, this`voiceSelected, this`inputTypeSelected, this`outputTypeSelected, this`audioFormatSelected
    {
      inputText == "" && outputText == "" && !isOutputText && voiceSelected == 0 && inputTypeSelected == 0 && outputTypeSelected == 0 && audioFormatSelected == 0
    }

    /** The remaining selections, the effect state and the request map as `init` clears them. */
    ghost predicate EffectsCleared()
      reads this`audioOutSelected, this`limitedDomainExampleTextSelected, this`audioEffects, this`audioEffectsHelpTextLineBreak, this`effectsBoxData, this`keyValuePairs, this`limitedDomainExampleTexts
    {
      audioOutSelected == 0 && limitedDomainExampleTextSelected == 0 && audioEffects == Some("") && audioEffectsHelpTextLineBreak == Some("") && effectsBoxData.None? && keyValuePairs == Some(map[]) && limitedDomainExampleTexts.None?
    }

    ghost predicate CapabilitiesCleared()
      reads this`serverVersionInfo, this`serverVersionNo, this`serverCanStream,
            this`allVoices, this`voicesByLocaleMap, this`limitedDomainVoices,
            this`allDataTypes, this`inputDataTypes, this`outputDataTypes,
            this`audioFileFormatTypes, this`audioOutTypes,
            this`serverExampleTexts, this`currentExampleText,
            this`voiceExampleTextsLimitedDomain, this`audioEffectHelpTextsMap
    {
      VersionAndVoicesCleared() && TypeListsCleared() && CachesCleared()
    }

    ghost predicate SelectionsCleared()
      reads this`inputText, this`outputText, this`isOutputText,
            this`voiceSelected, this`inputTypeSelected, this`outputTypeSelected,
            this`audioFormatSelected, this`audioOutSelected, this`limitedDomainExampleTextSelected,
            this`audioEffects, this`audioEffectsHelpTextLineBreak, this`effectsBoxData,
            this`keyValuePairs, this`limitedDomainExampleTexts
    {
      TextsCleared() && EffectsCleared()
    }

    /** The state `init` establishes before it reads the capability replies. */
    ghost predicate IsReset()
      reads this`serverVersionInfo, this`serverVersionNo, this`serverCanStream,
            this`allVoices, this`voicesByLocaleMap, this`limitedDomainVoices,
            this`allDataTypes, this`inputDataTypes, this`outputDataTypes,
            this`audioFileFormatTypes, this`audioOutTypes,
            this`serverExampleTexts, this`currentExampleText,
            this`voiceExampleTextsLimitedDomain, this`audioEffectHelpTextsMap,
            this`inputText, this`outputText, this`isOutputText,
            this`voiceSelected, this`inputTypeSelected, this`outputTypeSelected,
            this`audioFormatSelected, this`audioOutSelected, this`limitedDomainExampleTextSelected,
            this`audioEffects, this`audioEffectsHelpTextLineBreak, this`effectsBoxData,
            this`keyValuePairs, this`limitedDomainExampleTexts
    {
      CapabilitiesCleared() && SelectionsCleared()
    }

    /** The initial state satisfies the invariant. */
    lemma ResetIsValid()
      requires IsReset()
      ensures Valid()
    {
    }

    constructor (server: (string, string) -> string, supported: string -> bool,
                 toStringArray: string -> seq<string>, processVoiceExampleText: string -> seq<string>,
                 effectsFromText: (string, Option<string>) -> seq<Effect>,
                 toKeyValuePairs: string -> Option<map<string, string>>, lineSeparator: string)
      ensures this.server == server && this.supported == supported
      ensures this.toStringArray == toStringArray && this.processVoiceExampleText == processVoiceExampleText
      ensures this.effectsFromText == effectsFromText && this.toKeyValuePairs == toKeyValuePairs
      ensures this.lineSeparator == lineSeparator
      ensures IsReset() && Valid() && sent == []
    {
      this.server := server;
      this.supported := supported;
      this.toStringArray := toStringArray;
      this.processVoiceExampleText := processVoiceExampleText;
      this.effectsFromText := effectsFromText;
      this.toKeyValuePairs := toKeyValuePairs;
      this.lineSeparator := lineSeparator;
      serverVersionInfo := None;
      serverVersionNo := Unknown;
      serverCanStream := false;
      allVoices := None;
      voicesByLocaleMap := None;
      limitedDomainVoices := Some(map[]);
      allDataTypes := None;
      inputDataTypes := None;
      outputDataTypes := None;
      audioFileFormatTypes := None;
      audioOutTypes := None;
      serverExampleTexts := map[];
      currentExampleText := "";
      voiceExampleTextsLimitedDomain := map[];
      audioEffectHelpTextsMap := map[];
      inputText := "";
      outputText := "";
      isOutputText := false;
      voiceSelected := 0;
      inputTypeSelected := 0;
      outputTypeSelected := 0;
      audioFormatSelected := 0;
      audioOutSelected := 0;
      limitedDomainExampleTextSelected := 0;
      limitedDomainExampleTexts := None;
      audioEffects := Some("");
      audioEffectsHelpTextLineBreak := Some("");
      effectsBoxData := None;
      keyValuePairs := Some(map[]);
      sent := [];
    }

    /** The first half of `init`: every field back to its initial value. */
    method Reset()
      modifies this
      ensures IsReset() && sent == old(sent)
    {
      ClearCapabilities();
      ClearSelections();
    }

    method ClearCapabilities()
      modifies this`serverVersionInfo, this`serverVersionNo, this`serverCanStream,
               this`allVoices, this`voicesByLocaleMap, this`limitedDomainVoices,
               this`allDataTypes, this`inputDataTypes, this`outputDataTypes,
               this`audioFileFormatTypes, this`audioOutTypes,
               this`serverExampleTexts, this`currentExampleText,
               this`voiceExampleTextsLimitedDomain, this`audioEffectHelpTextsMap
      ensures CapabilitiesCleared()
    {
      ClearVersionAndVoices();
      ClearTypeLists();
      ClearCaches();
    }

    method ClearSelections()
      modifies this`inputText, this`outputText, this`isOutputText,
               this`voiceSelected, this`inputTypeSelected, this`outputTypeSelected,
               this`audioFormatSelected, this`audioOutSelected, this`limitedDomainExampleTextSelected,
               this`audioEffects, this`audioEffectsHelpTextLineBreak, this`effectsBoxData,
               this`keyValuePairs, this`limitedDomainExampleTexts
      ensures SelectionsCleared()
    {
      ClearTexts();
      ClearEffects();
    }

    method ClearVersionAndVoices()
      modifies this`serverVersionInfo, this`serverVersionNo, this`serverCanStream, this`allVoices, this`voicesByLocaleMap, this`limitedDomainVoices
      ensures VersionAndVoicesCleared()
    {
      serverVersionInfo := None;
      serverVersionNo := Unknown;
      serverCanStream := false;
      allVoices := None;
      voicesByLocaleMap := None;
      limitedDomainVoices := Some(map[]);
    }

    method ClearTypeLists()
      modifies this`allDataTypes, this`inputDataTypes, this`outputDataTypes, this`audioFileFormatTypes, this`audioOutTypes
      ensures TypeListsCleared()
    {
      allDataTypes := None;
      inputDataTypes := None;
      outputDataTypes := None;
      audioFileFormatTypes := None;
      audioOutTypes := None;
    }

    method ClearCaches()
      modifies this`serverExampleTexts, this`currentExampleText, this`voiceExampleTextsLimitedDomain, this`audioEffectHelpTextsMap
      ensures CachesCleared()
    {
      serverExampleTexts := map[];
      currentExampleText := "";
      voiceExampleTextsLimitedDomain := map[];
      audioEffectHelpTextsMap := map[];
    }

    method ClearTexts()
      modifies this`inputText, this`outputText, this`isOutputText, this`voiceSelected, this`inputTypeSelected, this`outputTypeSelected, this`audioFormatSelected
      ensures TextsCleared()
    {
      inputText := "";
      outputText := "";
      isOutputText := false;
      voiceSelected := 0;
      inputTypeSelected := 0;
      outputTypeSelected := 0;
      audioFormatSelected := 0;
    }

    method ClearEffects()
      modifies this`audioOutSelected, this`limitedDomainExampleTextSelected, this`audioEffects, this`audioEffectsHelpTextLineBreak, this`effectsBoxData, this`keyValuePairs, this`limitedDomainExampleTexts
      ensures EffectsCleared()
    {
      audioOutSelected := 0;
      limitedDomainExampleTextSelected := 0;
      audioEffects := Some("");
      audioEffectsHelpTextLineBreak := Some("");
      effectsBoxData := None;
      keyValuePairs := Some(map[]);
      limitedDomainExampleTexts := None;
    }

    // ------------------------------------------------------------ transport

    /** `getFromServer(key, params)`: one request, whose reply is also stored under `key`. */
    method GetFromServer(key: string, params: Option<string>) returns (reply: string)
      modifies this`keyValuePairs, this`sent
      ensures reply == Answer(key, params)
      ensures keyValuePairs == Some(old(keyValuePairs).GetOr(map[])[key := reply])
      ensures OnlyKeysChanged(old(keyValuePairs), keyValuePairs, {key})
      ensures sent == old(sent) + [KeyQuery(key, Query(params))]
    {
      if keyValuePairs.None? {
        keyValuePairs := Some(map[]);
      }
      var query := Query(params);
      reply := server(key, query);
      sent := sent + [KeyQuery(key, query)];
      keyValuePairs := Some(keyValuePairs.value[key := reply]);
    }

    // ------------------------------------------------------------ version

    /** `toServerVersionInfo(info)`: the first whitespace token starting with a digit is the
        version number; the server can stream from version 3.0.1 on. */
    method ToServerVersionInfo(info: Option<string>)
      modifies this`serverVersionInfo, this`serverVersionNo, this`serverCanStream
      ensures serverVersionInfo == info
      ensures serverVersionNo == VersionNumber(info)
      ensures serverCanStream == CanStream(serverVersionNo)
    {
      serverVersionInfo := info;
      serverVersionNo := Unknown;
      if info.Some? {
        var toks := Tokenize(info.value, Whitespace);
        var i := 0;
        while i < |toks|
          invariant 0 <= i <= |toks|
          invariant serverVersionNo == Unknown
          invariant FirstVersionToken(toks) == FirstVersionToken(toks[i..])
        {
          if IsVersionToken(toks[i]) {
            serverVersionNo := toks[i];
            break;
          }
          assert toks[i..][1..] == toks[i + 1..];
          i := i + 1;
        }
      }
      serverCanStream := !(serverVersionNo == Unknown || LexLess(serverVersionNo, "3.0.1"));
    }

    /** `fillServerVersion`. */
    method FillServerVersion()
      modifies this`serverVersionInfo, this`serverVersionNo, this`serverCanStream, this`keyValuePairs, this`sent
      ensures serverVersionInfo == Some(Answer("VERSION", None))
      ensures serverVersionNo == VersionNumber(serverVersionInfo) && serverCanStream == CanStream(serverVersionNo)
      ensures keyValuePairs == Some(old(keyValuePairs).GetOr(map[])["VERSION" := Answer("VERSION", None)])
      ensures sent == old(sent) + [KeyQuery("VERSION", Query(None))]
    {
      var info := GetFromServer("VERSION", None);
      ToServerVersionInfo(Some(info));
    }

    /** `isServerNotOlderThan(other)`: fetches the version while it is unknown, then compares
        ignoring case. */
    method IsServerNotOlderThan(other: string) returns (b: bool)
      requires VersionFits(serverVersionInfo, serverVersionNo, serverCanStream)
      modifies this`serverVersionInfo, this`serverVersionNo, this`serverCanStream, this`keyValuePairs, this`sent
      ensures VersionFits(serverVersionInfo, serverVersionNo, serverCanStream)
      ensures serverVersionNo == KnownVersion(old(serverVersionNo))
      ensures b == NotOlderThan(serverVersionNo, other)
      ensures old(serverVersionNo) != Unknown ==>
        serverVersionInfo == old(serverVersionInfo) && keyValuePairs == old(keyValuePairs) && sent == old(sent)
      ensures old(serverVersionNo) == Unknown ==>
        keyValuePairs == Some(old(keyValuePairs).GetOr(map[])["VERSION" := Answer("VERSION", None)]) &&
        sent == old(sent) + [KeyQuery("VERSION", Query(None))]
    {
      if serverVersionNo == Unknown {
        FillServerVersion();
      }
      b := !LexLessIgnoreCase(serverVersionNo, other);
    }

    // ------------------------------------------------------------ memoised texts

    /** `getVoiceExampleTextLimitedDomain(voicename)`: asks the server only when the text is
        not cached; an empty reply is an IOException and is not cached. */
    method GetVoiceExampleTextLimitedDomain(voiceName: string) returns (r: Result<string, JavaException>)
      requires CacheSound(voiceExampleTextsLimitedDomain, "VOICE_EXAMPLE_TEXT")
      modifies this`voiceExampleTextsLimitedDomain, this`keyValuePairs, this`sent
      ensures OnlyKeysChanged(old(keyValuePairs), keyValuePairs, {"VOICE_EXAMPLE_TEXT"})
      ensures old(keyValuePairs).Some? ==> keyValuePairs.Some?
      ensures CacheSound(voiceExampleTextsLimitedDomain, "VOICE_EXAMPLE_TEXT")
      ensures var reply := Answer("VOICE_EXAMPLE_TEXT", Some(voiceName));
        && (r.Success? <==> reply != "")
        && (r.Success? ==> (r.value == Cleaned(reply) &&
              voiceExampleTextsLimitedDomain == old(voiceExampleTextsLimitedDomain)[voiceName := r.value]))
        && (r.Failure? ==> (r.error == IOException(ExampleTextMissing) &&
              voiceExampleTextsLimitedDomain == old(voiceExampleTextsLimitedDomain)))
      ensures voiceName in old(voiceExampleTextsLimitedDomain) ==>
        keyValuePairs == old(keyValuePairs) && sent == old(sent)
      ensures voiceName !in old(voiceExampleTextsLimitedDomain) ==>
        keyValuePairs == Some(old(keyValuePairs).GetOr(map[])["VOICE_EXAMPLE_TEXT" := Answer("VOICE_EXAMPLE_TEXT", Some(voiceName))]) &&
        sent == old(sent) + [KeyQuery("VOICE_EXAMPLE_TEXT", Query(Some(voiceName)))]
    {
      if voiceName !in voiceExampleTextsLimitedDomain {
        var info := GetFromServer("VOICE_EXAMPLE_TEXT", Some(voiceName));
        if |info| == 0 {
          return Failure(IOException(ExampleTextMissing));
        }
        voiceExampleTextsLimitedDomain := voiceExampleTextsLimitedDomain[voiceName := ReplaceNewlines(info, lineSeparator)];
      }
      r := Success(voiceExampleTextsLimitedDomain[voiceName]);
    }

    /** `getVoiceExampleTextsLimitedDomain(voicename)`: the example text split into sentences. */
    method GetVoiceExampleTextsLimitedDomain(voiceName: string) returns (r: Result<seq<string>, JavaException>)
      requires CacheSound(voiceExampleTextsLimitedDomain, "VOICE_EXAMPLE_TEXT")
      modifies this`voiceExampleTextsLimitedDomain, this`keyValuePairs, this`sent
      ensures OnlyKeysChanged(old(keyValuePairs), keyValuePairs, {"VOICE_EXAMPLE_TEXT"})
      ensures old(keyValuePairs).Some? ==> keyValuePairs.Some?
      ensures CacheSound(voiceExampleTextsLimitedDomain, "VOICE_EXAMPLE_TEXT")
      ensures var reply := Answer("VOICE_EXAMPLE_TEXT", Some(voiceName));
        && (r.Success? <==> reply != "")
        && (r.Success? ==> (r.value == processVoiceExampleText(Cleaned(reply)) &&
              voiceExampleTextsLimitedDomain == old(voiceExampleTextsLimitedDomain)[voiceName := Cleaned(reply)]))
        && (r.Failure? ==> (r.error == IOException(ExampleTextMissing) &&
              voiceExampleTextsLimitedDomain == old(voiceExampleTextsLimitedDomain)))
      ensures voiceName in old(voiceExampleTextsLimitedDomain) ==>
        keyValuePairs == old(keyValuePairs) && sent == old(sent)
      ensures voiceName !in old(voiceExampleTextsLimitedDomain) ==>
        keyValuePairs == Some(old(keyValuePairs).GetOr(map[])["VOICE_EXAMPLE_TEXT" := Answer("VOICE_EXAMPLE_TEXT", Some(voiceName))]) &&
        sent == old(sent) + [KeyQuery("VOICE_EXAMPLE_TEXT", Query(Some(voiceName)))]
    {
      var text := GetVoiceExampleTextLimitedDomain(voiceName);
      match text
      case Success(t) => r := Success(processVoiceExampleText(t));
      case Failure(e) => r := Failure(e);
    }

    /** `getServerExampleText(dataType, locale)`: cached under "dataType locale"; the result is
        also the current example text. */
    method GetServerExampleText(dataType: string, locale: string) returns (r: Result<string, JavaException>)
      requires CacheSound(serverExampleTexts, "EXAMPLE_TEXT")
      modifies this`serverExampleTexts, this`currentExampleText, this`keyValuePairs, this`sent
      ensures OnlyKeysChanged(old(keyValuePairs), keyValuePairs, {"EXAMPLE_TEXT"})
      ensures old(keyValuePairs).Some? ==> keyValuePairs.Some?
      ensures CacheSound(serverExampleTexts, "EXAMPLE_TEXT")
      ensures var key := dataType + " " + locale;
        var reply := Answer("EXAMPLE_TEXT", Some(key));
        && (r.Success? <==> reply != "")
        && (r.Success? ==> (r.value == Cleaned(reply) && currentExampleText == r.value &&
              serverExampleTexts == old(serverExampleTexts)[key := r.value]))
        && (r.Failure? ==> (r.error == IOException(ExampleTextMissing) &&
              serverExampleTexts == old(serverExampleTexts) && currentExampleText == old(currentExampleText)))
        && (key in old(serverExampleTexts) ==> keyValuePairs == old(keyValuePairs) && sent == old(sent))
        && (key !in old(serverExampleTexts) ==>
              keyValuePairs == Some(old(keyValuePairs).GetOr(map[])["EXAMPLE_TEXT" := reply]) &&
              sent == old(sent) + [KeyQuery("EXAMPLE_TEXT", Query(Some(key)))])
    {
      var key := dataType + " " + locale;
      if key !in serverExampleTexts {
        var info := GetFromServer("EXAMPLE_TEXT", Some(key));
        if |info| == 0 {
          return Failure(IOException(ExampleTextMissing));
        }
        serverExampleTexts := serverExampleTexts[key := ReplaceNewlines(info, lineSeparator)];
      }
      currentExampleText := serverExampleTexts[key];
      r := Success(currentExampleText);
    }

    // ------------------------------------------------------------ effects

    /** `getDefaultAudioEffects`: always asks the server. */
    method GetDefaultAudioEffects() returns (r: string)
      modifies this`keyValuePairs, this`sent
      ensures r == Answer("DEFAULT_AUDIO_EFFECTS", None)
      ensures keyValuePairs == Some(old(keyValuePairs).GetOr(map[])["DEFAULT_AUDIO_EFFECTS" := r])
      ensures sent == old(sent) + [KeyQuery("DEFAULT_AUDIO_EFFECTS", Query(None))]
    {
      r := GetFromServer("DEFAULT_AUDIO_EFFECTS", None);
    }

    /** `getAudioEffects`: the known effect description, fetched once when there is none. */
    method GetAudioEffects() returns (r: string)
      modifies this`audioEffects, this`keyValuePairs, this`sent
      ensures audioEffects == Some(r)
      ensures old(audioEffects).Some? ==>
        r == old(audioEffects).value && keyValuePairs == old(keyValuePairs) && sent == old(sent)
      ensures old(audioEffects).None? ==>
        r == Answer("DEFAULT_AUDIO_EFFECTS", None) &&
        keyValuePairs == Some(old(keyValuePairs).GetOr(map[])["DEFAULT_AUDIO_EFFECTS" := r]) &&
        sent == old(sent) + [KeyQuery("DEFAULT_AUDIO_EFFECTS", Query(None))]
    {
      if audioEffects.None? {
        var fx := GetDefaultAudioEffects();
        audioEffects := Some(fx);
      }
      r := audioEffects.value;
    }

    /** `getAudioEffectHelpTextLineBreak`: fetched while unknown; an empty reply leaves it
        unknown, any other is trimmed. */
    method GetAudioEffectHelpTextLineBreak() returns (r: Option<string>)
      modifies this`audioEffectsHelpTextLineBreak, this`keyValuePairs, this`sent
      ensures r == audioEffectsHelpTextLineBreak
      ensures old(audioEffectsHelpTextLineBreak).Some? ==>
        r == old(audioEffectsHelpTextLineBreak) && keyValuePairs == old(keyValuePairs) && sent == old(sent)
      ensures old(audioEffectsHelpTextLineBreak).None? ==>
        var reply := Answer("AUDIO_EFFECT_HELP_TEXT_LINE_BREAK", None);
        && r == (if reply == "" then None else Some(Trim(reply)))
        && keyValuePairs == Some(old(keyValuePairs).GetOr(map[])["AUDIO_EFFECT_HELP_TEXT_LINE_BREAK" := reply])
        && sent == old(sent) + [KeyQuery("AUDIO_EFFECT_HELP_TEXT_LINE_BREAK", Query(None))]
    {
      if audioEffectsHelpTextLineBreak.None? {
        var info := GetFromServer("AUDIO_EFFECT_HELP_TEXT_LINE_BREAK", None);
        if |info| == 0 {
          audioEffectsHelpTextLineBreak := None;
        } else {
          audioEffectsHelpTextLineBreak := Some(Trim(info));
        }
      }
      r := audioEffectsHelpTextLineBreak;
    }

    /** `getAudioEffectsBox`: built once, from the effect description and the line break. */
    method GetAudioEffectsBox() returns (r: seq<Effect>)
      modifies this`effectsBoxData, this`audioEffects, this`audioEffectsHelpTextLineBreak,
               this`keyValuePairs, this`sent
      ensures effectsBoxData == Some(r)
      ensures r == BoxMade(old(effectsBoxData), old(audioEffectsHelpTextLineBreak), old(audioEffects))
      ensures EffectTextsMade(old(effectsBoxData), old(audioEffectsHelpTextLineBreak), old(audioEffects))
      ensures old(effectsBoxData).Some? ==> keyValuePairs == old(keyValuePairs) && sent == old(sent)
      ensures OnlyKeysChanged(old(keyValuePairs), keyValuePairs, SelectionFetchKeys)
      ensures NewRequestsUse(old(sent), sent, SelectionFetchKeys)
    {
      if effectsBoxData.None? {
        ghost var kv0, sent0 := keyValuePairs, sent;
        var fx := GetAudioEffects();
        ghost var kv1, sent1 := keyValuePairs, sent;
        assert OnlyKeysChanged(kv0, kv1, SelectionFetchKeys);
        var lineBreak := GetAudioEffectHelpTextLineBreak();
        assert OnlyKeysChanged(kv1, keyValuePairs, SelectionFetchKeys);
        effectsBoxData := Some(effectsFromText(fx, lineBreak));
      }
      r := effectsBoxData.value;
    }

    /** `requestDefaultEffectParameters(effectName)`: never cached; an empty reply is "". */
    method RequestDefaultEffectParameters(effectName: string) returns (r: string)
      modifies this`keyValuePairs, this`sent
      ensures var reply := Answer("AUDIO_EFFECT_DEFAULT_PARAM", Some(effectName));
        (reply == "" ==> r == "") && (reply != "" ==> r == Cleaned(reply))
      ensures sent == old(sent) + [KeyQuery("AUDIO_EFFECT_DEFAULT_PARAM", Query(Some(effectName)))]
      ensures OnlyKeysChanged(old(keyValuePairs), keyValuePairs, {"AUDIO_EFFECT_DEFAULT_PARAM"})
    {
      var info := GetFromServer("AUDIO_EFFECT_DEFAULT_PARAM", Some(effectName));
      if |info| == 0 {
        return "";
      }
      r := ReplaceNewlines(info, lineSeparator);
    }

    /** `requestFullEffect(effectName, currentEffectParameters)`: never cached. */
    method RequestFullEffect(effectName: string, currentEffectParameters: string) returns (r: string)
      modifies this`keyValuePairs, this`sent
      ensures var reply := Answer("FULL_AUDIO_EFFECT", Some(effectName + " " + currentEffectParameters));
        (reply == "" ==> r == "") && (reply != "" ==> r == Cleaned(reply))
      ensures sent == old(sent) + [KeyQuery("FULL_AUDIO_EFFECT", Query(Some(effectName + " " + currentEffectParameters)))]
      ensures OnlyKeysChanged(old(keyValuePairs), keyValuePairs, {"FULL_AUDIO_EFFECT"})
    {
      var info := GetFromServer("FULL_AUDIO_EFFECT", Some(effectName + " " + currentEffectParameters));
      if |info| == 0 {
        return "";
      }
      r := ReplaceNewlines(info, lineSeparator);
    }

    /** `requestEffectHelpText(effectName)`: cached; an empty reply gives "" and is not cached. */
    method RequestEffectHelpText(effectName: string) returns (r: string)
      requires CacheSound(audioEffectHelpTextsMap, "AUDIO_EFFECT_HELP_TEXT")
      modifies this`audioEffectHelpTextsMap, this`keyValuePairs, this`sent
      ensures CacheSound(audioEffectHelpTextsMap, "AUDIO_EFFECT_HELP_TEXT")
      ensures var reply := Answer("AUDIO_EFFECT_HELP_TEXT", Some(effectName));
        && (reply == "" ==> r == "" && audioEffectHelpTextsMap == old(audioEffectHelpTextsMap))
        && (reply != "" ==> (r == Cleaned(reply) &&
              audioEffectHelpTextsMap == old(audioEffectHelpTextsMap)[effectName := r]))
      ensures effectName in old(audioEffectHelpTextsMap) ==>
        keyValuePairs == old(keyValuePairs) && sent == old(sent)
      ensures effectName !in old(audioEffectHelpTextsMap) ==>
        sent == old(sent) + [KeyQuery("AUDIO_EFFECT_HELP_TEXT", Query(Some(effectName)))] &&
        OnlyKeysChanged(old(keyValuePairs), keyValuePairs, {"AUDIO_EFFECT_HELP_TEXT"})
    {
      if effectName !in audioEffectHelpTextsMap {
        var info := GetFromServer("AUDIO_EFFECT_HELP_TEXT", Some(effectName));
        if |info| == 0 {
          return "";
        }
        audioEffectHelpTextsMap := audioEffectHelpTextsMap[effectName := ReplaceNewlines(info, lineSeparator)];
      }
      r := audioEffectHelpTextsMap[effectName];
    }

    /** `isHMMEffect(effectName)`: the reply, lower-cased, contains "yes". */
    method IsHMMEffect(effectName: string) returns (b: bool)
      modifies this`keyValuePairs, this`sent
      ensures b == IsHMMReply(Answer("IS_HMM_AUDIO_EFFECT", Some(effectName)))
      ensures sent == old(sent) + [KeyQuery("IS_HMM_AUDIO_EFFECT", Query(Some(effectName)))]
      ensures OnlyKeysChanged(old(keyValuePairs), keyValuePairs, {"IS_HMM_AUDIO_EFFECT"})
    {
      var info := GetFromServer("IS_HMM_AUDIO_EFFECT", Some(effectName));
      if |info| == 0 {
        return false;
      }
      b := Contains(AsciiLower(info), "yes");
    }

    /** `toAudioEffectsHelpTextLineBreak(s)`: an empty or missing line break is unknown. */
    method ToAudioEffectsHelpTextLineBreak(s: Option<string>)
      modifies this`audioEffectsHelpTextLineBreak
      ensures audioEffectsHelpTextLineBreak == (if HasText(s) then s else None)
    {
      if s.Some? && |s.value| > 0 {
        audioEffectsHelpTextLineBreak := s;
      } else {
        audioEffectsHelpTextLineBreak := None;
      }
    }

    /** `toAudioEffects(s)`: an empty or missing description is unknown and leaves no effect
        controls; otherwise the controls are built from it. */
    method ToAudioEffects(s: Option<string>)
      modifies this`audioEffects, this`effectsBoxData
      ensures audioEffects == (if HasText(s) then s else None)
      ensures effectsBoxData ==
        (if HasText(s) then Some(effectsFromText(s.value, audioEffectsHelpTextLineBreak)) else None)
    {
      if s.Some? && |s.value| > 0 {
        audioEffects := s;
      } else {
        audioEffects := None;
      }
      if audioEffects.Some? && |audioEffects.value| > 0 {
        effectsBoxData := Some(effectsFromText(audioEffects.value, audioEffectsHelpTextLineBreak));
      } else {
        effectsBoxData := None;
      }
    }
  
    // ------------------------------------------------------------ capability parsers

    /** An "unknown" version is fetched once more only while the server keeps it unknown, and
        the second fetch gets the same reply. */
    lemma KnownVersionIdempotent(versionNo: string)
      ensures KnownVersion(KnownVersion(versionNo)) == KnownVersion(versionNo)
    {
    }

    /** The body of the loop in `toVoices` up to the construction of the voice: the tokens of
        one line and, for a line of at least three tokens, the version check that decides its
        layout. */
    method ReadVoiceLine(line: string) returns (r: VoiceLine)
      requires VersionFits(serverVersionInfo, serverVersionNo, serverCanStream)
      modifies this`serverVersionInfo, this`serverVersionNo, this`serverCanStream, this`keyValuePairs, this`sent
      ensures VersionFits(serverVersionInfo, serverVersionNo, serverCanStream)
      ensures r == ParseVoiceLine(line, NotOlderThan(KnownVersion(old(serverVersionNo)), "3.5.0"))
      ensures serverVersionNo == old(serverVersionNo) || serverVersionNo == KnownVersion(old(serverVersionNo))
      ensures NewRequestsUse(old(sent), sent, {"VERSION"})
    {
      var toks := Tokenize(line, Whitespace);
      if |toks| < 2 {
        return Skipped;
      }
      var name := toks[0];
      var locale := String2Locale(toks[1]);
      if locale.None? {
        return BadLocale;
      }
      if |toks| < 3 {
        return Skipped;
      }
      var gender := toks[2];
      var isNewFormat := IsServerNotOlderThan("3.5.0");
      if isNewFormat {
        var synthesizerType := if |toks| < 4 then "non-specified" else toks[3];
        var domain := if |toks| < 5 then "general" else toks[4];
        r := Parsed(Voice(name, locale.value, gender, domain, Some(synthesizerType)));
      } else {
        var domain := if |toks| < 4 then "general" else toks[3];
        r := Parsed(Voice(name, locale.value, gender, domain, None));
      }
    }

    /** `toVoices(info)`: one voice per line of at least three tokens, appended to the voice
        list and to the bucket of its locale; a limited-domain voice also gets its example
        texts. The layout of the line depends on whether the server is at least 3.5.0. The
        first line that throws ends the reading with its exception, leaving the voices of the
        lines up to and including it. */
    method ToVoices(info: Option<string>) returns (outcome: Outcome<JavaException>)
      requires VersionFits(serverVersionInfo, serverVersionNo, serverCanStream)
      requires CacheSound(voiceExampleTextsLimitedDomain, "VOICE_EXAMPLE_TEXT")
      modifies this`allVoices, this`voicesByLocaleMap, this`limitedDomainVoices,
               this`serverVersionInfo, this`serverVersionNo, this`serverCanStream,
               this`voiceExampleTextsLimitedDomain, this`keyValuePairs, this`sent
      ensures VersionFits(serverVersionInfo, serverVersionNo, serverCanStream)
      ensures CacheSound(voiceExampleTextsLimitedDomain, "VOICE_EXAMPLE_TEXT") && VoicesCoherent()
      ensures VoicesFilled(info, NotOlderThan(KnownVersion(old(serverVersionNo)), "3.5.0"),
                           allVoices, limitedDomainVoices, outcome)
      ensures !HasText(info) ==> serverVersionNo == old(serverVersionNo) && sent == old(sent)
      ensures serverVersionNo == old(serverVersionNo) || serverVersionNo == KnownVersion(old(serverVersionNo))
      ensures Grows(old(voiceExampleTextsLimitedDomain), voiceExampleTextsLimitedDomain)
      ensures NewRequestsUse(old(sent), sent, {"VERSION", "VOICE_EXAMPLE_TEXT"})
    {
      allVoices := None;
      voicesByLocaleMap := None;
      limitedDomainVoices := None;
      if info.None? || |info.value| == 0 {
        return Pass;
      }
      var voices, buckets, limited;
      voices, buckets, limited, outcome := ReadVoices(JavaSplit(info.value, '\n'));
      allVoices, voicesByLocaleMap, limitedDomainVoices := Some(voices), Some(buckets), Some(limited);
    }

    /** The loop of `toVoices` over the lines of a non-empty reply, building the voice list,
        the per-locale buckets and the example texts of limited-domain voices. */
    method ReadVoices(lines: seq<string>)
      returns (voices: seq<Voice>, buckets: map<Locale, seq<Voice>>, limited: map<string, seq<string>>,
               outcome: Outcome<JavaException>)
      requires VersionFits(serverVersionInfo, serverVersionNo, serverCanStream)
      requires CacheSound(voiceExampleTextsLimitedDomain, "VOICE_EXAMPLE_TEXT")
      modifies this`serverVersionInfo, this`serverVersionNo, this`serverCanStream,
               this`voiceExampleTextsLimitedDomain, this`keyValuePairs, this`sent
      ensures VersionFits(serverVersionInfo, serverVersionNo, serverCanStream)
      ensures CacheSound(voiceExampleTextsLimitedDomain, "VOICE_EXAMPLE_TEXT")
      ensures buckets == ByLocale(voices) && TextsFetched(limited)
      ensures VoicesReadFrom(lines, NotOlderThan(KnownVersion(old(serverVersionNo)), "3.5.0"), voices, limited, outcome)
      ensures serverVersionNo == old(serverVersionNo) || serverVersionNo == KnownVersion(old(serverVersionNo))
      ensures Grows(old(voiceExampleTextsLimitedDomain), voiceExampleTextsLimitedDomain)
      ensures NewRequestsUse(old(sent), sent, {"VERSION", "VOICE_EXAMPLE_TEXT"})
    {
      voices, buckets, limited, outcome := [], map[], map[], Pass;
      ghost var version0 := serverVersionNo;
      ghost var newFormat := NotOlderThan(KnownVersion(version0), "3.5.0");
      ghost var cache0, sent0 := voiceExampleTextsLimitedDomain, sent;
      ghost var keys := {"VERSION", "VOICE_EXAMPLE_TEXT"};
      var i := 0;
      while i < |lines| && outcome.Pass?
        invariant 0 <= i <= |lines|
        invariant VoicesReadFrom(lines[..i], newFormat, voices, limited, outcome)
        invariant buckets == ByLocale(voices) && TextsFetched(limited)
        invariant serverVersionNo == version0 || serverVersionNo == KnownVersion(version0)
        invariant VersionFits(serverVersionInfo, serverVersionNo, serverCanStream)
        invariant CacheSound(voiceExampleTextsLimitedDomain, "VOICE_EXAMPLE_TEXT")
        invariant Grows(cache0, voiceExampleTextsLimitedDomain)
        invariant NewRequestsUse(sent0, sent, keys)
      {
        KnownVersionIdempotent(version0);
        ghost var sent1 := sent;
        ghost var voices0, limited0 := voices, limited;
        voices, buckets, limited, outcome := AddVoice(lines[i], voices, buckets, limited);
        RequestsChain(sent0, sent1, sent, keys, keys, keys);
        ReadStep(lines, i, newFormat, voices0, limited0, voices, limited, outcome);
        assert VoicesReadFrom(lines[..i + 1], newFormat, voices, limited, outcome);
        i := i + 1;
      }
      if outcome.Fail? {
        ReadRest(lines, i, newFormat, voices, limited, outcome.error);
      } else {
        assert lines[..i] == lines;
      }
    }

    /** One pass of the loop of `toVoices`: the line's voice, if it has one, joins the list
        and its locale's bucket and, for a limited-domain voice, gets its example texts. */
    method AddVoice(line: string, voices: seq<Voice>, buckets: map<Locale, seq<Voice>>,
                    limited: map<string, seq<string>>)
      returns (voices': seq<Voice>, buckets': map<Locale, seq<Voice>>, limited': map<string, seq<string>>,
               outcome: Outcome<JavaException>)
      requires VersionFits(serverVersionInfo, serverVersionNo, serverCanStream)
      requires CacheSound(voiceExampleTextsLimitedDomain, "VOICE_EXAMPLE_TEXT")
      requires buckets == ByLocale(voices) && TextsFetched(limited)
      modifies this`serverVersionInfo, this`serverVersionNo, this`serverCanStream,
               this`voiceExampleTextsLimitedDomain, this`keyValuePairs, this`sent
      ensures VersionFits(serverVersionInfo, serverVersionNo, serverCanStream)
      ensures CacheSound(voiceExampleTextsLimitedDomain, "VOICE_EXAMPLE_TEXT")
      ensures buckets' == ByLocale(voices') && TextsFetched(limited')
      ensures VoiceAdded(line, NotOlderThan(KnownVersion(old(serverVersionNo)), "3.5.0"), voices, voices',
                         limited, limited', outcome)
      ensures serverVersionNo == old(serverVersionNo) || serverVersionNo == KnownVersion(old(serverVersionNo))
      ensures Grows(old(voiceExampleTextsLimitedDomain), voiceExampleTextsLimitedDomain)
      ensures NewRequestsUse(old(sent), sent, {"VERSION", "VOICE_EXAMPLE_TEXT"})
    {
      voices', buckets', limited', outcome := voices, buckets, limited, Pass;
      ghost var sent0 := sent;
      var line := ReadVoiceLine(line);
      if line.Skipped? {
        return;
      }
      if line.BadLocale? {
        return voices, buckets, limited, Fail(NoSuchElementException);
      }
      var voice := line.voice;
      ByLocaleSnoc(voices, voice);
      voices' := voices + [voice];
      var localeVoices := if voice.locale in buckets then buckets[voice.locale] else [];
      buckets' := buckets[voice.locale := localeVoices + [voice]];
      if IsLimitedDomain(voice) {
        ghost var sent1 := sent;
        limited', outcome := AddExampleTexts(voice.name, limited);
        RequestsChain(sent0, sent1, sent, {"VERSION"}, {"VOICE_EXAMPLE_TEXT"}, {"VERSION", "VOICE_EXAMPLE_TEXT"});
      }
    }

    /** The example texts of a limited-domain voice, fetched once and kept split into
        sentences; an empty reply stops the reading. */
    method AddExampleTexts(voiceName: string, limited: map<string, seq<string>>)
      returns (limited': map<string, seq<string>>, outcome: Outcome<JavaException>)
      requires CacheSound(voiceExampleTextsLimitedDomain, "VOICE_EXAMPLE_TEXT")
      requires TextsFetched(limited)
      modifies this`voiceExampleTextsLimitedDomain, this`keyValuePairs, this`sent
      ensures CacheSound(voiceExampleTextsLimitedDomain, "VOICE_EXAMPLE_TEXT")
      ensures TextsFetched(limited')
      ensures outcome.Pass? <==> Answer("VOICE_EXAMPLE_TEXT", Some(voiceName)) != ""
      ensures outcome.Pass? ==> voiceName in limited' && limited' == limited[voiceName := limited'[voiceName]]
      ensures outcome.Pass? ==> limited'.Keys == limited.Keys + {voiceName}
      ensures outcome.Fail? ==> limited' == limited && outcome.error == IOException(ExampleTextMissing)
      ensures Grows(old(voiceExampleTextsLimitedDomain), voiceExampleTextsLimitedDomain)
      ensures NewRequestsUse(old(sent), sent, {"VOICE_EXAMPLE_TEXT"})
    {
      var exampleText := GetVoiceExampleTextLimitedDomain(voiceName);
      if exampleText.Failure? {
        return limited, Fail(exampleText.error);
      }
      limited', outcome := limited[voiceName := processVoiceExampleText(exampleText.value)], Pass;
    }

    /** The token loop of `toDataTypes`: whether any token after the name is "INPUT", and
        whether any is "OUTPUT". */
    method ScanTypeFlags(toks: seq<string>) returns (isInputType: bool, isOutputType: bool)
      requires |toks| > 0
      ensures isInputType <==> "INPUT" in toks[1..]
      ensures isOutputType <==> "OUTPUT" in toks[1..]
    {
      isInputType, isOutputType := false, false;
      var j := 1;
      while j < |toks|
        invariant 1 <= j <= |toks|
        invariant isInputType == ("INPUT" in toks[1..j])
        invariant isOutputType == ("OUTPUT" in toks[1..j])
      {
        assert toks[1..j + 1] == toks[1..j] + [toks[j]];
        if toks[j] == "INPUT" {
          isInputType := true;
        } else if toks[j] == "OUTPUT" {
          isOutputType := true;
        }
        j := j + 1;
      }
      assert toks[1..j] == toks[1..];
    }

    /** `toDataTypes(info)`: one data type per non-blank line, flagged by the INPUT and OUTPUT
        tokens after its name, and the input and output sub-lists in the same order. */
    method ToDataTypes(info: Option<string>)
      modifies this`allDataTypes, this`inputDataTypes, this`outputDataTypes
      ensures allDataTypes == DataTypesReply(info)
      ensures DataTypesCoherent()
    {
      allDataTypes := None;
      inputDataTypes := None;
      outputDataTypes := None;
      if info.Some? && |info.value| > 0 {
        var all, inputs, outputs := ReadDataTypes(JavaSplit(info.value, '\n'));
        allDataTypes := Some(all);
        inputDataTypes := Some(inputs);
        outputDataTypes := Some(outputs);
      }
    }

    /** The loop of `toDataTypes` over the lines of a non-empty reply: every data type, and
        the input and output types among them, in order. */
    method ReadDataTypes(lines: seq<string>) returns (all: seq<DataType>, inputs: seq<DataType>, outputs: seq<DataType>)
      ensures all == DataTypesOf(lines)
      ensures inputs == Filter(all, IsInput) && outputs == Filter(all, IsOutput)
    {
      all, inputs, outputs := [], [], [];
      var i := 0;
      while i < |lines|
        invariant 0 <= i <= |lines|
        invariant all == DataTypesOf(lines[..i])
        invariant inputs == Filter(all, IsInput) && outputs == Filter(all, IsOutput)
      {
        var parsed := ReadDataTypeLine(lines[i]);
        if parsed.Some? {
          var dt := parsed.value;
          DataTypesOfSnoc(lines, i, dt);
          FilterSnoc(all, dt, IsInput);
          FilterSnoc(all, dt, IsOutput);
          all := all + [dt];
          if dt.isInputType {
            inputs := inputs + [dt];
          }
          if dt.isOutputType {
            outputs := outputs + [dt];
          }
        } else {
          DataTypesOfSkip(lines, i);
        }
        i := i + 1;
      }
      assert lines[..i] == lines;
    }

    /** One line of `toDataTypes`: the name is the first token, and the type is an input or
        output type when a later token says so; a blank line gives nothing. */
    method ReadDataTypeLine(line: string) returns (r: Option<DataType>)
      ensures r == ParseDataTypeLine(line)
    {
      var toks := Tokenize(line, Whitespace);
      if |toks| == 0 {
        return None;
      }
      var isInputType, isOutputType := ScanTypeFlags(toks);
      r := Some(DataType(toks[0], isInputType, isOutputType));
    }

    /** The loop of `toAudioFileFormatAndOutTypes`: the supported entries in order, and for
        each its "_FILE" out-type, followed by "_STREAM" for MP3. */
    method SupportedFormats(entries: seq<string>) returns (kept: seq<string>, outs: seq<string>)
      ensures kept == SupportedEntries(entries, supported)
      ensures outs == OutTypesOf(kept)
    {
      kept, outs := [], [];
      var i := 0;
      while i < |entries|
        invariant 0 <= i <= |entries|
        invariant kept == SupportedEntries(entries[..i], supported)
        invariant outs == OutTypesOf(kept)
      {
        SupportedEntriesSnoc(entries, i, supported);
        var spaceInd := FirstIndex(entries[i], ' ');
        var typeName := entries[i][spaceInd + 1..];
        assert typeName == TypeName(entries[i]);
        if supported(typeName) {
          var added := FormatOutTypes(typeName);
          OutTypesOfSnoc(kept, entries[i]);
          kept := kept + [entries[i]];
          outs := outs + added;
        }
        i := i + 1;
      }
      assert entries[..i] == entries;
    }

    /** The out-types one supported format adds in that loop: "_FILE", then "_STREAM" for MP3. */
    method FormatOutTypes(typeName: string) returns (added: seq<string>)
      ensures added == OutTypesFor(typeName)
      ensures |added| == if typeName == "MP3" then 2 else 1
    {
      added := [typeName + "_FILE"];
      if typeName == "MP3" {
        added := added + [typeName + "_STREAM"];
      }
    }

    /** `toAudioFileFormatAndOutTypes(info)`: the supported "extension name" entries and their
        out-types; both lists stay absent until an entry is supported. */
    method ToAudioFileFormatAndOutTypes(info: Option<string>)
      modifies this`audioFileFormatTypes, this`audioOutTypes
      ensures var entries := if HasText(info) then toStringArray(info.value) else [];
        audioFileFormatTypes == FormatsReply(entries, supported)
      ensures AudioTypesCoherent()
    {
      var allTypes: Option<seq<string>> := None;
      if info.Some? && |info.value| > 0 {
        allTypes := Some(toStringArray(info.value));
      }
      // The Java vectors are created with their first element: an empty `kept` stands for null.
      var kept: seq<string> := [];
      var outs: seq<string> := [];
      if allTypes.Some? {
        kept, outs := SupportedFormats(allTypes.value);
      }
      if kept == [] {
        audioFileFormatTypes := None;
        audioOutTypes := None;
      } else {
        audioFileFormatTypes := Some(kept);
        audioOutTypes := Some(outs);
      }
    }

    // ------------------------------------------------------------ lazy getters

    /** `fillVoices`: `toVoices` on the VOICES reply. */
    method FillVoices() returns (outcome: Outcome<JavaException>)
      requires VersionFits(serverVersionInfo, serverVersionNo, serverCanStream)
      requires CacheSound(voiceExampleTextsLimitedDomain, "VOICE_EXAMPLE_TEXT")
      modifies this`allVoices, this`voicesByLocaleMap, this`limitedDomainVoices,
               this`serverVersionInfo, this`serverVersionNo, this`serverCanStream,
               this`voiceExampleTextsLimitedDomain, this`keyValuePairs, this`sent
      ensures VersionFits(serverVersionInfo, serverVersionNo, serverCanStream)
      ensures CacheSound(voiceExampleTextsLimitedDomain, "VOICE_EXAMPLE_TEXT") && VoicesCoherent()
      ensures VoicesFilled(Some(Answer("VOICES", None)), NotOlderThan(KnownVersion(old(serverVersionNo)), "3.5.0"),
                           allVoices, limitedDomainVoices, outcome)
      ensures serverVersionNo == old(serverVersionNo) || serverVersionNo == KnownVersion(old(serverVersionNo))
      ensures Grows(old(voiceExampleTextsLimitedDomain), voiceExampleTextsLimitedDomain)
      ensures NewRequestsUse(old(sent) + [KeyQuery("VOICES", Query(None))], sent, {"VERSION", "VOICE_EXAMPLE_TEXT"})
    {
      var info := GetFromServer("VOICES", None);
      outcome := ToVoices(Some(info));
    }

    /** `getVoices()`: the voice list, read from the server only while there is none. */
    method GetVoices() returns (r: Result<Option<seq<Voice>>, JavaException>)
      requires VersionFits(serverVersionInfo, serverVersionNo, serverCanStream)
      requires CacheSound(voiceExampleTextsLimitedDomain, "VOICE_EXAMPLE_TEXT") && VoicesCoherent()
      modifies this`allVoices, this`voicesByLocaleMap, this`limitedDomainVoices,
               this`serverVersionInfo, this`serverVersionNo, this`serverCanStream,
               this`voiceExampleTextsLimitedDomain, this`keyValuePairs, this`sent
      ensures VersionFits(serverVersionInfo, serverVersionNo, serverCanStream)
      ensures CacheSound(voiceExampleTextsLimitedDomain, "VOICE_EXAMPLE_TEXT") && VoicesCoherent()
      ensures r.Success? ==> r.value == allVoices
      ensures old(allVoices).Some? ==> r == Success(old(allVoices)) && unchanged(this)
      ensures old(allVoices).None? ==>
        VoicesFilled(Some(Answer("VOICES", None)), NotOlderThan(KnownVersion(old(serverVersionNo)), "3.5.0"),
                     allVoices, limitedDomainVoices, if r.Success? then Pass else Fail(r.error))
      ensures serverVersionNo == old(serverVersionNo) || serverVersionNo == KnownVersion(old(serverVersionNo))
    {
      if allVoices.None? {
        var outcome := FillVoices();
        if outcome.Fail? {
          return Failure(outcome.error);
        }
      }
      r := Success(allVoices);
    }

    /** `getVoices(locale)`: the bucket of `locale`, or none when no voice has it. Without a
        voice list the map is null and the lookup throws. */
    method GetVoicesOfLocale(locale: Locale) returns (r: Result<Option<seq<Voice>>, JavaException>)
      requires VersionFits(serverVersionInfo, serverVersionNo, serverCanStream)
      requires CacheSound(voiceExampleTextsLimitedDomain, "VOICE_EXAMPLE_TEXT") && VoicesCoherent()
      modifies this`allVoices, this`voicesByLocaleMap, this`limitedDomainVoices,
               this`serverVersionInfo, this`serverVersionNo, this`serverCanStream,
               this`voiceExampleTextsLimitedDomain, this`keyValuePairs, this`sent
      ensures VersionFits(serverVersionInfo, serverVersionNo, serverCanStream)
      ensures CacheSound(voiceExampleTextsLimitedDomain, "VOICE_EXAMPLE_TEXT") && VoicesCoherent()
      ensures r.Success? ==>
        && allVoices.Some?
        && (r.value.Some? <==> exists v :: v in allVoices.value && v.locale == locale)
        && (r.value.Some? ==> r.value.value == Filter(allVoices.value, LocaleIs(locale)))
      ensures r.Failure? ==> old(allVoices).None? && (r.error == NullPointerException <==> allVoices.None?)
      ensures old(allVoices).Some? ==> unchanged(this)
      ensures old(allVoices).None? ==>
        VoicesFilled(Some(Answer("VOICES", None)), NotOlderThan(KnownVersion(old(serverVersionNo)), "3.5.0"),
                     allVoices, limitedDomainVoices,
                     if r.Failure? && r.error != NullPointerException then Fail(r.error) else Pass)
      ensures serverVersionNo == old(serverVersionNo) || serverVersionNo == KnownVersion(old(serverVersionNo))
    {
      if allVoices.None? {
        var outcome := FillVoices();
        if outcome.Fail? {
          return Failure(outcome.error);
        }
      }
      if voicesByLocaleMap.None? {
        return Failure(NullPointerException);
      }
      ByLocaleBuckets(allVoices.value, locale);
      if locale in voicesByLocaleMap.value {
        r := Success(Some(voicesByLocaleMap.value[locale]));
      } else {
        r := Success(None);
      }
    }

    /** `getGeneralDomainVoices()` (`limited` false) and `getLimitedDomainVoices()` (`limited`
        true): the voices of that kind, none when there are none; iterating a null voice list
        throws. */
    method GetDomainVoices(limited: bool) returns (r: Result<Option<seq<Voice>>, JavaException>)
      requires VersionFits(serverVersionInfo, serverVersionNo, serverCanStream)
      requires CacheSound(voiceExampleTextsLimitedDomain, "VOICE_EXAMPLE_TEXT") && VoicesCoherent()
      modifies this`allVoices, this`voicesByLocaleMap, this`limitedDomainVoices,
               this`serverVersionInfo, this`serverVersionNo, this`serverCanStream,
               this`voiceExampleTextsLimitedDomain, this`keyValuePairs, this`sent
      ensures VersionFits(serverVersionInfo, serverVersionNo, serverCanStream)
      ensures CacheSound(voiceExampleTextsLimitedDomain, "VOICE_EXAMPLE_TEXT") && VoicesCoherent()
      ensures r.Success? ==> allVoices.Some? && r.value == DomainVoices(allVoices.value, limited)
      ensures r.Failure? ==> old(allVoices).None? && (r.error == NullPointerException <==> allVoices.None?)
      ensures old(allVoices).Some? ==> unchanged(this)
      ensures old(allVoices).None? ==>
        VoicesFilled(Some(Answer("VOICES", None)), NotOlderThan(KnownVersion(old(serverVersionNo)), "3.5.0"),
                     allVoices, limitedDomainVoices,
                     if r.Failure? && r.error != NullPointerException then Fail(r.error) else Pass)
      ensures serverVersionNo == old(serverVersionNo) || serverVersionNo == KnownVersion(old(serverVersionNo))
    {
      var voices := GetVoices();
      if voices.Failure? {
        return Failure(voices.error);
      }
      if voices.value.None? {
        return Failure(NullPointerException);
      }
      var kept := FilterDomain(voices.value.value, limited);
      r := Success(kept);
    }

    /** `getGeneralDomainVoices(locale)` and `getLimitedDomainVoices(locale)`: the voices of that
        kind within the bucket of `locale`. A locale without voices has a null bucket, and
        iterating it throws. */
    method GetDomainVoicesOfLocale(locale: Locale, limited: bool) returns (r: Result<Option<seq<Voice>>, JavaException>)
      requires VersionFits(serverVersionInfo, serverVersionNo, serverCanStream)
      requires CacheSound(voiceExampleTextsLimitedDomain, "VOICE_EXAMPLE_TEXT") && VoicesCoherent()
      modifies this`allVoices, this`voicesByLocaleMap, this`limitedDomainVoices,
               this`serverVersionInfo, this`serverVersionNo, this`serverCanStream,
               this`voiceExampleTextsLimitedDomain, this`keyValuePairs, this`sent
      ensures VersionFits(serverVersionInfo, serverVersionNo, serverCanStream)
      ensures CacheSound(voiceExampleTextsLimitedDomain, "VOICE_EXAMPLE_TEXT") && VoicesCoherent()
      ensures r.Success? ==>
        allVoices.Some? && r.value == DomainVoices(Filter(allVoices.value, LocaleIs(locale)), limited)
      ensures r.Failure? && r.error != NullPointerException ==> old(allVoices).None?
      ensures r.Success? || r.error == NullPointerException ==>
        (r.Success? <==> allVoices.Some? && exists v :: v in allVoices.value && v.locale == locale)
      ensures old(allVoices).Some? ==> unchanged(this)
      ensures old(allVoices).None? ==>
        VoicesFilled(Some(Answer("VOICES", None)), NotOlderThan(KnownVersion(old(serverVersionNo)), "3.5.0"),
                     allVoices, limitedDomainVoices,
                     if r.Failure? && r.error != NullPointerException then Fail(r.error) else Pass)
      ensures serverVersionNo == old(serverVersionNo) || serverVersionNo == KnownVersion(old(serverVersionNo))
    {
      var voices := GetVoicesOfLocale(locale);
      if voices.Failure? {
        return Failure(voices.error);
      }
      if voices.value.None? {
        return Failure(NullPointerException);
      }
      var kept := FilterDomain(voices.value.value, limited);
      r := Success(kept);
    }

    /** `fillDataTypes`: `toDataTypes` on the DATA_TYPES reply. */
    method FillDataTypes()
      modifies this`allDataTypes, this`inputDataTypes, this`outputDataTypes, this`keyValuePairs, this`sent
      ensures allDataTypes == DataTypesReply(Some(Answer("DATA_TYPES", None))) && DataTypesCoherent()
      ensures keyValuePairs == Some(old(keyValuePairs).GetOr(map[])["DATA_TYPES" := Answer("DATA_TYPES", None)])
      ensures sent == old(sent) + [KeyQuery("DATA_TYPES", Query(None))]
    {
      var info := GetFromServer("DATA_TYPES", None);
      ToDataTypes(Some(info));
    }

    /** `getAllDataTypes`: the data types, read from the server only while there are none. */
    method GetAllDataTypes() returns (r: Option<seq<DataType>>)
      requires DataTypesCoherent()
      modifies this`allDataTypes, this`inputDataTypes, this`outputDataTypes, this`keyValuePairs, this`sent
      ensures DataTypesCoherent() && r == allDataTypes
      ensures old(allDataTypes).Some? ==> unchanged(this)
      ensures old(allDataTypes).None? ==>
        r == DataTypesReply(Some(Answer("DATA_TYPES", None))) && sent == old(sent) + [KeyQuery("DATA_TYPES", Query(None))]
    {
      if allDataTypes.None? {
        FillDataTypes();
      }
      r := allDataTypes;
    }

    /** `getInputDataTypes`: the input data types, read from the server only while unknown. */
    method GetInputDataTypes() returns (r: Option<seq<DataType>>)
      requires DataTypesCoherent()
      modifies this`allDataTypes, this`inputDataTypes, this`outputDataTypes, this`keyValuePairs, this`sent
      ensures DataTypesCoherent() && r == inputDataTypes
      ensures old(inputDataTypes).Some? ==> unchanged(this)
      ensures old(inputDataTypes).None? ==>
        allDataTypes == DataTypesReply(Some(Answer("DATA_TYPES", None))) && sent == old(sent) + [KeyQuery("DATA_TYPES", Query(None))]
    {
      if inputDataTypes.None? {
        FillDataTypes();
      }
      r := inputDataTypes;
    }

    /** `getOutputDataTypes`: the output data types, read from the server only while unknown. */
    method GetOutputDataTypes() returns (r: Option<seq<DataType>>)
      requires DataTypesCoherent()
      modifies this`allDataTypes, this`inputDataTypes, this`outputDataTypes, this`keyValuePairs, this`sent
      ensures DataTypesCoherent() && r == outputDataTypes
      ensures old(outputDataTypes).Some? ==> unchanged(this)
      ensures old(outputDataTypes).None? ==>
        allDataTypes == DataTypesReply(Some(Answer("DATA_TYPES", None))) && sent == old(sent) + [KeyQuery("DATA_TYPES", Query(None))]
    {
      if outputDataTypes.None? {
        FillDataTypes();
      }
      r := outputDataTypes;
    }

    /** `fillAudioFileFormatAndOutTypes`: reads the formats while either list is unknown; a
        server none of whose formats is supported is asked again on every call. */
    method FillAudioFileFormatAndOutTypes()
      requires AudioTypesCoherent()
      modifies this`audioFileFormatTypes, this`audioOutTypes, this`keyValuePairs, this`sent
      ensures AudioTypesCoherent()
      ensures old(audioFileFormatTypes).Some? ==> unchanged(this)
      ensures old(audioFileFormatTypes).None? ==>
        var reply := Answer("AUDIO_FILE_FORMAT_TYPES", None);
        && audioFileFormatTypes == FormatsReply(if reply == "" then [] else toStringArray(reply), supported)
        && sent == old(sent) + [KeyQuery("AUDIO_FILE_FORMAT_TYPES", Query(None))]
    {
      if audioFileFormatTypes.None? || audioOutTypes.None? {
        var info := GetFromServer("AUDIO_FILE_FORMAT_TYPES", None);
        ToAudioFileFormatAndOutTypes(Some(info));
      }
    }

    /** `getAudioFileFormatTypes`. */
    method GetAudioFileFormatTypes() returns (r: Option<seq<string>>)
      requires AudioTypesCoherent()
      modifies this`audioFileFormatTypes, this`audioOutTypes, this`keyValuePairs, this`sent
      ensures AudioTypesCoherent() && r == audioFileFormatTypes
      ensures old(audioFileFormatTypes).Some? ==> unchanged(this)
      ensures old(audioFileFormatTypes).None? ==>
        var reply := Answer("AUDIO_FILE_FORMAT_TYPES", None);
        && r == FormatsReply(if reply == "" then [] else toStringArray(reply), supported)
        && sent == old(sent) + [KeyQuery("AUDIO_FILE_FORMAT_TYPES", Query(None))]
    {
      FillAudioFileFormatAndOutTypes();
      r := audioFileFormatTypes;
    }

    /** `getAudioOutTypes`: never empty when known, and in step with the formats. */
    method GetAudioOutTypes() returns (r: Option<seq<string>>)
      requires AudioTypesCoherent()
      modifies this`audioFileFormatTypes, this`audioOutTypes, this`keyValuePairs, this`sent
      ensures AudioTypesCoherent() && r == audioOutTypes
      ensures r.Some? ==> audioFileFormatTypes.Some? && r.value == OutTypesOf(audioFileFormatTypes.value)
      ensures old(audioFileFormatTypes).Some? ==> unchanged(this)
      ensures old(audioFileFormatTypes).None? ==>
        var reply := Answer("AUDIO_FILE_FORMAT_TYPES", None);
        && audioFileFormatTypes == FormatsReply(if reply == "" then [] else toStringArray(reply), supported)
        && sent == old(sent) + [KeyQuery("AUDIO_FILE_FORMAT_TYPES", Query(None))]
    {
      FillAudioFileFormatAndOutTypes();
      r := audioOutTypes;
    }

    // ------------------------------------------------------------ selections

    /** `checkAndCorrectSelections`: each index clamped into its list; the lists must be known. */
    method CheckAndCorrectSelections()
      requires audioFileFormatTypes.Some? && audioOutTypes.Some? && inputDataTypes.Some?
      requires outputDataTypes.Some? && allVoices.Some?
      modifies this`audioFormatSelected, this`audioOutSelected, this`inputTypeSelected,
               this`outputTypeSelected, this`voiceSelected
      ensures audioFormatSelected == CheckLimits(old(audioFormatSelected), 0, |audioFileFormatTypes.value| - 1)
      ensures audioOutSelected == CheckLimits(old(audioOutSelected), 0, |audioOutTypes.value| - 1)
      ensures inputTypeSelected == CheckLimits(old(inputTypeSelected), 0, |inputDataTypes.value| - 1)
      ensures outputTypeSelected == CheckLimits(old(outputTypeSelected), 0, |outputDataTypes.value| - 1)
      ensures voiceSelected == CheckLimits(old(voiceSelected), 0, |allVoices.value| - 1)
      ensures SelectionsInRange(audioFileFormatTypes.value, audioOutTypes.value, inputDataTypes.value,
                                outputDataTypes.value, allVoices.value, audioFormatSelected, audioOutSelected,
                                inputTypeSelected, outputTypeSelected, voiceSelected)
    {
      audioFormatSelected := CheckLimits(audioFormatSelected, 0, |audioFileFormatTypes.value| - 1);
      audioOutSelected := CheckLimits(audioOutSelected, 0, |audioOutTypes.value| - 1);
      inputTypeSelected := CheckLimits(inputTypeSelected, 0, |inputDataTypes.value| - 1);
      outputTypeSelected := CheckLimits(outputTypeSelected, 0, |outputDataTypes.value| - 1);
      voiceSelected := CheckLimits(voiceSelected, 0, |allVoices.value| - 1);
    }

    /** The fields `toSelections` resets before it reads the map. `audioOutSelected` is not
        among them. */
    method ResetSelections(keyValuePairsIn: Option<map<string, string>>)
      modifies this`keyValuePairs, this`inputTypeSelected, this`inputText, this`outputTypeSelected,
               this`isOutputText, this`outputText, this`audioFormatSelected, this`voiceSelected,
               this`limitedDomainExampleTextSelected
      ensures keyValuePairs == keyValuePairsIn
      ensures inputTypeSelected == 0 && inputText == "" && outputTypeSelected == DefaultOutputIndex(outputDataTypes)
      ensures !isOutputText && outputText == "" && audioFormatSelected == 0 && voiceSelected == 0
      ensures limitedDomainExampleTextSelected == 0
    {
      keyValuePairs := keyValuePairsIn;
      inputTypeSelected := 0;
      inputText := "";
      if outputDataTypes.Some? && |outputDataTypes.value| > 0 {
        outputTypeSelected := |outputDataTypes.value| - 1;
      } else {
        outputTypeSelected := 0;
      }
      isOutputText := false;
      outputText := "";
      audioFormatSelected := 0;
      voiceSelected := 0;
      limitedDomainExampleTextSelected := 0;
    }

    /** The effect controls `toSelections` works on: built, when there are none, from the line
        break and the effect description, each fetched first while unknown. */
    method EnsureEffectsBox()
      modifies this`effectsBoxData, this`audioEffects, this`audioEffectsHelpTextLineBreak,
               this`keyValuePairs, this`sent
      ensures effectsBoxData == Some(BoxMade(old(effectsBoxData), old(audioEffectsHelpTextLineBreak), old(audioEffects)))
      ensures EffectTextsMade(old(effectsBoxData), old(audioEffectsHelpTextLineBreak), old(audioEffects))
      ensures old(effectsBoxData).Some? ==> keyValuePairs == old(keyValuePairs) && sent == old(sent)
      ensures OnlyKeysChanged(old(keyValuePairs), keyValuePairs, SelectionFetchKeys)
      ensures keyValuePairs.Some? <==>
        MapAfterEffectsBox(old(keyValuePairs), old(effectsBoxData), old(audioEffectsHelpTextLineBreak), old(audioEffects))
      ensures NewRequestsUse(old(sent), sent, SelectionFetchKeys)
    {
      if effectsBoxData.None? {
        ghost var kv0 := keyValuePairs;
        if audioEffectsHelpTextLineBreak.None? {
          var lineBreak := GetAudioEffectHelpTextLineBreak();
        }
        ghost var kv1 := keyValuePairs;
        assert OnlyKeysChanged(kv0, kv1, SelectionFetchKeys);
        if audioEffects.None? {
          var effects := GetAudioEffects();
        }
        assert OnlyKeysChanged(kv1, keyValuePairs, SelectionFetchKeys);
        effectsBoxData := Some(effectsFromText(audioEffects.value, audioEffectsHelpTextLineBreak));
      }
    }

    /** The INPUT_TYPE, OUTPUT_TYPE and VOICE searches of `toSelections`. */
    method SelectTypesAndVoice(kv: map<string, string>) returns (outcome: Outcome<JavaException>)
      requires inputTypeSelected == 0 && outputTypeSelected == DefaultOutputIndex(outputDataTypes)
      requires voiceSelected == 0 && !isOutputText
      modifies this`inputTypeSelected, this`outputTypeSelected, this`isOutputText, this`voiceSelected
      ensures var r := TypesAndVoice(Lookup(Some(kv), "INPUT_TYPE"), Lookup(Some(kv), "OUTPUT_TYPE"),
                                     Lookup(Some(kv), "VOICE"), inputDataTypes, outputDataTypes, allVoices);
        && outcome == OutcomeOf(r)
        && (r.Success? ==> r.value == (inputTypeSelected, outputTypeSelected, voiceSelected, isOutputText))
    {
      outcome := Pass;
      if "INPUT_TYPE" in kv {
        if inputDataTypes.None? {
          return Fail(NullPointerException);
        }
        inputTypeSelected := SelectAmong(Names(inputDataTypes.value), kv["INPUT_TYPE"], inputTypeSelected);
      }
      if "OUTPUT_TYPE" in kv {
        if outputDataTypes.None? {
          return Fail(NullPointerException);
        }
        outputTypeSelected := SelectAmong(Names(outputDataTypes.value), kv["OUTPUT_TYPE"], outputTypeSelected);
        if !(0 <= outputTypeSelected < |outputDataTypes.value|) {
          return Fail(IndexOutOfBoundsException);
        }
        isOutputText := !Contains(outputDataTypes.value[outputTypeSelected].name, "AUDIO");
      }
      if "VOICE" in kv {
        if allVoices.None? {
          return Fail(NullPointerException);
        }
        voiceSelected := SelectAmong(VoiceNames(allVoices.value), kv["VOICE"], voiceSelected);
      }
    }

    /** The example texts of the selected voice when it is limited-domain: the caller's
        default texts, else the server's; then the "exampletext" search when there is a map. */
    method SelectExampleTexts(kv: Option<map<string, string>>, defaultVoiceExampleTexts: Option<seq<string>>)
      returns (outcome: Outcome<JavaException>)
      requires CacheSound(voiceExampleTextsLimitedDomain, "VOICE_EXAMPLE_TEXT")
      requires limitedDomainExampleTextSelected == 0
      modifies this`limitedDomainExampleTexts, this`limitedDomainExampleTextSelected,
               this`voiceExampleTextsLimitedDomain, this`keyValuePairs, this`sent
      ensures CacheSound(voiceExampleTextsLimitedDomain, "VOICE_EXAMPLE_TEXT")
      ensures Grows(old(voiceExampleTextsLimitedDomain), voiceExampleTextsLimitedDomain)
      ensures var r := ExampleTexts(Lookup(kv, "exampletext"), defaultVoiceExampleTexts, allVoices, voiceSelected,
                                    old(limitedDomainExampleTexts));
        && outcome == OutcomeOf(r)
        && (r.Success? ==> r.value == (limitedDomainExampleTexts, limitedDomainExampleTextSelected))
      ensures OnlyKeysChanged(old(keyValuePairs), keyValuePairs, {"VOICE_EXAMPLE_TEXT"})
      ensures old(keyValuePairs).Some? ==> keyValuePairs.Some?
      ensures NewRequestsUse(old(sent), sent, {"VOICE_EXAMPLE_TEXT"})
    {
      outcome := Pass;
      if allVoices.Some? && |allVoices.value| > 0 {
        if !(0 <= voiceSelected < |allVoices.value|) {
          outcome := Fail(IndexOutOfBoundsException);
        } else if IsLimitedDomain(allVoices.value[voiceSelected]) {
          var texts := FetchVoiceExampleTexts(allVoices.value[voiceSelected].name, defaultVoiceExampleTexts);
          match texts
          case Failure(e) =>
            outcome := Fail(e);
          case Success(t) =>
            limitedDomainExampleTexts := Some(t);
            if kv.Some? && "exampletext" in kv.value {
              limitedDomainExampleTextSelected := SelectAmong(t, kv.value["exampletext"], limitedDomainExampleTextSelected);
            }
        }
      }
    }

    /** The default texts when the caller gave some, else the server's for `voiceName`. */
    method FetchVoiceExampleTexts(voiceName: string, defaultVoiceExampleTexts: Option<seq<string>>)
      returns (r: Result<seq<string>, JavaException>)
      requires CacheSound(voiceExampleTextsLimitedDomain, "VOICE_EXAMPLE_TEXT")
      modifies this`voiceExampleTextsLimitedDomain, this`keyValuePairs, this`sent
      ensures CacheSound(voiceExampleTextsLimitedDomain, "VOICE_EXAMPLE_TEXT")
      ensures Grows(old(voiceExampleTextsLimitedDomain), voiceExampleTextsLimitedDomain)
      ensures r == VoiceExampleTexts(voiceName, defaultVoiceExampleTexts)
      ensures OnlyKeysChanged(old(keyValuePairs), keyValuePairs, {"VOICE_EXAMPLE_TEXT"})
      ensures old(keyValuePairs).Some? ==> keyValuePairs.Some?
      ensures NewRequestsUse(old(sent), sent, {"VOICE_EXAMPLE_TEXT"})
    {
      if defaultVoiceExampleTexts.None? {
        r := GetVoiceExampleTextsLimitedDomain(voiceName);
      } else {
        r := Success(defaultVoiceExampleTexts.value);
      }
    }

    /** The input text: the INPUT_TEXT value, else, when there are voices and input types, the
        selected example text of a limited-domain voice or the server's example text for the
        selected input type and the voice's locale. */
    method SelectInputText(kv: Option<map<string, string>>) returns (outcome: Outcome<JavaException>)
      requires CacheSound(serverExampleTexts, "EXAMPLE_TEXT")
      requires inputText == ""
      modifies this`inputText, this`serverExampleTexts, this`currentExampleText, this`keyValuePairs, this`sent
      ensures CacheSound(serverExampleTexts, "EXAMPLE_TEXT")
      ensures Grows(old(serverExampleTexts), serverExampleTexts)
      ensures var r := InputText(Lookup(kv, "INPUT_TEXT"), allVoices, inputDataTypes, voiceSelected, inputTypeSelected,
                                 limitedDomainExampleTexts, limitedDomainExampleTextSelected);
        outcome == OutcomeOf(r) && (r.Success? ==> inputText == r.value)
      ensures OnlyKeysChanged(old(keyValuePairs), keyValuePairs, {"EXAMPLE_TEXT"})
      ensures old(keyValuePairs).Some? ==> keyValuePairs.Some?
      ensures NewRequestsUse(old(sent), sent, {"EXAMPLE_TEXT"})
    {
      outcome := Pass;
      if kv.Some? && "INPUT_TEXT" in kv.value {
        inputText := kv.value["INPUT_TEXT"];
      } else if allVoices.Some? && |allVoices.value| > 0 && inputDataTypes.Some? && |inputDataTypes.value| > 0 {
        if !(0 <= voiceSelected < |allVoices.value|) {
          outcome := Fail(IndexOutOfBoundsException);
        } else {
          var text := FetchDefaultInputText(allVoices.value[voiceSelected], inputDataTypes.value, inputTypeSelected);
          match text
          case Success(t) => inputText := t;
          case Failure(e) => outcome := Fail(e);
        }
      }
    }

    /** The fallback input text of `toSelections` for the selected voice and input type. */
    method FetchDefaultInputText(voice: Voice, inputs: seq<DataType>, inputIndex: int)
      returns (r: Result<string, JavaException>)
      requires CacheSound(serverExampleTexts, "EXAMPLE_TEXT")
      modifies this`serverExampleTexts, this`currentExampleText, this`keyValuePairs, this`sent
      ensures CacheSound(serverExampleTexts, "EXAMPLE_TEXT")
      ensures Grows(old(serverExampleTexts), serverExampleTexts)
      ensures r == DefaultInputText(voice, inputs, inputIndex, limitedDomainExampleTexts, limitedDomainExampleTextSelected)
      ensures OnlyKeysChanged(old(keyValuePairs), keyValuePairs, {"EXAMPLE_TEXT"})
      ensures old(keyValuePairs).Some? ==> keyValuePairs.Some?
      ensures NewRequestsUse(old(sent), sent, {"EXAMPLE_TEXT"})
    {
      if IsLimitedDomain(voice) {
        if limitedDomainExampleTexts.None? {
          r := Failure(NullPointerException);
        } else if 0 <= limitedDomainExampleTextSelected < |limitedDomainExampleTexts.value| {
          r := Success(limitedDomainExampleTexts.value[limitedDomainExampleTextSelected]);
        } else {
          r := Failure(IndexOutOfBoundsException);
        }
      } else if !(0 <= inputIndex < |inputs|) {
        r := Failure(IndexOutOfBoundsException);
      } else {
        r := GetServerExampleText(inputs[inputIndex].name, LocaleString(voice.locale));
      }
    }

    /** The AUDIO_OUT searches: the format whose type name is the whole value, and the equal
        out-type. The text after the first '_' of the value is computed by the code and never
        used, so it is not modelled. */
    method SelectAudioOut(kv: map<string, string>) returns (outcome: Outcome<JavaException>)
      requires audioFormatSelected == 0
      modifies this`audioFormatSelected, this`audioOutSelected
      ensures var r := AudioOut(Lookup(Some(kv), "AUDIO_OUT"), audioFileFormatTypes, audioOutTypes, old(audioOutSelected));
        outcome == OutcomeOf(r) && (r.Success? ==> r.value == (audioFormatSelected, audioOutSelected))
    {
      outcome := Pass;
      if "AUDIO_OUT" in kv {
        var selected := kv["AUDIO_OUT"];
        if audioFileFormatTypes.None? {
          return Fail(NullPointerException);
        }
        audioFormatSelected := SelectAmong(TypeNames(audioFileFormatTypes.value), selected, audioFormatSelected);
        if audioOutTypes.None? {
          return Fail(NullPointerException);
        }
        audioOutSelected := SelectAmong(audioOutTypes.value, selected, audioOutSelected);
      }
    }

    /** The effect loop of `toSelections`, switching each control in place from the request
        map. */
    method ApplyEffectSelections()
      requires effectsBoxData.Some? && keyValuePairs.Some?
      modifies this`effectsBoxData
      ensures effectsBoxData == Some(ApplyEffects(old(effectsBoxData).value, keyValuePairs.value))
    {
      var box := effectsBoxData.value;
      var kv := keyValuePairs.value;
      ghost var box0 := box;
      var i := 0;
      while i < |box|
        invariant 0 <= i <= |box| == |box0|
        invariant forall j :: 0 <= j < i ==> box[j] == ApplyEffect(box0[j], kv)
        invariant forall j :: i <= j < |box| ==> box[j] == box0[j]
      {
        var name := box[i].name;
        var selected := SelectedKey(name) in kv && kv[SelectedKey(name)] == "on";
        box := box[i := box[i].(selected := selected)];
        if ParametersKey(name) in kv {
          box := box[i := box[i].(params := kv[ParametersKey(name)])];
        } else {
          box := box[i := box[i].(params := box[i].exampleParams)];
        }
        i := i + 1;
      }
      assert box == ApplyEffects(box0, kv) by {
        forall j | 0 <= j < |box|
          ensures box[j] == ApplyEffects(box0, kv)[j]
        {
        }
      }
      effectsBoxData := Some(box);
    }

    /** The rest of `toSelections` when it has a map to search (`searched`): OUTPUT_TEXT for a
        text output and the AUDIO_OUT searches, looked up in `kv`, then the effect loop over
        the live map. */
    method SelectOutputsAndEffects(kv: Option<map<string, string>>, searched: bool)
      returns (outcome: Outcome<JavaException>)
      requires searched ==> keyValuePairs.Some?
      requires outputText == "" && audioFormatSelected == 0 && effectsBoxData.Some?
      modifies this`outputText, this`audioFormatSelected, this`audioOutSelected, this`effectsBoxData
      ensures !searched ==>
        && outcome.Pass? && outputText == "" && audioFormatSelected == 0
        && audioOutSelected == old(audioOutSelected) && effectsBoxData == old(effectsBoxData)
      ensures searched ==>
        var r := AudioOut(Lookup(kv, "AUDIO_OUT"), audioFileFormatTypes, audioOutTypes, old(audioOutSelected));
        outcome == OutcomeOf(r) && (r.Success? ==> r.value == (audioFormatSelected, audioOutSelected))
      ensures searched && outcome.Pass? ==>
        var given := Lookup(kv, "OUTPUT_TEXT");
        outputText == if isOutputText && given.Some? then given.value else ""
      ensures searched && outcome.Pass? ==>
        effectsBoxData == Some(ApplyEffects(old(effectsBoxData).value, keyValuePairs.value))
    {
      outcome := Pass;
      if searched {
        outcome := SelectOutputs(kv);
        if outcome.Pass? {
          ApplyEffectSelections();
        }
      }
    }

    /** OUTPUT_TEXT for a text output and the AUDIO_OUT searches, looked up in `kv`. */
    method SelectOutputs(kv: Option<map<string, string>>) returns (outcome: Outcome<JavaException>)
      requires outputText == "" && audioFormatSelected == 0
      modifies this`outputText, this`audioFormatSelected, this`audioOutSelected
      ensures var r := AudioOut(Lookup(kv, "AUDIO_OUT"), audioFileFormatTypes, audioOutTypes, old(audioOutSelected));
        outcome == OutcomeOf(r) && (r.Success? ==> r.value == (audioFormatSelected, audioOutSelected))
      ensures outcome.Pass? ==>
        var given := Lookup(kv, "OUTPUT_TEXT");
        outputText == if isOutputText && given.Some? then given.value else ""
    {
      outcome := Pass;
      if kv.Some? {
        if isOutputText && "OUTPUT_TEXT" in kv.value {
          outputText := kv.value["OUTPUT_TEXT"];
        }
        outcome := SelectAudioOut(kv.value);
      }
    }

    /** The start of `toSelections`: the map and the selections reset, and effect controls
        made when there are none. */
    method PrepareSelections(keyValuePairsIn: Option<map<string, string>>)
      modifies this`keyValuePairs, this`inputTypeSelected, this`inputText, this`outputTypeSelected,
               this`isOutputText, this`outputText, this`audioFormatSelected, this`voiceSelected,
               this`limitedDomainExampleTextSelected,
               this`effectsBoxData, this`audioEffects, this`audioEffectsHelpTextLineBreak, this`sent
      ensures inputTypeSelected == 0 && inputText == "" && outputTypeSelected == DefaultOutputIndex(outputDataTypes)
      ensures !isOutputText && outputText == "" && audioFormatSelected == 0 && voiceSelected == 0
      ensures limitedDomainExampleTextSelected == 0
      ensures effectsBoxData == Some(BoxMade(old(effectsBoxData), old(audioEffectsHelpTextLineBreak), old(audioEffects)))
      ensures EffectTextsMade(old(effectsBoxData), old(audioEffectsHelpTextLineBreak), old(audioEffects))
      ensures OnlyKeysChanged(keyValuePairsIn, keyValuePairs, SelectionFetchKeys)
      ensures keyValuePairs.Some? <==>
        MapAfterEffectsBox(keyValuePairsIn, old(effectsBoxData), old(audioEffectsHelpTextLineBreak), old(audioEffects))
      ensures NewRequestsUse(old(sent), sent, SelectionFetchKeys)
    {
      ResetSelections(keyValuePairsIn);
      EnsureEffectsBox();
    }

    /** The type, voice and example-text searches of `toSelections`. */
    method SearchTypesAndExamples(kv: Option<map<string, string>>, defaultVoiceExampleTexts: Option<seq<string>>)
      returns (outcome: Outcome<JavaException>)
      requires CacheSound(voiceExampleTextsLimitedDomain, "VOICE_EXAMPLE_TEXT")
      requires inputTypeSelected == 0 && outputTypeSelected == DefaultOutputIndex(outputDataTypes)
      requires voiceSelected == 0 && !isOutputText && limitedDomainExampleTextSelected == 0
      modifies this`inputTypeSelected, this`outputTypeSelected, this`isOutputText, this`voiceSelected,
               this`limitedDomainExampleTexts, this`limitedDomainExampleTextSelected,
               this`voiceExampleTextsLimitedDomain, this`keyValuePairs, this`sent
      ensures CacheSound(voiceExampleTextsLimitedDomain, "VOICE_EXAMPLE_TEXT")
      ensures OnlyKeysChanged(old(keyValuePairs), keyValuePairs, {"VOICE_EXAMPLE_TEXT"})
      ensures old(keyValuePairs).Some? ==> keyValuePairs.Some?
      ensures NewRequestsUse(old(sent), sent, {"VOICE_EXAMPLE_TEXT"})
      ensures var r := TypesAndExamples(kv, defaultVoiceExampleTexts, inputDataTypes, outputDataTypes, allVoices,
                                        old(limitedDomainExampleTexts));
        && outcome == OutcomeOf(r)
        && (r.Success? ==>
              r.value == (inputTypeSelected, outputTypeSelected, voiceSelected, isOutputText,
                          limitedDomainExampleTexts, limitedDomainExampleTextSelected))
    {
      if kv.Some? {
        outcome := SelectTypesAndVoice(kv.value);
      } else {
        outcome := Pass;
      }
      if outcome.Pass? {
        outcome := SelectExampleTexts(kv, defaultVoiceExampleTexts);
      }
    }

    /** The type, voice, example-text and input-text searches of `toSelections`. */
    method SearchTexts(kv: Option<map<string, string>>, defaultVoiceExampleTexts: Option<seq<string>>)
      returns (outcome: Outcome<JavaException>)
      requires CacheSound(voiceExampleTextsLimitedDomain, "VOICE_EXAMPLE_TEXT")
      requires CacheSound(serverExampleTexts, "EXAMPLE_TEXT")
      requires inputTypeSelected == 0 && outputTypeSelected == DefaultOutputIndex(outputDataTypes)
      requires voiceSelected == 0 && !isOutputText && limitedDomainExampleTextSelected == 0 && inputText == ""
      modifies this`inputTypeSelected, this`outputTypeSelected, this`isOutputText, this`voiceSelected,
               this`limitedDomainExampleTexts, this`limitedDomainExampleTextSelected,
               this`voiceExampleTextsLimitedDomain, this`inputText, this`serverExampleTexts,
               this`currentExampleText, this`keyValuePairs, this`sent
      ensures CacheSound(voiceExampleTextsLimitedDomain, "VOICE_EXAMPLE_TEXT")
      ensures CacheSound(serverExampleTexts, "EXAMPLE_TEXT")
      ensures OnlyKeysChanged(old(keyValuePairs), keyValuePairs, SelectionFetchKeys)
      ensures old(keyValuePairs).Some? ==> keyValuePairs.Some?
      ensures NewRequestsUse(old(sent), sent, SelectionFetchKeys)
      ensures var r := TextSelections(kv, defaultVoiceExampleTexts, inputDataTypes, outputDataTypes, allVoices,
                                      old(limitedDomainExampleTexts));
        && outcome == OutcomeOf(r)
        && (r.Success? ==>
              r.value == (inputTypeSelected, outputTypeSelected, voiceSelected, isOutputText,
                          limitedDomainExampleTexts, limitedDomainExampleTextSelected, inputText))
    {
      ghost var kv0, sent0 := keyValuePairs, sent;
      outcome := SearchTypesAndExamples(kv, defaultVoiceExampleTexts);
      if outcome.Pass? {
        ghost var kv1, sent1 := keyValuePairs, sent;
        outcome := SelectInputText(kv);
        KeysChain(kv0, kv1, keyValuePairs, {"VOICE_EXAMPLE_TEXT"}, {"EXAMPLE_TEXT"}, SelectionFetchKeys);
        RequestsChain(sent0, sent1, sent, {"VOICE_EXAMPLE_TEXT"}, {"EXAMPLE_TEXT"}, SelectionFetchKeys);
      }
    }

    /** The searches of `toSelections` once the selections are reset and the effect controls
        exist. The selection keys are looked up in the caller's map `keyValuePairsIn`, which
        agrees on them with the live map (`SelectionsIgnoreFetchedKeys`); the live map decides
        whether there is anything to search and is the one the effect loop reads. */
    method SearchSelections(keyValuePairsIn: Option<map<string, string>>, defaultVoiceExampleTexts: Option<seq<string>>)
      returns (outcome: Outcome<JavaException>)
      requires CacheSound(voiceExampleTextsLimitedDomain, "VOICE_EXAMPLE_TEXT")
      requires CacheSound(serverExampleTexts, "EXAMPLE_TEXT")
      requires keyValuePairsIn.Some? ==> keyValuePairs.Some?
      requires inputTypeSelected == 0 && outputTypeSelected == DefaultOutputIndex(outputDataTypes)
      requires voiceSelected == 0 && !isOutputText && limitedDomainExampleTextSelected == 0 && inputText == ""
      requires outputText == "" && audioFormatSelected == 0 && effectsBoxData.Some?
      modifies this`inputTypeSelected, this`outputTypeSelected, this`isOutputText, this`voiceSelected,
               this`limitedDomainExampleTexts, this`limitedDomainExampleTextSelected,
               this`voiceExampleTextsLimitedDomain, this`inputText, this`serverExampleTexts,
               this`currentExampleText, this`keyValuePairs, this`sent,
               this`outputText, this`audioFormatSelected, this`audioOutSelected, this`effectsBoxData
      ensures CacheSound(voiceExampleTextsLimitedDomain, "VOICE_EXAMPLE_TEXT")
      ensures CacheSound(serverExampleTexts, "EXAMPLE_TEXT")
      ensures OnlyKeysChanged(old(keyValuePairs), keyValuePairs, SelectionFetchKeys)
      ensures old(keyValuePairs).Some? ==> keyValuePairs.Some?
      ensures NewRequestsUse(old(sent), sent, SelectionFetchKeys)
      ensures var r := Selections(keyValuePairsIn, defaultVoiceExampleTexts, inputDataTypes, outputDataTypes, allVoices,
                                  audioFileFormatTypes, audioOutTypes, old(limitedDomainExampleTexts),
                                  old(audioOutSelected));
        && outcome == OutcomeOf(r)
        && (r.Success? ==>
              r.value == Picked(inputTypeSelected, outputTypeSelected, voiceSelected, isOutputText,
                                limitedDomainExampleTexts, limitedDomainExampleTextSelected, inputText,
                                outputText, audioFormatSelected, audioOutSelected))
      ensures outcome.Pass? ==>
        effectsBoxData == Some(if old(keyValuePairs).Some? then ApplyEffects(old(effectsBoxData).value, keyValuePairs.value)
                               else old(effectsBoxData).value)
    {
      var searched := keyValuePairs.Some?;
      outcome := SearchTexts(keyValuePairsIn, defaultVoiceExampleTexts);
      if outcome.Pass? {
        outcome := SelectOutputsAndEffects(keyValuePairsIn, searched);
      }
    }

    /** `toSelections(keyValuePairsIn, defaultVoiceExampleTexts)`: resets the selections, makes
        sure there are effect controls, then reads the caller's map. The map is searched as it
        was handed in: the requests made on the way only add the keys they fetch, which are
        never selection keys. After an exception the contract states the outcome and the effect
        texts, not the selections or the effect controls made before it. */
    method ToSelections(keyValuePairsIn: Option<map<string, string>>, defaultVoiceExampleTexts: Option<seq<string>>)
      returns (outcome: Outcome<JavaException>)
      requires CacheSound(voiceExampleTextsLimitedDomain, "VOICE_EXAMPLE_TEXT")
      requires CacheSound(serverExampleTexts, "EXAMPLE_TEXT")
      modifies this`keyValuePairs, this`inputTypeSelected, this`inputText, this`outputTypeSelected,
               this`isOutputText, this`outputText, this`audioFormatSelected, this`voiceSelected,
               this`limitedDomainExampleTextSelected, this`audioOutSelected,
               this`effectsBoxData, this`audioEffects, this`audioEffectsHelpTextLineBreak,
               this`limitedDomainExampleTexts, this`voiceExampleTextsLimitedDomain,
               this`serverExampleTexts, this`currentExampleText, this`sent
      ensures CacheSound(voiceExampleTextsLimitedDomain, "VOICE_EXAMPLE_TEXT")
      ensures CacheSound(serverExampleTexts, "EXAMPLE_TEXT")
      ensures OnlyKeysChanged(keyValuePairsIn, keyValuePairs, SelectionFetchKeys)
      ensures NewRequestsUse(old(sent), sent, SelectionFetchKeys)
      ensures var r := Selections(keyValuePairsIn, defaultVoiceExampleTexts, inputDataTypes, outputDataTypes, allVoices,
                                  audioFileFormatTypes, audioOutTypes, old(limitedDomainExampleTexts),
                                  old(audioOutSelected));
        && outcome == OutcomeOf(r)
        && (r.Success? ==>
              r.value == Picked(inputTypeSelected, outputTypeSelected, voiceSelected, isOutputText,
                                limitedDomainExampleTexts, limitedDomainExampleTextSelected, inputText,
                                outputText, audioFormatSelected, audioOutSelected))
      ensures EffectsSwitched(keyValuePairsIn, old(effectsBoxData), old(audioEffectsHelpTextLineBreak),
                              old(audioEffects), outcome)
    {
      PrepareSelections(keyValuePairsIn);
      ghost var kv1, sent1 := keyValuePairs, sent;
      outcome := SearchSelections(keyValuePairsIn, defaultVoiceExampleTexts);
      KeysChain(keyValuePairsIn, kv1, keyValuePairs, SelectionFetchKeys, SelectionFetchKeys, SelectionFetchKeys);
      RequestsChain(old(sent), sent1, sent, SelectionFetchKeys, SelectionFetchKeys, SelectionFetchKeys);
    }

    /** `toSelections(fullParameters, defaultVoiceExampleTexts)`: the parameter string is
        parsed into the request map, which is then read as the caller's map. */
    method ToSelectionsFromString(fullParameters: string, defaultVoiceExampleTexts: Option<seq<string>>)
      returns (outcome: Outcome<JavaException>)
      requires CacheSound(voiceExampleTextsLimitedDomain, "VOICE_EXAMPLE_TEXT")
      requires CacheSound(serverExampleTexts, "EXAMPLE_TEXT")
      modifies this`keyValuePairs, this`inputTypeSelected, this`inputText, this`outputTypeSelected,
               this`isOutputText, this`outputText, this`audioFormatSelected, this`voiceSelected,
               this`limitedDomainExampleTextSelected, this`audioOutSelected,
               this`effectsBoxData, this`audioEffects, this`audioEffectsHelpTextLineBreak,
               this`limitedDomainExampleTexts, this`voiceExampleTextsLimitedDomain,
               this`serverExampleTexts, this`currentExampleText, this`sent
      ensures CacheSound(voiceExampleTextsLimitedDomain, "VOICE_EXAMPLE_TEXT")
      ensures CacheSound(serverExampleTexts, "EXAMPLE_TEXT")
      ensures OnlyKeysChanged(toKeyValuePairs(fullParameters), keyValuePairs, SelectionFetchKeys)
      ensures NewRequestsUse(old(sent), sent, SelectionFetchKeys)
      ensures var r := Selections(toKeyValuePairs(fullParameters), defaultVoiceExampleTexts, inputDataTypes,
                                  outputDataTypes, allVoices, audioFileFormatTypes, audioOutTypes,
                                  old(limitedDomainExampleTexts), old(audioOutSelected));
        && outcome == OutcomeOf(r)
        && (r.Success? ==>
              r.value == Picked(inputTypeSelected, outputTypeSelected, voiceSelected, isOutputText,
                                limitedDomainExampleTexts, limitedDomainExampleTextSelected, inputText,
                                outputText, audioFormatSelected, audioOutSelected))
      ensures EffectsSwitched(toKeyValuePairs(fullParameters), old(effectsBoxData), old(audioEffectsHelpTextLineBreak),
                              old(audioEffects), outcome)
    {
      keyValuePairs := toKeyValuePairs(fullParameters);
      outcome := ToSelections(keyValuePairs, defaultVoiceExampleTexts);
    }

    /** `requestInputStream`: the synthesis request is written into the request map, which is
        then handed to the transport. Without a map the first `put` throws. */
    method RequestInputStream(input: string, inputType: string, outputType: string, locale: string,
                              audioType: Option<string>, defaultVoiceName: Option<string>,
                              defaultStyle: string, effects: Option<map<string, string>>,
                              streamingAudio: bool)
      returns (outcome: Outcome<JavaException>)
      modifies this`keyValuePairs, this`sent
      ensures old(keyValuePairs).None? ==>
        outcome == Fail(NullPointerException) && keyValuePairs.None? && sent == old(sent)
      ensures old(keyValuePairs).Some? ==>
        && outcome.Pass?
        && keyValuePairs == Some(SynthesisRequest(old(keyValuePairs).value, input, inputType, outputType,
                                                  locale, audioType, defaultVoiceName, defaultStyle,
                                                  effects, streamingAudio, serverCanStream))
        && sent == old(sent) + [SynthesisPairs(keyValuePairs.value)]
    {
      if keyValuePairs.None? {
        return Fail(NullPointerException);
      }
      var kv := keyValuePairs.value["SYNTHESIS_OUTPUT" := "?"];
      kv := kv["INPUT_TEXT" := input]["INPUT_TYPE" := inputType]["OUTPUT_TYPE" := outputType];
      kv := kv["LOCALE" := locale];
      if audioType.Some? {
        kv := kv["AUDIO" := if streamingAudio && serverCanStream then audioType.value + "_STREAM"
                            else audioType.value + "_FILE"];
      }
      if defaultVoiceName.Some? {
        kv := kv["VOICE" := defaultVoiceName.value];
      }
      kv := kv["STYLE" := defaultStyle];
      if effects.Some? {
        kv := kv + effects.value;
      }
      keyValuePairs := Some(kv);
      sent := sent + [SynthesisPairs(kv)];
      outcome := Pass;
    }

    /** The version line and the voice list, the first capability replies `init` reads. */
    method ReadVersionAndVoices(versionIn: Option<string>, voicesIn: Option<string>)
      returns (outcome: Outcome<JavaException>)
      requires CacheSound(voiceExampleTextsLimitedDomain, "VOICE_EXAMPLE_TEXT")
      modifies this`serverVersionInfo, this`serverVersionNo, this`serverCanStream,
               this`allVoices, this`voicesByLocaleMap, this`limitedDomainVoices,
               this`voiceExampleTextsLimitedDomain, this`keyValuePairs, this`sent
      ensures VersionAndVoicesRead(versionIn, voicesIn, outcome)
      ensures CacheSound(voiceExampleTextsLimitedDomain, "VOICE_EXAMPLE_TEXT")
      ensures NewRequestsUse(old(sent), sent, {"VERSION", "VOICE_EXAMPLE_TEXT"})
    {
      ToServerVersionInfo(versionIn);
      outcome := ToVoices(voicesIn);
    }

    /** The data types, the audio types and the effects, the capability replies `init` reads
        once the voice list is in. */
    method ReadTypesAndEffects(dataTypesIn: Option<string>, audioFileFormatTypesIn: Option<string>,
                               audioEffectHelpTextLineBreakIn: Option<string>, defaultAudioEffects: Option<string>)
      modifies this`allDataTypes, this`inputDataTypes, this`outputDataTypes,
               this`audioFileFormatTypes, this`audioOutTypes,
               this`audioEffectsHelpTextLineBreak, this`audioEffects, this`effectsBoxData
      ensures DataTypesCoherent() && AudioTypesCoherent()
      ensures allDataTypes == DataTypesReply(dataTypesIn)
      ensures audioFileFormatTypes == FormatsReply(if HasText(audioFileFormatTypesIn)
                                                   then toStringArray(audioFileFormatTypesIn.value) else [], supported)
      ensures audioEffectsHelpTextLineBreak == (if HasText(audioEffectHelpTextLineBreakIn)
                                                then audioEffectHelpTextLineBreakIn else None)
      ensures audioEffects == (if HasText(defaultAudioEffects) then defaultAudioEffects else None)
      ensures effectsBoxData == (if HasText(defaultAudioEffects)
                                 then Some(effectsFromText(defaultAudioEffects.value, audioEffectsHelpTextLineBreak))
                                 else None)
    {
      ToDataTypes(dataTypesIn);
      ToAudioFileFormatAndOutTypes(audioFileFormatTypesIn);
      ToAudioEffectsHelpTextLineBreak(audioEffectHelpTextLineBreakIn);
      ToAudioEffects(defaultAudioEffects);
    }

    /** `EffectsSwitched` for the `toSelections` that ends `init`: it starts from the line
        break and the effect controls that `toAudioEffectsHelpTextLineBreak` and
        `toAudioEffects` made of the replies given, so the controls are switched by the map
        whenever the caller gave one or no effect description was given. */
    ghost predicate InitEffectsSwitched(kvIn: Option<map<string, string>>, lineBreakIn: Option<string>,
                                        effectsIn: Option<string>, outcome: Outcome<JavaException>)
      reads this`audioEffects, this`audioEffectsHelpTextLineBreak, this`effectsBoxData, this`keyValuePairs
    {
      var lineBreak := if HasText(lineBreakIn) then lineBreakIn else None;
      if HasText(effectsIn) then EffectsSwitched(kvIn, Some(effectsFromText(effectsIn.value, lineBreak)), lineBreak,
                                                 effectsIn, outcome)
      else EffectsSwitched(kvIn, None, lineBreak, None, outcome)
    }

    /** `init` with no map and no effect description, as the constructors without a map call
        it: the description is the server's, the first fetch created the map, and every
        control is switched by that map. */
    lemma InitWithoutMapSwitchesEffects(lineBreakIn: Option<string>, outcome: Outcome<JavaException>)
      requires InitEffectsSwitched(None, lineBreakIn, None, outcome) && outcome.Pass?
      ensures audioEffects == Some(Answer("DEFAULT_AUDIO_EFFECTS", None))
      ensures audioEffectsHelpTextLineBreak ==
        (if HasText(lineBreakIn) then lineBreakIn else FetchedLineBreak(None))
      ensures keyValuePairs.Some?
      ensures effectsBoxData == Some(ApplyEffects(effectsFromText(Answer("DEFAULT_AUDIO_EFFECTS", None),
                                                                  audioEffectsHelpTextLineBreak),
                                                  keyValuePairs.value))
    {
    }

    /** `init` with an effect description but no map: the controls are those of the
        description and the line break given, and nothing switches them. */
    lemma InitWithEffectsKeepsThem(lineBreakIn: Option<string>, effectsIn: Option<string>,
                                   outcome: Outcome<JavaException>)
      requires HasText(effectsIn)
      requires InitEffectsSwitched(None, lineBreakIn, effectsIn, outcome) && outcome.Pass?
      ensures audioEffects == effectsIn
      ensures audioEffectsHelpTextLineBreak == (if HasText(lineBreakIn) then lineBreakIn else None)
      ensures effectsBoxData == Some(effectsFromText(effectsIn.value, audioEffectsHelpTextLineBreak))
    {
    }

    /** What `init` does once the voice list is in: the remaining capability replies, then
        the caller's selections. */
    method ReadTypesEffectsAndSelections(keyValuePairsIn: Option<map<string, string>>, dataTypesIn: Option<string>,
                                         audioFileFormatTypesIn: Option<string>,
                                         audioEffectHelpTextLineBreakIn: Option<string>,
                                         defaultAudioEffects: Option<string>,
                                         defaultVoiceExampleTexts: Option<seq<string>>)
      returns (outcome: Outcome<JavaException>)
      requires CacheSound(voiceExampleTextsLimitedDomain, "VOICE_EXAMPLE_TEXT")
      requires CacheSound(serverExampleTexts, "EXAMPLE_TEXT")
      requires limitedDomainExampleTexts.None? && audioOutSelected == 0
      modifies this`allDataTypes, this`inputDataTypes, this`outputDataTypes,
               this`audioFileFormatTypes, this`audioOutTypes,
               this`keyValuePairs, this`inputTypeSelected, this`inputText, this`outputTypeSelected,
               this`isOutputText, this`outputText, this`audioFormatSelected, this`voiceSelected,
               this`limitedDomainExampleTextSelected, this`audioOutSelected,
               this`effectsBoxData, this`audioEffects, this`audioEffectsHelpTextLineBreak,
               this`limitedDomainExampleTexts, this`voiceExampleTextsLimitedDomain,
               this`serverExampleTexts, this`currentExampleText, this`sent
      ensures allDataTypes == DataTypesReply(dataTypesIn)
      ensures audioFileFormatTypes == FormatsReply(if HasText(audioFileFormatTypesIn)
                                                   then toStringArray(audioFileFormatTypesIn.value) else [], supported)
      ensures SelectionsMade(keyValuePairsIn, defaultVoiceExampleTexts, None, 0, outcome)
      ensures InitEffectsSwitched(keyValuePairsIn, audioEffectHelpTextLineBreakIn, defaultAudioEffects, outcome)
    {
      ReadTypesAndEffects(dataTypesIn, audioFileFormatTypesIn, audioEffectHelpTextLineBreakIn, defaultAudioEffects);
      outcome := ToSelections(keyValuePairsIn, defaultVoiceExampleTexts);
    }

    /** The version fields are those of a version reply: `versionIn`, or the one fetched again
        when it held no version number; the voice lists are those read from `voicesIn` in the
        layout of that version, ending with `voicesOutcome`; and the locale buckets and example
        texts agree with them. */
    ghost predicate VersionAndVoicesRead(versionIn: Option<string>, voicesIn: Option<string>,
                                         voicesOutcome: Outcome<JavaException>)
      reads this`serverVersionInfo, this`serverVersionNo, this`serverCanStream,
            this`allVoices, this`voicesByLocaleMap, this`limitedDomainVoices
    {
      && VoicesCoherent()
      && VersionFits(serverVersionInfo, serverVersionNo, serverCanStream)
      && (serverVersionNo == VersionNumber(versionIn) || serverVersionNo == KnownVersion(VersionNumber(versionIn)))
      && VoicesFilled(voicesIn, NotOlderThan(KnownVersion(VersionNumber(versionIn)), "3.5.0"),
                      allVoices, limitedDomainVoices, voicesOutcome)
    }

    /** What `init` does once the voice list is read, given how that ended: nothing after an
        exception, else the remaining capability replies and the caller's selections. The
        version fields and the voice lists stay as they are. */
    method ReadAfterVoices(voicesOutcome: Outcome<JavaException>, keyValuePairsIn: Option<map<string, string>>,
                           dataTypesIn: Option<string>, audioFileFormatTypesIn: Option<string>,
                           audioEffectHelpTextLineBreakIn: Option<string>, defaultAudioEffects: Option<string>,
                           defaultVoiceExampleTexts: Option<seq<string>>)
      returns (outcome: Outcome<JavaException>)
      requires CacheSound(voiceExampleTextsLimitedDomain, "VOICE_EXAMPLE_TEXT")
      requires CacheSound(serverExampleTexts, "EXAMPLE_TEXT")
      requires TypeListsCleared() && TextsCleared() && effectsBoxData.None?
      requires limitedDomainExampleTexts.None? && audioOutSelected == 0
      modifies this`allDataTypes, this`inputDataTypes, this`outputDataTypes,
               this`audioFileFormatTypes, this`audioOutTypes,
               this`keyValuePairs, this`inputTypeSelected, this`inputText, this`outputTypeSelected,
               this`isOutputText, this`outputText, this`audioFormatSelected, this`voiceSelected,
               this`limitedDomainExampleTextSelected, this`audioOutSelected,
               this`effectsBoxData, this`audioEffects, this`audioEffectsHelpTextLineBreak,
               this`limitedDomainExampleTexts, this`voiceExampleTextsLimitedDomain,
               this`serverExampleTexts, this`currentExampleText, this`sent
      ensures unchanged(this`serverVersionInfo, this`serverVersionNo, this`serverCanStream,
                        this`allVoices, this`voicesByLocaleMap, this`limitedDomainVoices)
      ensures voicesOutcome.Fail? ==>
        && outcome == voicesOutcome && TypeListsCleared() && TextsCleared() && effectsBoxData.None?
      ensures voicesOutcome.Pass? ==>
        && allDataTypes == DataTypesReply(dataTypesIn)
        && audioFileFormatTypes == FormatsReply(if HasText(audioFileFormatTypesIn)
                                                then toStringArray(audioFileFormatTypesIn.value) else [], supported)
      ensures voicesOutcome.Pass? ==> SelectionsMade(keyValuePairsIn, defaultVoiceExampleTexts, None, 0, outcome)
      ensures voicesOutcome.Pass? ==>
        InitEffectsSwitched(keyValuePairsIn, audioEffectHelpTextLineBreakIn, defaultAudioEffects, outcome)
    {
      outcome := voicesOutcome;
      if voicesOutcome.Pass? {
        outcome := ReadTypesEffectsAndSelections(keyValuePairsIn, dataTypesIn, audioFileFormatTypesIn,
                                                 audioEffectHelpTextLineBreakIn, defaultAudioEffects,
                                                 defaultVoiceExampleTexts);
      }
    }

    /** `init` after the reset: the capability replies in their order, then the caller's
        selections. `voicesOutcome` is how reading the voice list ended; an exception there or
        in the selections ends it there. The version fields are those of the version reply,
        fetched again while reading the voices when it held no version number. */
    method InitFromReset(keyValuePairsIn: Option<map<string, string>>, versionIn: Option<string>,
                         voicesIn: Option<string>, dataTypesIn: Option<string>,
                         audioFileFormatTypesIn: Option<string>, audioEffectHelpTextLineBreakIn: Option<string>,
                         defaultAudioEffects: Option<string>, defaultVoiceExampleTexts: Option<seq<string>>)
      returns (outcome: Outcome<JavaException>, voicesOutcome: Outcome<JavaException>)
      requires CachesSound() && TypeListsCleared() && TextsCleared()
      requires effectsBoxData.None? && limitedDomainExampleTexts.None? && audioOutSelected == 0
      modifies this
      ensures VersionAndVoicesRead(versionIn, voicesIn, voicesOutcome)
      ensures voicesOutcome.Fail? ==>
        && outcome == voicesOutcome && TypeListsCleared() && TextsCleared() && effectsBoxData.None?
      ensures voicesOutcome.Pass? ==>
        && allDataTypes == DataTypesReply(dataTypesIn)
        && audioFileFormatTypes == FormatsReply(if HasText(audioFileFormatTypesIn)
                                                then toStringArray(audioFileFormatTypesIn.value) else [], supported)
      ensures voicesOutcome.Pass? ==> SelectionsMade(keyValuePairsIn, defaultVoiceExampleTexts, None, 0, outcome)
      ensures voicesOutcome.Pass? ==>
        InitEffectsSwitched(keyValuePairsIn, audioEffectHelpTextLineBreakIn, defaultAudioEffects, outcome)
    {
      voicesOutcome := ReadVersionAndVoices(versionIn, voicesIn);
      outcome := ReadAfterVoices(voicesOutcome, keyValuePairsIn, dataTypesIn, audioFileFormatTypesIn,
                                 audioEffectHelpTextLineBreakIn, defaultAudioEffects, defaultVoiceExampleTexts);
    }

    /** `init`: every field back to its initial value, then the capability replies and the
        caller's selections are read, in this order. `voicesOutcome` is how reading the voice
        list ended; an exception there or in the selections ends `init` there. */
    method Init(keyValuePairsIn: Option<map<string, string>>, versionIn: Option<string>,
                voicesIn: Option<string>, dataTypesIn: Option<string>,
                audioFileFormatTypesIn: Option<string>, audioEffectHelpTextLineBreakIn: Option<string>,
                defaultAudioEffects: Option<string>, defaultVoiceExampleTexts: Option<seq<string>>)
      returns (outcome: Outcome<JavaException>, voicesOutcome: Outcome<JavaException>)
      modifies this
      ensures VersionAndVoicesRead(versionIn, voicesIn, voicesOutcome)
      ensures voicesOutcome.Fail? ==>
        && outcome == voicesOutcome && TypeListsCleared() && TextsCleared() && effectsBoxData.None?
      ensures voicesOutcome.Pass? ==>
        && allDataTypes == DataTypesReply(dataTypesIn)
        && audioFileFormatTypes == FormatsReply(if HasText(audioFileFormatTypesIn)
                                                then toStringArray(audioFileFormatTypesIn.value) else [], supported)
      ensures voicesOutcome.Pass? ==> SelectionsMade(keyValuePairsIn, defaultVoiceExampleTexts, None, 0, outcome)
      ensures voicesOutcome.Pass? ==>
        InitEffectsSwitched(keyValuePairsIn, audioEffectHelpTextLineBreakIn, defaultAudioEffects, outcome)
    {
      Reset();
      outcome, voicesOutcome := InitFromReset(keyValuePairsIn, versionIn, voicesIn, dataTypesIn,
                                              audioFileFormatTypesIn, audioEffectHelpTextLineBreakIn,
                                              defaultAudioEffects, defaultVoiceExampleTexts);
    }
  }
}
