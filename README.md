# MaryBaseClient, modelled in Dafny

This project models the client side of the MARY text-to-speech HTTP protocol, as implemented by `MaryBaseClient`.
The client asks a MARY server what it offers: its version, voices, data types, audio file formats and audio effects.
Each question is a single-key request such as `VOICES=?` or `EXAMPLE_TEXT=? TEXT en_US`.
The client keeps the answers in fields, some of them as per-key caches.
It turns a map of request parameters (from a web form, say) into the indices a user interface selects: input type, output type, voice, example text, audio format and audio output type.
It also switches the audio effect controls on and off.
Finally, it builds the synthesis request map.

The model is the class `MaryHttpClient.MaryBaseClient`, whose fields are the Java fields. A Java `null` is `None`.
The server is a constant function `server(key, query)` of the constructor, and a ghost log `sent` records, in order, every request handed to the transport: the single key and query value of `getFromServer`, and the whole key-value map of the synthesis request.
Code the class calls but does not define is passed to the constructor as function constants: `toStringArray`, `processVoiceExampleText`, `toKeyValuePairs`, the effect box construction and the platform's audio support check.
So is the platform line separator.
An exception the code throws is an `Outcome`/`Result` failure (`IOException`, `NullPointerException`, `NoSuchElementException`, `IndexOutOfBoundsException`).

The modules follow the source:

- `JavaText`: the Java string operations the class relies on: `StringTokenizer`, `String.split`, `indexOf`, `compareTo`, `trim`, `replaceAll("\n", …)`, and ASCII case mapping.
- `MaryTypes`: voices, data types, locales and `string2locale`.
- `Capabilities`: how the VERSION, VOICES, DATA_TYPES and AUDIO_FILE_FORMAT_TYPES replies are read, as functions with lemmas.
- `Selection`: the searches and the clamp of `toSelections`, the effect switches and the synthesis request map.
- `MaryHttpClient`: the class itself, with one method per Java method (split where one Java method does several steps).

Where the code departs from its description, the model follows the code:

- The effect keys are `effect_<name>_selected` and `effect_<name>_parameters`.
- `toSelections` does not reset `audioOutSelected`.
- The `AUDIO_OUT` search splits the value at its first `_`, but never uses the result. It compares each format's type name with the whole value, so a value such as `WAVE_FILE` never selects a format.
- Versions are compared as strings, so an `unknown` version counts as not older than `3.5.0`, and `10.0` counts as unable to stream.
- `checkAndCorrectSelections` and the searches of `toSelections` do not check for `null` lists. Calls that would dereference one are failures or preconditions, as noted per member.

## Model

| member | source | states |
|---|---|---|
| JavaText.WordLength | java/marytts/client/http/MaryBaseClient.java:256-258 | the first token of a `StringTokenizer` ends at the first delimiter or at the end of the text |
| JavaText.Tokenize | java/marytts/client/http/MaryBaseClient.java:256-264 | `StringTokenizer` tokens are non-empty and contain no delimiter |
| JavaText.TokenizeNone | java/marytts/client/http/MaryBaseClient.java:256-257 | a line has no token exactly when every character is a delimiter (the "ignore entry" case) |
| JavaText.TokenizeJoin | java/marytts/client/http/MaryBaseClient.java:340-354 | tokenizing delimiter-free words joined by a delimiter gives the words back |
| JavaText.FirstIndex | java/marytts/client/http/MaryBaseClient.java:382 | `indexOf` is -1 exactly when the element is absent, otherwise the position of its first occurrence |
| JavaText.FirstIndexAt | java/marytts/client/http/MaryBaseClient.java:382 | a position holding the element with no earlier occurrence is the `indexOf` result |
| JavaText.AfterFirst | java/marytts/client/http/MaryBaseClient.java:382-383 | `substring(indexOf(c) + 1)` is the whole text when `c` is absent, otherwise the text after the first `c` |
| JavaText.SplitOn | java/marytts/client/http/MaryBaseClient.java:252 | splitting yields at least one part and no part contains the separator |
| JavaText.JoinSplitOn | java/marytts/client/http/MaryBaseClient.java:252 | joining the parts of a split restores the text |
| JavaText.SplitOnJoin | java/marytts/client/http/MaryBaseClient.java:336 | splitting separator-free parts joined by the separator restores the parts |
| JavaText.DropTrailingEmpty | java/marytts/client/http/MaryBaseClient.java:336 | `String.split` keeps a prefix of the parts, ends in a non-empty part and drops only empty ones |
| JavaText.LexLessIrreflexive | java/marytts/client/http/MaryBaseClient.java:233-234 | the `compareTo` order never puts a version below itself |
| JavaText.LexLessTransitive | java/marytts/client/http/MaryBaseClient.java:233-234 | the `compareTo` order is transitive |
| JavaText.LexLessTotal | java/marytts/client/http/MaryBaseClient.java:233-234 | of two distinct strings exactly one is below the other |
| JavaText.AsciiLower | java/marytts/client/http/MaryBaseClient.java:1079 | `toLowerCase` keeps the length, turns each capital into its small letter, keeps every other character, and leaves no capital |
| JavaText.AsciiUpper | java/marytts/client/http/MaryBaseClient.java:1142 | the upper-casing of a locale's country keeps the length, turns each small letter into its capital, keeps every other character, and leaves no small letter |
| JavaText.AsciiLowerIdempotent | java/marytts/client/http/MaryBaseClient.java:1079 | lower-casing twice is lower-casing once |
| JavaText.AsciiLowerOfUpper | java/marytts/client/http/MaryBaseClient.java:1079 | an upper-cased text lower-cases to the lower-casing of the original |
| JavaText.LexLessIgnoresCase | java/marytts/client/http/MaryBaseClient.java:695 | the case-insensitive order is unchanged by upper-casing either side |
| JavaText.ContainsAt | java/marytts/client/http/MaryBaseClient.java:503 | `contains` holds exactly when the text has the other as a substring at some position |
| JavaText.TrimStart | java/marytts/client/http/MaryBaseClient.java:1030 | leaves a suffix that starts above a space, and every character removed is at or below a space |
| JavaText.TrimEnd | java/marytts/client/http/MaryBaseClient.java:1030 | leaves a prefix that ends above a space, and every character removed is at or below a space |
| JavaText.Trim | java/marytts/client/http/MaryBaseClient.java:1030 | `trim` is a slice of the text with no control character or space at either end, and everything cut off on either side is at or below a space |
| JavaText.ReplaceNewlines | java/marytts/client/http/MaryBaseClient.java:954 | `replaceAll("\n", sep)` leaves a text without newlines alone and leaves no newline when `sep` has none |
| JavaText.ReplaceNewlinesNewline | java/marytts/client/http/MaryBaseClient.java:954 | a newline on its own becomes the separator |
| JavaText.ReplaceNewlinesConcat | java/marytts/client/http/MaryBaseClient.java:954 | the rewrite distributes over concatenation; with the newline and identity cases this fixes it on every text |
| MaryTypes.String2Locale | java/marytts/client/http/MaryBaseClient.java:1129-1144 | `string2locale` throws exactly when the text has no character other than `_` |
| MaryTypes.String2LocaleOfParts | java/marytts/client/http/MaryBaseClient.java:1129-1144 | `lang_COUNTRY_variant` with one to three parts gives the language lower-cased, the country upper-cased and the variant, missing parts empty |
| Capabilities.Filter | java/marytts/client/http/MaryBaseClient.java:841-845 | a filtered list is no longer than the list |
| Capabilities.FilterMembers | java/marytts/client/http/MaryBaseClient.java:841-845 | the filtered list holds exactly the elements that pass the test |
| Capabilities.FilterAppend | java/marytts/client/http/MaryBaseClient.java:841-845 | filtering distributes over concatenation |
| Capabilities.FirstVersionToken | java/marytts/client/http/MaryBaseClient.java:219-231 | the version number is the first token starting with a digit, and "unknown" exactly when there is none |
| Capabilities.UnknownIsNotOlder | java/marytts/client/http/MaryBaseClient.java:690-701 | an "unknown" version is not older than any version starting with a digit |
| Capabilities.CanStreamExamples | java/marytts/client/http/MaryBaseClient.java:233-238 | 3.0.1 and 3.1 stream; 2.9.9, 10.0 and "unknown" do not |
| Capabilities.CanStreamByLeadingChar | java/marytts/client/http/MaryBaseClient.java:233-238 | for every version string: an empty one or one below '3' never streams; one above '3' streams unless it is "unknown"; one starting with '3' streams exactly when the rest is not below ".0.1", so every "3.1" to "3.9" version streams |
| Capabilities.ParseVoiceLine | java/marytts/client/http/MaryBaseClient.java:256-302 | a VOICES line fails exactly when its locale token is all `_`, and yields a voice exactly when it has three tokens and a good locale |
| Capabilities.VoicesOfSnoc | java/marytts/client/http/MaryBaseClient.java:254-304 | a line that yields a voice appends it to the voices read so far |
| Capabilities.VoicesOfSkip | java/marytts/client/http/MaryBaseClient.java:257-263 | a line that yields no voice leaves the voices unchanged |
| Capabilities.VoicesOfAppend | java/marytts/client/http/MaryBaseClient.java:254-320 | the voices of two blocks of lines are the voices of each block in order |
| Capabilities.ShortLineNoVoice | java/marytts/client/http/MaryBaseClient.java:257-263 | a line of fewer than three tokens yields no voice |
| Capabilities.ShortLineSkipped | java/marytts/client/http/MaryBaseClient.java:257-263 | removing a line of fewer than three tokens from anywhere in the reply changes no voice |
| Capabilities.NewVoiceLineLayout | java/marytts/client/http/MaryBaseClient.java:267-288 | from 3.5.0 on, `name locale gender [synth] [domain]` is read with defaults "non-specified" and "general" |
| Capabilities.OldVoiceLineLayout | java/marytts/client/http/MaryBaseClient.java:289-302 | before 3.5.0, `name locale gender [domain]` is read with default domain "general" and no synthesizer type |
| Capabilities.VoiceNames | java/marytts/client/http/MaryBaseClient.java:514-516 | a name is in the list exactly when some voice has it |
| Capabilities.VoicesOfPrefix | java/marytts/client/http/MaryBaseClient.java:254-320 | the voices of the first lines are a prefix of the voices of the whole reply |
| Capabilities.ByLocaleSnoc | java/marytts/client/http/MaryBaseClient.java:305-313 | adding a voice appends it to its locale's bucket, creating the bucket if needed |
| Capabilities.ByLocaleBuckets | java/marytts/client/http/MaryBaseClient.java:305-313 | a locale has a bucket exactly when some voice has that locale, and the bucket is those voices in order |
| Capabilities.DataTypesOfSnoc | java/marytts/client/http/MaryBaseClient.java:338-362 | a non-blank DATA_TYPES line appends its type |
| Capabilities.DataTypesOfSkip | java/marytts/client/http/MaryBaseClient.java:341 | a blank line adds no type |
| Capabilities.Names | java/marytts/client/http/MaryBaseClient.java:478-480 | a name is in the list exactly when some data type has it |
| Capabilities.DataTypesCount | java/marytts/client/http/MaryBaseClient.java:338-363 | there is one data type per non-blank line |
| Capabilities.DataTypeLines | java/marytts/client/http/MaryBaseClient.java:336-355 | printing data types gives one line per type |
| Capabilities.DataTypeLineRoundTrip | java/marytts/client/http/MaryBaseClient.java:340-355 | reading the line `name [INPUT] [OUTPUT]` gives the data type back |
| Capabilities.DataTypesRoundTrip | java/marytts/client/http/MaryBaseClient.java:336-363 | reading printed data types gives the list back |
| Capabilities.LinesOfReply | java/marytts/client/http/MaryBaseClient.java:336 | `split("\n")` of lines joined by newlines gives the lines back |
| Capabilities.OutTypesOfSnoc | java/marytts/client/http/MaryBaseClient.java:404-407 | a kept format appends its out types |
| Capabilities.SupportedEntriesSnoc | java/marytts/client/http/MaryBaseClient.java:394-399 | a format entry is kept exactly when its type is supported |
| Capabilities.OutTypesCount | java/marytts/client/http/MaryBaseClient.java:404-407 | there is one out type per format plus one per MP3 format |
| Capabilities.FileIsNotStream | java/marytts/client/http/MaryBaseClient.java:404 | a `_FILE` out type is never a stream |
| Capabilities.StreamFor | java/marytts/client/http/MaryBaseClient.java:404-407 | the only stream out type of one format is `MP3_STREAM` |
| Capabilities.StreamOnlyForMP3 | java/marytts/client/http/MaryBaseClient.java:404-407 | every `_STREAM` out type is `MP3_STREAM` |
| Capabilities.MP3StreamFor | java/marytts/client/http/MaryBaseClient.java:406-407 | one format offers `MP3_STREAM` exactly when it is MP3 |
| Capabilities.StreamOfferedForMP3 | java/marytts/client/http/MaryBaseClient.java:406-407 | `MP3_STREAM` is offered exactly when some kept format is MP3 |
| Capabilities.DomainsPartition | java/marytts/client/http/MaryBaseClient.java:836-877 | general-domain and limited-domain voices together are all voices |
| Capabilities.FilterDomain | java/marytts/client/http/MaryBaseClient.java:841-850 | the domain loop returns the voices of the domain in order, or null when there are none |
| Selection.SelectIndex | java/marytts/client/http/MaryBaseClient.java:476-486 | a present name selects its first position; an absent or missing one keeps the default |
| Selection.Search | java/marytts/client/http/MaryBaseClient.java:478-485 | the search loop finds the first equal name, or -1 |
| Selection.SelectAmong | java/marytts/client/http/MaryBaseClient.java:493-500 | the selection after the search loop is the found position or the current one |
| Selection.CheckLimits | java/marytts/client/http/MaryBaseClient.java:1116-1120 | a clamped index is unchanged inside the range, the lower limit below it, the upper limit above it, and the upper limit when the range is empty |
| Selection.CheckLimitsIdempotent | java/marytts/client/http/MaryBaseClient.java:1114-1121 | clamping twice is clamping once |
| Selection.ApplyEffect | java/marytts/client/http/MaryBaseClient.java:611-630 | an effect is on exactly when its `_selected` key is "on"; its parameters come from `_parameters` or fall back to the example |
| Selection.ApplyEffects | java/marytts/client/http/MaryBaseClient.java:611-630 | the loop keeps the number of effects |
| Selection.ApplyEffectsIdempotent | java/marytts/client/http/MaryBaseClient.java:611-630 | applying the same parameters twice gives the same effects |
| Selection.EffectWithoutKeysIsReset | java/marytts/client/http/MaryBaseClient.java:619-628 | an effect with neither key is switched off with its example parameters |
| Selection.Query | java/marytts/client/http/MaryBaseClient.java:678-681 | every single-key query value starts with `?` |
| Selection.QueryRoundTrip | java/marytts/client/http/MaryBaseClient.java:678-681 | the parameters can be read back from the query, and an empty parameter sends a bare `?` |
| Selection.SynthesisRequest | java/marytts/client/http/MaryBaseClient.java:707-723 | the request carries the protocol keys with the arguments; AUDIO is present exactly when an audio type is given or the caller's map has one, VOICE likewise with a voice; without an audio type or a voice the caller's AUDIO or VOICE value is kept; the effect pairs override everything, other keys keep the caller's values, and nothing else is added |
| Selection.AudioStreamsOnlyWhenPossible | java/marytts/client/http/MaryBaseClient.java:714-715 | AUDIO is `<type>_STREAM` exactly when streaming is asked for and the server can stream, and `<type>_FILE` otherwise |
| MaryHttpClient.RequestsChain | java/marytts/client/http/MaryBaseClient.java:671-688 | request logs that only use given keys compose |
| MaryHttpClient.KeysChain | java/marytts/client/http/MaryBaseClient.java:685 | map updates confined to given keys compose |
| MaryHttpClient.SelectionLookupsAgree | java/marytts/client/http/MaryBaseClient.java:475-578 | the server requests made during `toSelections` never change a parameter it reads |
| MaryHttpClient.MaryBaseClient.constructor | java/marytts/client/http/MaryBaseClient.java:168-202 | a new client holds the initial values of `init` and has sent nothing |
| MaryHttpClient.MaryBaseClient.ResetIsValid | java/marytts/client/http/MaryBaseClient.java:168-202 | the initial state satisfies the class invariant |
| MaryHttpClient.MaryBaseClient.Reset | java/marytts/client/http/MaryBaseClient.java:168-202 | every field is back to its initial value and nothing is sent |
| MaryHttpClient.MaryBaseClient.KnownVersionIdempotent | java/marytts/client/http/MaryBaseClient.java:690-693 | filling an unknown version twice is filling it once |
| MaryHttpClient.MaryBaseClient.SelectionsStayInRange | java/marytts/client/http/MaryBaseClient.java:442-606 | every index `toSelections` picks in a non-empty list is a position of it; of an empty list the index is 0, except the out-type index, which keeps its earlier value |
| MaryHttpClient.MaryBaseClient.SelectionsIgnoreFetchedKeys | java/marytts/client/http/MaryBaseClient.java:442-658 | the selections do not depend on the replies stored in the map during the call |
| MaryHttpClient.MaryBaseClient.TextSelectionsIgnoreFetchedKeys | java/marytts/client/http/MaryBaseClient.java:442-658 | the type, voice, example-text and input-text searches give the same result on a map that differs only in fetched keys |
| MaryHttpClient.MaryBaseClient.LinesReadSnoc | java/marytts/client/http/MaryBaseClient.java:254-320 | a line that does not throw extends a run of lines that do not |
| MaryHttpClient.MaryBaseClient.FailsAtLast | java/marytts/client/http/MaryBaseClient.java:254-320 | a line that throws after lines that do not is the first failing line, with the voices up to it |
| MaryHttpClient.MaryBaseClient.ReadStep | java/marytts/client/http/MaryBaseClient.java:254-320 | one more line extends the voices read so far, or is the first failing line |
| MaryHttpClient.MaryBaseClient.ReadRest | java/marytts/client/http/MaryBaseClient.java:254-320 | once a line has failed, the whole reply fails at that line with its exception and voices |
| MaryHttpClient.MaryBaseClient.GetFromServer | java/marytts/client/http/MaryBaseClient.java:671-688 | sends `key=?[ params]`, stores the reply under the key in a map created if missing, and returns it |
| MaryHttpClient.MaryBaseClient.ToServerVersionInfo | java/marytts/client/http/MaryBaseClient.java:215-239 | keeps the info, extracts the version number and sets streaming from it |
| MaryHttpClient.MaryBaseClient.FillServerVersion | java/marytts/client/http/MaryBaseClient.java:660-663 | asks VERSION and reads the reply |
| MaryHttpClient.MaryBaseClient.IsServerNotOlderThan | java/marytts/client/http/MaryBaseClient.java:690-701 | fetches the version only when it is unknown, then compares ignoring case |
| MaryHttpClient.MaryBaseClient.GetVoiceExampleTextLimitedDomain | java/marytts/client/http/MaryBaseClient.java:945-958 | a cached text is returned without a request; otherwise an empty reply throws and a non-empty one is cleaned, cached and returned |
| MaryHttpClient.MaryBaseClient.GetVoiceExampleTextsLimitedDomain | java/marytts/client/http/MaryBaseClient.java:960-963 | the example text split into its texts |
| MaryHttpClient.MaryBaseClient.GetServerExampleText | java/marytts/client/http/MaryBaseClient.java:975-990 | cached per "type locale" key, an empty reply throws, and the result becomes `currentExampleText` |
| MaryHttpClient.MaryBaseClient.GetDefaultAudioEffects | java/marytts/client/http/MaryBaseClient.java:999-1004 | asks DEFAULT_AUDIO_EFFECTS and returns the reply |
| MaryHttpClient.MaryBaseClient.GetAudioEffects | java/marytts/client/http/MaryBaseClient.java:1006-1012 | asks only when the effects are not known, and keeps the answer |
| MaryHttpClient.MaryBaseClient.GetAudioEffectHelpTextLineBreak | java/marytts/client/http/MaryBaseClient.java:1022-1034 | asks only when unknown; an empty reply gives null and any other is trimmed |
| MaryHttpClient.MaryBaseClient.GetAudioEffectsBox | java/marytts/client/http/MaryBaseClient.java:1014-1020 | returns the box, building it only when there is none; the effect description and the line break it is built from are the known ones, else the server's DEFAULT_AUDIO_EFFECTS reply and its trimmed AUDIO_EFFECT_HELP_TEXT_LINE_BREAK reply (null when empty); an existing box costs no request |
| MaryHttpClient.MaryBaseClient.RequestDefaultEffectParameters | java/marytts/client/http/MaryBaseClient.java:1036-1044 | an empty reply gives "", any other is cleaned |
| MaryHttpClient.MaryBaseClient.RequestFullEffect | java/marytts/client/http/MaryBaseClient.java:1046-1054 | asks with "name parameters"; an empty reply gives "", any other is cleaned |
| MaryHttpClient.MaryBaseClient.RequestEffectHelpText | java/marytts/client/http/MaryBaseClient.java:1056-1069 | cached per effect; an empty reply gives "" and is not cached |
| MaryHttpClient.MaryBaseClient.IsHMMEffect | java/marytts/client/http/MaryBaseClient.java:1071-1084 | true exactly when the lower-cased reply contains "yes" |
| MaryHttpClient.MaryBaseClient.ToAudioEffectsHelpTextLineBreak | java/marytts/client/http/MaryBaseClient.java:413-419 | keeps a non-empty line break, otherwise null |
| MaryHttpClient.MaryBaseClient.ToAudioEffects | java/marytts/client/http/MaryBaseClient.java:421-432 | keeps non-empty effects and builds the box from them, otherwise both null |
| MaryHttpClient.MaryBaseClient.ReadVoiceLine | java/marytts/client/http/MaryBaseClient.java:256-302 | reads a line in the layout of the server version, fetching the version at most once |
| MaryHttpClient.MaryBaseClient.ToVoices | java/marytts/client/http/MaryBaseClient.java:241-322 | an empty reply clears the voice lists; otherwise they are the reply's voices, bucketed by locale, with example texts kept for exactly the limited-domain voices; if a line throws, the first such line's exception, with the voices up to and including that line and example texts for exactly the limited-domain voices before it |
| MaryHttpClient.MaryBaseClient.ReadVoices | java/marytts/client/http/MaryBaseClient.java:254-320 | the voice loop's lists and buckets are those of the lines read, and its example-text map has exactly the names of the limited-domain voices that did not throw; the first line that throws stops it with that line's exception, its voice (if any) already added |
| MaryHttpClient.MaryBaseClient.AddVoice | java/marytts/client/http/MaryBaseClient.java:256-319 | one loop step: a voice is added to the list and its locale's bucket, the example-text map gains exactly the name of a limited-domain voice that does not throw, and the step throws exactly when its line has a bad locale or a limited-domain voice without example text |
| MaryHttpClient.MaryBaseClient.AddExampleTexts | java/marytts/client/http/MaryBaseClient.java:315-319 | the voice's texts are added exactly when the server has an example text for it, and then its name is the only new key |
| MaryHttpClient.MaryBaseClient.ToDataTypes | java/marytts/client/http/MaryBaseClient.java:324-365 | the data types are those of the reply, and the input and output lists are the ones flagged so |
| MaryHttpClient.MaryBaseClient.ReadDataTypes | java/marytts/client/http/MaryBaseClient.java:336-363 | the loop yields the data types of all lines in order, with the input and output types the flagged sub-lists |
| MaryHttpClient.MaryBaseClient.ReadDataTypeLine | java/marytts/client/http/MaryBaseClient.java:340-355 | one line gives the data type its tokens describe, or nothing when blank |
| MaryHttpClient.MaryBaseClient.ScanTypeFlags | java/marytts/client/http/MaryBaseClient.java:343-354 | a type is an input type exactly when some token after its name is "INPUT", and likewise for "OUTPUT" |
| MaryHttpClient.MaryBaseClient.SupportedFormats | java/marytts/client/http/MaryBaseClient.java:380-409 | the format loop keeps the supported entries and their out types |
| MaryHttpClient.MaryBaseClient.FormatOutTypes | java/marytts/client/http/MaryBaseClient.java:404-407 | `_FILE` for every type, plus `_STREAM` for MP3 only |
| MaryHttpClient.MaryBaseClient.ToAudioFileFormatAndOutTypes | java/marytts/client/http/MaryBaseClient.java:367-411 | the formats are the supported entries, null when none, and the out types follow them |
| MaryHttpClient.MaryBaseClient.FillVoices | java/marytts/client/http/MaryBaseClient.java:932-935 | asks VOICES and reads the reply |
| MaryHttpClient.MaryBaseClient.GetVoices | java/marytts/client/http/MaryBaseClient.java:796-804 | fetches the voices only when unknown and returns them. When the voices were unknown, the VOICES reply fills the voice fields as `fillVoices` does; the version number stays or becomes known, and no other version change happens. |
| MaryHttpClient.MaryBaseClient.GetVoicesOfLocale | java/marytts/client/http/MaryBaseClient.java:818-824 | the voices of a locale, in order, or null when the locale has none. When the voices were unknown, the VOICES reply fills the voice fields as `fillVoices` does; the version number stays or becomes known, and no other version change happens. |
| MaryHttpClient.MaryBaseClient.GetDomainVoices | java/marytts/client/http/MaryBaseClient.java:836-877 | the general or limited-domain voices, or null when there are none. When the voices were unknown, the VOICES reply fills the voice fields as `fillVoices` does; the version number stays or becomes known, and no other version change happens. |
| MaryHttpClient.MaryBaseClient.GetDomainVoicesOfLocale | java/marytts/client/http/MaryBaseClient.java:889-930 | the same for one locale; a locale without voices makes the loop throw `NullPointerException`. When the voices were unknown, the VOICES reply fills the voice fields as `fillVoices` does; the version number stays or becomes known, and no other version change happens. |
| MaryHttpClient.MaryBaseClient.FillDataTypes | java/marytts/client/http/MaryBaseClient.java:782-785 | asks DATA_TYPES and reads the reply |
| MaryHttpClient.MaryBaseClient.GetAllDataTypes | java/marytts/client/http/MaryBaseClient.java:735-743 | fetches the data types only when unknown |
| MaryHttpClient.MaryBaseClient.GetInputDataTypes | java/marytts/client/http/MaryBaseClient.java:753-761 | fetches the data types only when the input list is unknown |
| MaryHttpClient.MaryBaseClient.GetOutputDataTypes | java/marytts/client/http/MaryBaseClient.java:772-780 | fetches the data types only when the output list is unknown |
| MaryHttpClient.MaryBaseClient.FillAudioFileFormatAndOutTypes | java/marytts/client/http/MaryBaseClient.java:1107-1111 | asks AUDIO_FILE_FORMAT_TYPES only when a list is missing |
| MaryHttpClient.MaryBaseClient.GetAudioFileFormatTypes | java/marytts/client/http/MaryBaseClient.java:1093-1098 | when the formats are unknown, asks AUDIO_FILE_FORMAT_TYPES once and returns the supported formats of its reply (null when none); otherwise returns them without a request |
| MaryHttpClient.MaryBaseClient.GetAudioOutTypes | java/marytts/client/http/MaryBaseClient.java:1100-1105 | when the formats are unknown, asks AUDIO_FILE_FORMAT_TYPES once and fills the formats from its reply; returns the out types, which are those of the formats |
| MaryHttpClient.MaryBaseClient.CheckAndCorrectSelections | java/marytts/client/http/MaryBaseClient.java:1114-1121 | clamps every index into its list, so each is a position of its list, or -1 for an empty list; requires all five lists to be present, since the Java dereferences them unchecked |
| MaryHttpClient.MaryBaseClient.ResetSelections | java/marytts/client/http/MaryBaseClient.java:444-457 | the first part of `toSelections`: the defaults, output type last |
| MaryHttpClient.MaryBaseClient.EnsureEffectsBox | java/marytts/client/http/MaryBaseClient.java:459-467 | builds the effect box only when there is none; the effect description and the line break it is built from are the known ones, else the server's DEFAULT_AUDIO_EFFECTS reply and its trimmed AUDIO_EFFECT_HELP_TEXT_LINE_BREAK reply (null when empty), each asked for only when not known |
| MaryHttpClient.MaryBaseClient.SelectTypesAndVoice | java/marytts/client/http/MaryBaseClient.java:474-522 | the input type, output type and voice searches, and text output exactly when the output type lacks "AUDIO" |
| MaryHttpClient.MaryBaseClient.SelectExampleTexts | java/marytts/client/http/MaryBaseClient.java:525-548 | a limited-domain voice gets its example texts from the caller or the server, and the example text is searched |
| MaryHttpClient.MaryBaseClient.FetchVoiceExampleTexts | java/marytts/client/http/MaryBaseClient.java:530-533 | the caller's texts when given, the server's otherwise |
| MaryHttpClient.MaryBaseClient.SelectInputText | java/marytts/client/http/MaryBaseClient.java:551-564 | the given input text, or the selected example text, or the server's example for the type and locale |
| MaryHttpClient.MaryBaseClient.FetchDefaultInputText | java/marytts/client/http/MaryBaseClient.java:557-563 | the default input text of the selected voice and input type |
| MaryHttpClient.MaryBaseClient.SelectAudioOut | java/marytts/client/http/MaryBaseClient.java:576-606 | the AUDIO_OUT searches over the formats and the out types |
| MaryHttpClient.MaryBaseClient.ApplyEffectSelections | java/marytts/client/http/MaryBaseClient.java:609-631 | every effect is switched from the map |
| MaryHttpClient.MaryBaseClient.SelectOutputsAndEffects | java/marytts/client/http/MaryBaseClient.java:567-631 | the output text, audio searches and effects, when the map is present |
| MaryHttpClient.MaryBaseClient.SelectOutputs | java/marytts/client/http/MaryBaseClient.java:567-606 | the output text for a text output, and the AUDIO_OUT searches |
| MaryHttpClient.MaryBaseClient.PrepareSelections | java/marytts/client/http/MaryBaseClient.java:444-467 | the defaults, and the effect box: the existing one, else one built from the known or fetched effect description and line break |
| MaryHttpClient.MaryBaseClient.SearchTypesAndExamples | java/marytts/client/http/MaryBaseClient.java:469-548 | the type, voice and example-text selections, from the map or the defaults |
| MaryHttpClient.MaryBaseClient.SearchTexts | java/marytts/client/http/MaryBaseClient.java:469-656 | those selections and the input text |
| MaryHttpClient.MaryBaseClient.SearchSelections | java/marytts/client/http/MaryBaseClient.java:469-657 | all selections, and the effects switched when the map is present |
| MaryHttpClient.MaryBaseClient.ToSelections | java/marytts/client/http/MaryBaseClient.java:442-658 | the outcome is that of the function `Selections`, and on success the selections are its picks; the effect description and line break are the known ones or the server's replies; on success the effect box is the existing one or one built from those, switched from the map whenever the caller gave one or a fetch created one; only reply keys are added to the map |
| MaryHttpClient.MaryBaseClient.ToSelectionsFromString | java/marytts/client/http/MaryBaseClient.java:434-439 | the same, for the map parsed from the parameter string |
| MaryHttpClient.MaryBaseClient.RequestInputStream | java/marytts/client/http/MaryBaseClient.java:703-726 | the map becomes the synthesis request, and that map is the one request sent; a missing map throws `NullPointerException` before anything is sent |
| MaryHttpClient.MaryBaseClient.ReadVersionAndVoices | java/marytts/client/http/MaryBaseClient.java:206-207 | the version and the voices of `init`: the version fields are those of the version reply, or of a fetched one when it held no version number, and the voices, buckets and example texts are those read from the voice reply in that version's layout |
| MaryHttpClient.MaryBaseClient.ReadTypesAndEffects | java/marytts/client/http/MaryBaseClient.java:208-211 | the data types, formats, line break and effects of `init` |
| MaryHttpClient.MaryBaseClient.ReadTypesEffectsAndSelections | java/marytts/client/http/MaryBaseClient.java:208-212 | the data types and formats of the given replies, then the selections; the effect description, line break and box are those `toSelections` makes from the given description and line break: a given description is kept and its box is switched only by a given map; without one, the server's description is fetched, which creates the map, and the box built from it is switched by that map |
| MaryHttpClient.MaryBaseClient.ReadAfterVoices | java/marytts/client/http/MaryBaseClient.java:207-212 | after an exception in the voice list nothing more is read; otherwise the data types, formats and selections are those of the given replies and parameters, and the effect description, line break and box are those `toSelections` makes from the given description and line break: a given description is kept and its box is switched only by a given map; without one, the server's description is fetched, which creates the map, and the box built from it is switched by that map; the version fields and voice lists stay as they are |
| MaryHttpClient.MaryBaseClient.InitFromReset | java/marytts/client/http/MaryBaseClient.java:204-212 | from the initial state, the version fields (and so whether the server can stream) and the voices are those of the given replies; unless the voice list threw, the data types, formats and selections are too, and the effect description, line break and box are those `toSelections` makes from the given description and line break: a given description is kept and its box is switched only by a given map; without one, the server's description is fetched, which creates the map, and the box built from it is switched by that map |
| MaryHttpClient.MaryBaseClient.Init | java/marytts/client/http/MaryBaseClient.java:158-213 | resets every field, then reads the given replies and parameters; afterwards the version fields, the voices with their buckets, the data types, the formats, the selections, the effect description, the line break and the effect box are stated, the last three as for `InitFromReset` |
| MaryHttpClient.MaryBaseClient.InitWithoutMapSwitchesEffects | java/marytts/client/http/MaryBaseClient.java:117-123 | `init` as the constructors without a map call it, with no effect description: the description is the server's, a map exists, and every effect control is switched by it |
| MaryHttpClient.MaryBaseClient.InitWithEffectsKeepsThem | java/marytts/client/http/MaryBaseClient.java:204-212 | `init` with an effect description but no map: the description and line break given are kept and the box built from them is not switched |

## Left out

- The HTTP transport: the server is a function of the request, so an `IOException` from the network and a reply that lacks the requested key are not modelled.
- The fields `hostAddress` and `httpRequester` are not modelled: they belong to the transport that `server` stands for, which `getFromServer` (line 683) and `requestInputStream` (line 725) use.
- The fields `outputAudioResponseID`, `mimeType` and `voiceExampleTextsGeneralDomain` are not modelled: `init` only sets them.
- The field `errorMessage` is not modelled: it is declared at line 87 and never assigned in the class.
- The no-argument constructor reads the `server.host` and `server.port` system properties. The constructors of lines 106-156 only call `init`, which `Init` models.
- `StringUtils.toStringArray`, `StringUtils.processVoiceExampleText`, `MaryHttpClientUtils.toKeyValuePairs`, `AudioEffectsBoxData` and the platform's audio support checks (`MaryAudioUtils`, `AudioSystem`) are not part of this model. They are constructor parameters.
- `RequestInputStream` builds the request map. It does not model the audio stream the server returns.
- `RequestInputStream`: `null` strings among its arguments are not modelled; they are plain strings.
- Case mapping (`toLowerCase`, `compareToIgnoreCase`, the locale's upper-cased country) is ASCII only.
- The caller's map passed to `toSelections` is taken as a value. The model does not capture that the client later writes into the same map object the caller holds.
- Init: does not state the class invariant `Valid` afterwards, and leaves unstated the input, output and out-type lists derived from the replies and the text caches; it states the version fields, the voice lists with their buckets, the data types, the formats, the selections, the effect description, the line break and the effect controls. After an exception in the selections it states neither the selections nor the effect controls. The invariant is proved for the reset state (`ResetIsValid`) and kept by the getters.
- InitFromReset: does not state the class invariant `Valid` afterwards, for the same reason as `Init`.
- ToSelections: after an exception states the outcome, the effect description and the line break, but neither the selections nor the effect controls made before the exception.
- ToSelectionsFromString: the same as `ToSelections` after an exception.
- SelectionsStayInRange: is stated only when all the lists are present, not for calls where a list is `null`.
- `MathUtils.CheckLimits` is not part of this model: `CheckLimits` assumes it raises to the lower limit first and then lowers to the upper limit, so an empty range yields the upper limit, -1.
- The Java `assert` statements (lines 262, 740, 758, 777 and 801) are not modelled, because Java runs with assertions disabled by default.
