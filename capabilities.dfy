/**
  What the capability parsers of the client compute, as functions of the server's text:
  the version token and streaming flag, the voice list and its per-locale buckets, the
  data-type lists and the audio format / out-type lists. The class methods that build these
  lists step by step are proved against the functions here.
*/
module Capabilities {
  import opened Wrappers
  import opened JavaText
  import opened MaryTypes

  /** The elements of `s` that satisfy `p`, in their original order. */
  function Filter<T(!new)>(s: seq<T>, p: T -> bool): (r: seq<T>)
    ensures |r| <= |s|
  {
    if s == [] then [] else Filter(s[..|s| - 1], p) + (if p(s[|s| - 1]) then [s[|s| - 1]] else [])
  }

  /** The filter keeps exactly the elements that satisfy `p`. */
  lemma {:induction false} FilterMembers<T(!new)>(s: seq<T>, p: T -> bool)
    ensures forall x :: x in Filter(s, p) <==> x in s && p(x)
  {
    if s != [] {
      var init := s[..|s| - 1];
      FilterMembers(init, p);
      assert s == init + [s[|s| - 1]];
    }
  }

  /** One more element: it is kept at the end exactly when it satisfies `p`. */
  lemma FilterSnoc<T(!new)>(s: seq<T>, x: T, p: T -> bool)
    ensures Filter(s + [x], p) == Filter(s, p) + (if p(x) then [x] else [])
  {
    assert (s + [x])[..|s|] == s;
  }

  /** Filtering works piecewise: the kept elements of a concatenation keep their order. */
  lemma {:induction false} FilterAppend<T(!new)>(a: seq<T>, b: seq<T>, p: T -> bool)
    ensures Filter(a + b, p) == Filter(a, p) + Filter(b, p)
    decreases |b|
  {
    if b == [] {
      assert a + b == a;
    } else {
      var b' := b[..|b| - 1];
      assert (a + b)[..|a + b| - 1] == a + b';
      assert (a + b)[|a + b| - 1] == b[|b| - 1];
      FilterAppend(a, b', p);
    }
  }

  // ---------------------------------------------------------------- version

  const Unknown := "unknown"

  /** The characters that `.` in a Java regular expression does not match. */
  predicate IsLineTerminator(c: char) {
    c == '\n' || c == '\r' || c == '\U{0085}' || c == '\U{2028}' || c == '\U{2029}'
  }

  /** `t.matches("^[0-9].*")`. */
  predicate IsVersionToken(t: string) {
    |t| > 0 && '0' <= t[0] <= '9' && forall i :: 1 <= i < |t| ==> !IsLineTerminator(t[i])
  }

  /** The first token that looks like a version number, or "unknown". */
  function FirstVersionToken(toks: seq<string>): (r: string)
    ensures r == Unknown <==> forall t :: t in toks ==> !IsVersionToken(t)
    ensures r != Unknown ==>
      exists i :: 0 <= i < |toks| && toks[i] == r && IsVersionToken(r) &&
                  forall j :: 0 <= j < i ==> !IsVersionToken(toks[j])
  {
    if toks == [] then Unknown
    else if IsVersionToken(toks[0]) then toks[0]
    else
      var r := FirstVersionToken(toks[1..]);
      assert forall t :: t in toks ==> t == toks[0] || t in toks[1..];
      r
  }

  /** `serverVersionNo` after `toServerVersionInfo(info)`. */
  function VersionNumber(info: Option<string>): string {
    if info.None? then Unknown else FirstVersionToken(Tokenize(info.value, Whitespace))
  }

  /** `serverCanStream`: a known version that is not lexically below "3.0.1". */
  predicate CanStream(versionNo: string) {
    !(versionNo == Unknown || LexLess(versionNo, "3.0.1"))
  }

  /** `isServerNotOlderThan(other)` once the version is known: `compareToIgnoreCase >= 0`. */
  predicate NotOlderThan(versionNo: string, other: string) {
    !LexLessIgnoreCase(versionNo, other)
  }

  /** A server whose version could not be read counts as at least as new as any numbered
      version, because "unknown" sorts after every digit. */
  lemma UnknownIsNotOlder(other: string)
    requires other != [] && '0' <= other[0] <= '9'
    ensures NotOlderThan(Unknown, other)
  {
    assert AsciiLower(Unknown)[0] == 'u';
    assert AsciiLower(other)[0] == other[0];
  }

  /** Streaming is decided by plain string order: "3.0.1" and "3.1" stream, "2.9.9" does not,
      and neither does "10.0", which sorts before "3.0.1". */
  lemma CanStreamExamples()
    ensures CanStream("3.0.1") && CanStream("3.1")
    ensures !CanStream("2.9.9") && !CanStream("10.0") && !CanStream(Unknown)
  {
    LexLessIrreflexive("3.0.1");
  }

  /** The streaming rule over every version string, by its first character: below '3' never
      streams, above '3' streams unless the version is unknown, and a leading '3' streams
      exactly when the rest is not below ".0.1". So every "3.1" to "3.9" line streams. */
  lemma CanStreamByLeadingChar(v: string)
    ensures v == [] ==> !CanStream(v)
    ensures v != [] && v[0] < '3' ==> !CanStream(v)
    ensures v != [] && v[0] > '3' ==> (CanStream(v) <==> v != Unknown)
    ensures v != [] && v[0] == '3' ==> (CanStream(v) <==> !LexLess(v[1..], ".0.1"))
    ensures |v| >= 3 && v[..2] == "3." && '1' <= v[2] <= '9' ==> CanStream(v)
  {
    assert "3.0.1"[0] == '3' && "3.0.1"[1..] == ".0.1";
    if |v| >= 3 && v[..2] == "3." {
      assert v[0] == '3' && v[1..][0] == '.' && v[1..][1..] == v[2..];
      assert ".0.1"[1..] == "0.1";
    }
  }

  // ---------------------------------------------------------------- voices

  /** How one line of the VOICES reply is read. */
  datatype VoiceLine = Skipped | BadLocale | Parsed(voice: Voice)

  /** A line whose second token has no '_'-separated part: `string2locale` throws on it. */
  predicate HasBadLocale(line: string) {
    var toks := Tokenize(line, Whitespace);
    |toks| >= 2 && String2Locale(toks[1]).None?
  }

  /** One line "name locale gender [synthesizerType] [domain]" (3.5.0 layout, `newFormat`)
      or "name locale gender [domain]" (older layout). Fewer than three tokens: skipped. */
  function ParseVoiceLine(line: string, newFormat: bool): (r: VoiceLine)
    ensures r.BadLocale? <==> HasBadLocale(line)
    ensures r.Parsed? <==> |Tokenize(line, Whitespace)| >= 3 && !HasBadLocale(line)
  {
    var toks := Tokenize(line, Whitespace);
    if |toks| < 2 then Skipped
    else
      match String2Locale(toks[1])
      case None => BadLocale
      case Some(locale) =>
        if |toks| < 3 then Skipped
        else if newFormat then
          Parsed(Voice(toks[0], locale, toks[2],
                       if |toks| > 4 then toks[4] else "general",
                       Some(if |toks| > 3 then toks[3] else "non-specified")))
        else
          Parsed(Voice(toks[0], locale, toks[2],
                       if |toks| > 3 then toks[3] else "general",
                       None))
  }

  /** The voices of the parsed lines, in line order. */
  function VoicesOf(lines: seq<string>, newFormat: bool): seq<Voice> {
    if lines == [] then []
    else
      VoicesOf(lines[..|lines| - 1], newFormat) +
      match ParseVoiceLine(lines[|lines| - 1], newFormat)
      case Parsed(v) => [v]
      case _ => []
  }

  /** One more line that yields a voice. */
  lemma VoicesOfSnoc(lines: seq<string>, i: nat, newFormat: bool, v: Voice)
    requires i < |lines| && ParseVoiceLine(lines[i], newFormat) == Parsed(v)
    ensures VoicesOf(lines[..i + 1], newFormat) == VoicesOf(lines[..i], newFormat) + [v]
  {
    assert lines[..i + 1][..i] == lines[..i];
  }

  /** One more line that yields no voice. */
  lemma VoicesOfSkip(lines: seq<string>, i: nat, newFormat: bool)
    requires i < |lines| && !ParseVoiceLine(lines[i], newFormat).Parsed?
    ensures VoicesOf(lines[..i + 1], newFormat) == VoicesOf(lines[..i], newFormat)
  {
    assert lines[..i + 1][..i] == lines[..i];
  }

  /** Lines are read independently: the voices of a concatenation are the concatenation. */
  lemma {:induction false} VoicesOfAppend(a: seq<string>, b: seq<string>, newFormat: bool)
    ensures VoicesOf(a + b, newFormat) == VoicesOf(a, newFormat) + VoicesOf(b, newFormat)
    decreases |b|
  {
    if b == [] {
      assert a + b == a;
    } else {
      var b' := b[..|b| - 1];
      assert (a + b)[..|a + b| - 1] == a + b';
      assert (a + b)[|a + b| - 1] == b[|b| - 1];
      VoicesOfAppend(a, b', newFormat);
    }
  }

  lemma ShortLineNoVoice(line: string, newFormat: bool)
    requires |Tokenize(line, Whitespace)| < 3
    ensures VoicesOf([line], newFormat) == []
  {
    assert [line][..0] == [];
    assert !ParseVoiceLine(line, newFormat).Parsed?;
  }

  /** A line with fewer than three tokens adds no voice and does not stop the lines after it. */
  lemma ShortLineSkipped(before: seq<string>, line: string, after: seq<string>, newFormat: bool)
    requires |Tokenize(line, Whitespace)| < 3
    ensures VoicesOf(before + [line] + after, newFormat) ==
            VoicesOf(before, newFormat) + VoicesOf(after, newFormat)
  {
    VoicesOfAppend(before + [line], after, newFormat);
    VoicesOfAppend(before, [line], newFormat);
    ShortLineNoVoice(line, newFormat);
  }

  /** Token layout of a voice line under the 3.5.0 protocol: the fourth token is the
      synthesizer type (default "non-specified"), the fifth the domain (default "general"). */
  lemma NewVoiceLineLayout(toks: seq<string>, locale: Locale)
    requires 3 <= |toks| <= 5
    requires forall t :: t in toks ==> t != [] && forall c :: c in t ==> c !in Whitespace
    requires String2Locale(toks[1]) == Some(locale)
    ensures ParseVoiceLine(Join(toks, ' '), true) ==
      Parsed(Voice(toks[0], locale, toks[2],
                   if |toks| == 5 then toks[4] else "general",
                   Some(if |toks| >= 4 then toks[3] else "non-specified")))
  {
    TokenizeJoin(toks, ' ', Whitespace);
  }

  /** Token layout under the older protocol: the fourth token is the domain. */
  lemma OldVoiceLineLayout(toks: seq<string>, locale: Locale)
    requires 3 <= |toks| <= 4
    requires forall t :: t in toks ==> t != [] && forall c :: c in t ==> c !in Whitespace
    requires String2Locale(toks[1]) == Some(locale)
    ensures ParseVoiceLine(Join(toks, ' '), false) ==
      Parsed(Voice(toks[0], locale, toks[2], if |toks| == 4 then toks[3] else "general", None))
  {
    TokenizeJoin(toks, ' ', Whitespace);
  }

  /** The lines of a non-empty reply: `info.split("\n")`. */
  predicate HasText(info: Option<string>) {
    info.Some? && info.value != ""
  }

  /** `allVoices` after `toVoices(info)` when every line is read without an exception:
      absent for a missing or empty reply. */
  function VoicesReply(info: Option<string>, newFormat: bool): Option<seq<Voice>> {
    if HasText(info) then Some(VoicesOf(JavaSplit(info.value, '\n'), newFormat)) else None
  }

  // The names of the voices, in order; Names is the same projection over data types.
  function VoiceNames(vs: seq<Voice>): (r: seq<string>)
    ensures |r| == |vs| && forall i :: 0 <= i < |vs| ==> r[i] == vs[i].name
    ensures forall x :: x in r <==> exists e :: e in vs && e.name == x
  {
    var r := seq(|vs|, i requires 0 <= i < |vs| => vs[i].name);
    assert forall e :: e in vs ==> e.name in r by {
      forall e | e in vs
        ensures e.name in r
      {
        var i :| 0 <= i < |vs| && vs[i] == e;
        assert r[i] == e.name;
      }
    }
    r
  }

  /** The voices read before an exception are a prefix of the voices of all lines. */
  lemma VoicesOfPrefix(lines: seq<string>, k: nat, newFormat: bool)
    requires k <= |lines|
    ensures VoicesOf(lines[..k], newFormat) <= VoicesOf(lines, newFormat)
  {
    var before, after := lines[..k], lines[k..];
    assert before + after == lines;
    VoicesOfAppend(before, after, newFormat);
    var vs := VoicesOf(before, newFormat);
    assert vs <= vs + VoicesOf(after, newFormat);
  }

  /** `voicesByLocaleMap` built by appending each voice to the bucket of its locale. */
  function ByLocale(vs: seq<Voice>): map<Locale, seq<Voice>> {
    if vs == [] then map[]
    else
      var m := ByLocale(vs[..|vs| - 1]);
      var v := vs[|vs| - 1];
      m[v.locale := (if v.locale in m then m[v.locale] else []) + [v]]
  }

  /** The names of the limited-domain voices among `vs`: the keys `toVoices` gives example texts. */
  function LimitedNames(vs: seq<Voice>): set<string> {
    set v | v in vs && IsLimitedDomain(v) :: v.name
  }

  /** One more voice adds its name to the limited-domain names exactly when it is limited-domain. */
  lemma LimitedNamesSnoc(vs: seq<Voice>, v: Voice)
    ensures LimitedNames(vs + [v]) == LimitedNames(vs) + (if IsLimitedDomain(v) then {v.name} else {})
  {
    var longer := vs + [v];
    assert forall w :: w in longer <==> w in vs || w == v;
    if IsLimitedDomain(v) {
      assert v in longer;
    }
  }

  /** One more voice goes at the end of the bucket of its locale. */
  lemma ByLocaleSnoc(vs: seq<Voice>, v: Voice)
    ensures var m := ByLocale(vs);
      ByLocale(vs + [v]) == m[v.locale := (if v.locale in m then m[v.locale] else []) + [v]]
  {
    assert (vs + [v])[..|vs|] == vs;
  }

  function LocaleIs(locale: Locale): Voice -> bool {
    (v: Voice) => v.locale == locale
  }

  /** Every bucket holds exactly the voices of its locale, in list order, and there is a
      bucket exactly for the locales that occur. */
  lemma {:induction false} ByLocaleBuckets(vs: seq<Voice>, locale: Locale)
    ensures locale in ByLocale(vs) <==> exists v :: v in vs && v.locale == locale
    ensures locale in ByLocale(vs) ==> ByLocale(vs)[locale] == Filter(vs, LocaleIs(locale))
  {
    if vs != [] {
      var init, last := vs[..|vs| - 1], vs[|vs| - 1];
      assert vs == init + [last];
      ByLocaleBuckets(init, locale);
      FilterMembers(init, LocaleIs(locale));
      FilterSnoc(init, last, LocaleIs(locale));
      assert LocaleIs(locale)(last) == (last.locale == locale);
      assert forall v :: v in vs <==> v in init || v == last;
      var kept := Filter(init, LocaleIs(locale));
      assert kept == [] || kept[0] in kept;
    }
  }

  // ---------------------------------------------------------------- data types

  /** One line "name [INPUT] [OUTPUT] ..." of the DATA_TYPES reply; `None` for a blank line.
      The flags may come in any order among other tokens; the name itself is never a flag. */
  function ParseDataTypeLine(line: string): Option<DataType> {
    var toks := Tokenize(line, Whitespace);
    if toks == [] then None
    else Some(DataType(toks[0], "INPUT" in toks[1..], "OUTPUT" in toks[1..]))
  }

  /** `allDataTypes`: one entry per non-blank line, in order. */
  function DataTypesOf(lines: seq<string>): seq<DataType> {
    if lines == [] then []
    else
      DataTypesOf(lines[..|lines| - 1]) +
      match ParseDataTypeLine(lines[|lines| - 1])
      case Some(d) => [d]
      case None => []
  }

  /** `allDataTypes` after `toDataTypes(info)`: absent for a missing or empty reply. */
  function DataTypesReply(info: Option<string>): Option<seq<DataType>> {
    if HasText(info) then Some(DataTypesOf(JavaSplit(info.value, '\n'))) else None
  }

  /** One more non-blank line. */
  lemma DataTypesOfSnoc(lines: seq<string>, i: nat, d: DataType)
    requires i < |lines| && ParseDataTypeLine(lines[i]) == Some(d)
    ensures DataTypesOf(lines[..i + 1]) == DataTypesOf(lines[..i]) + [d]
  {
    assert lines[..i + 1][..i] == lines[..i];
  }

  /** One more blank line. */
  lemma DataTypesOfSkip(lines: seq<string>, i: nat)
    requires i < |lines| && ParseDataTypeLine(lines[i]).None?
    ensures DataTypesOf(lines[..i + 1]) == DataTypesOf(lines[..i])
  {
    assert lines[..i + 1][..i] == lines[..i];
  }

  predicate IsInput(d: DataType) { d.isInputType }

  predicate IsOutput(d: DataType) { d.isOutputType }

  // The same projection as VoiceNames, over data types instead of voices.
  function Names(ds: seq<DataType>): (r: seq<string>)
    ensures |r| == |ds| && forall i :: 0 <= i < |ds| ==> r[i] == ds[i].name
    ensures forall x :: x in r <==> exists e :: e in ds && e.name == x
  {
    var r := seq(|ds|, i requires 0 <= i < |ds| => ds[i].name);
    assert forall e :: e in ds ==> e.name in r by {
      forall e | e in ds
        ensures e.name in r
      {
        var i :| 0 <= i < |ds| && ds[i] == e;
        assert r[i] == e.name;
      }
    }
    r
  }

  predicate IsBlank(line: string) {
    Tokenize(line, Whitespace) == []
  }

  function CountNonBlank(lines: seq<string>): nat {
    if lines == [] then 0
    else CountNonBlank(lines[..|lines| - 1]) + if IsBlank(lines[|lines| - 1]) then 0 else 1
  }

  /** Each non-blank line yields exactly one data type. */
  lemma {:induction false} DataTypesCount(lines: seq<string>)
    ensures |DataTypesOf(lines)| == CountNonBlank(lines)
  {
    if lines != [] {
      DataTypesCount(lines[..|lines| - 1]);
    }
  }

  /** The tokens a server writes for a data type: its name, then the flags it carries. */
  function DataTypeTokens(d: DataType): seq<string> {
    [d.name] + (if d.isInputType then ["INPUT"] else []) + (if d.isOutputType then ["OUTPUT"] else [])
  }

  /** The line a server writes for a data type, its tokens separated by single spaces. */
  function DataTypeLine(d: DataType): string {
    Join(DataTypeTokens(d), ' ')
  }

  function DataTypeLines(ds: seq<DataType>): (r: seq<string>)
    ensures |r| == |ds|
  {
    seq(|ds|, i requires 0 <= i < |ds| => DataTypeLine(ds[i]))
  }

  predicate IsWord(s: string) {
    s != [] && forall c :: c in s ==> c !in Whitespace
  }

  /** Reading the line written for a data type gives the data type back. */
  lemma DataTypeLineRoundTrip(d: DataType)
    requires IsWord(d.name)
    ensures ParseDataTypeLine(DataTypeLine(d)) == Some(d)
  {
    var flags := (if d.isInputType then ["INPUT"] else []) + (if d.isOutputType then ["OUTPUT"] else []);
    var toks := DataTypeTokens(d);
    assert toks == [d.name] + flags;
    assert "INPUT" == ['I', 'N', 'P', 'U', 'T'] && "OUTPUT" == ['O', 'U', 'T', 'P', 'U', 'T'];
    assert forall t :: t in toks ==> t != [] && forall c :: c in t ==> c !in Whitespace;
    TokenizeJoin(toks, ' ', Whitespace);
    assert toks[1..] == flags;
  }

  /** Reading the lines written for a list of data types gives the list back. */
  lemma {:induction false} DataTypesRoundTrip(ds: seq<DataType>)
    requires forall d :: d in ds ==> IsWord(d.name)
    ensures DataTypesOf(DataTypeLines(ds)) == ds
  {
    if ds != [] {
      var init := ds[..|ds| - 1];
      assert DataTypeLines(ds)[..|ds| - 1] == DataTypeLines(init);
      DataTypesRoundTrip(init);
      DataTypeLineRoundTrip(ds[|ds| - 1]);
    }
  }

  /** A DATA_TYPES reply written line by line is split back into those lines. */
  lemma LinesOfReply(lines: seq<string>)
    requires lines != [] && lines[|lines| - 1] != ""
    requires forall l :: l in lines ==> '\n' !in l
    ensures Join(lines, '\n') != ""
    ensures JavaSplit(Join(lines, '\n'), '\n') == lines
  {
    SplitOnJoin(lines, '\n');
    assert SplitOn("", '\n') == [""];
  }

  // ---------------------------------------------------------------- audio formats

  /** The type name of an "extension name" entry: the text after the first space. */
  function TypeName(entry: string): string {
    AfterFirst(entry, ' ')
  }

  /** The out-types one supported format contributes: always "_FILE", "_STREAM" for MP3 only. */
  function OutTypesFor(typeName: string): seq<string> {
    [typeName + "_FILE"] + if typeName == "MP3" then [typeName + "_STREAM"] else []
  }

  function OutTypesOf(formats: seq<string>): seq<string> {
    if formats == [] then []
    else OutTypesOf(formats[..|formats| - 1]) + OutTypesFor(TypeName(formats[|formats| - 1]))
  }

  /** The out-types of one more format. */
  lemma OutTypesOfSnoc(formats: seq<string>, f: string)
    ensures OutTypesOf(formats + [f]) == OutTypesOf(formats) + OutTypesFor(TypeName(f))
  {
    assert (formats + [f])[..|formats|] == formats;
  }

  function CountMP3(formats: seq<string>): nat {
    if formats == [] then 0
    else CountMP3(formats[..|formats| - 1]) + if TypeName(formats[|formats| - 1]) == "MP3" then 1 else 0
  }

  function IsSupportedEntry(supported: string -> bool): string -> bool {
    (e: string) => supported(TypeName(e))
  }

  /** The entries `toAudioFileFormatAndOutTypes` keeps, in order. */
  function SupportedEntries(entries: seq<string>, supported: string -> bool): seq<string> {
    Filter(entries, IsSupportedEntry(supported))
  }

  /** The supported entries of one more entry of the reply. */
  lemma SupportedEntriesSnoc(entries: seq<string>, i: nat, supported: string -> bool)
    requires i < |entries|
    ensures SupportedEntries(entries[..i + 1], supported) ==
      SupportedEntries(entries[..i], supported) + if supported(TypeName(entries[i])) then [entries[i]] else []
  {
    assert entries[..i + 1] == entries[..i] + [entries[i]];
    FilterSnoc(entries[..i], entries[i], IsSupportedEntry(supported));
  }

  function TypeNames(entries: seq<string>): (r: seq<string>)
    ensures |r| == |entries| && forall i :: 0 <= i < |entries| ==> r[i] == TypeName(entries[i])
  {
    seq(|entries|, i requires 0 <= i < |entries| => TypeName(entries[i]))
  }

  /** `audioFileFormatTypes` after `toAudioFileFormatAndOutTypes`, given the entries of the
      reply: the supported entries, absent when there are none. */
  function FormatsReply(entries: seq<string>, supported: string -> bool): Option<seq<string>> {
    var kept := SupportedEntries(entries, supported);
    if kept == [] then None else Some(kept)
  }

  /** There is one out-type per format plus one per MP3 format. */
  lemma {:induction false} OutTypesCount(formats: seq<string>)
    ensures |OutTypesOf(formats)| == |formats| + CountMP3(formats)
  {
    if formats != [] {
      OutTypesCount(formats[..|formats| - 1]);
    }
  }

  /** A "_FILE" out-type never looks like a stream. */
  lemma FileIsNotStream(t: string)
    ensures !EndsWith(t + "_FILE", "_STREAM") && t + "_FILE" != "MP3_STREAM"
  {
    var f := t + "_FILE";
    assert f[|f| - 1] == 'E';
    assert "MP3_STREAM"[9] == 'M';
  }

  /** The only streaming out-type of one format is "MP3_STREAM". */
  lemma StreamFor(t: string)
    ensures forall o :: o in OutTypesFor(t) && EndsWith(o, "_STREAM") ==> o == "MP3_STREAM"
  {
    FileIsNotStream(t);
    if t == "MP3" {
      assert OutTypesFor(t)[1] == "MP3_STREAM";
      assert OutTypesFor(t) == [t + "_FILE", OutTypesFor(t)[1]];
    } else {
      assert OutTypesFor(t) == [t + "_FILE"];
    }
  }

  /** The only streaming out-type is "MP3_STREAM". */
  lemma {:induction false} StreamOnlyForMP3(formats: seq<string>)
    ensures forall o :: o in OutTypesOf(formats) && EndsWith(o, "_STREAM") ==> o == "MP3_STREAM"
  {
    if formats != [] {
      var init := formats[..|formats| - 1];
      StreamOnlyForMP3(init);
      StreamFor(TypeName(formats[|formats| - 1]));
    }
  }

  /** One format offers "MP3_STREAM" exactly when its type is MP3. */
  lemma MP3StreamFor(t: string)
    ensures "MP3_STREAM" in OutTypesFor(t) <==> t == "MP3"
  {
    FileIsNotStream(t);
    if t == "MP3" {
      assert OutTypesFor(t)[1] == "MP3_STREAM";
    } else {
      assert OutTypesFor(t) == [t + "_FILE"];
    }
  }

  /** "MP3_STREAM" is offered exactly when an MP3 format is. */
  lemma {:induction false} StreamOfferedForMP3(formats: seq<string>)
    ensures "MP3_STREAM" in OutTypesOf(formats) <==> exists f :: f in formats && TypeName(f) == "MP3"
  {
    if formats != [] {
      var init := formats[..|formats| - 1];
      var last := formats[|formats| - 1];
      StreamOfferedForMP3(init);
      MP3StreamFor(TypeName(last));
      assert formats == init + [last];
      if f :| f in formats && TypeName(f) == "MP3" {
        if f in init {
          assert "MP3_STREAM" in OutTypesOf(init);
        } else {
          assert f == last;
        }
      }
      if "MP3_STREAM" in OutTypesOf(init) {
        var f :| f in init && TypeName(f) == "MP3";
        assert f in formats;
      }
    }
  }

  // ---------------------------------------------------------------- domain voices

  function InDomain(limited: bool): Voice -> bool {
    (v: Voice) => IsLimitedDomain(v) == limited
  }

  /** `getGeneralDomainVoices` (limited = false) and `getLimitedDomainVoices` (limited = true):
      the matching voices in order, or `None` when none match. */
  function DomainVoices(vs: seq<Voice>, limited: bool): Option<seq<Voice>> {
    var r := Filter(vs, InDomain(limited));
    if r == [] then None else Some(r)
  }

  /** Every voice is either general or limited-domain: the two filters split the list. */
  lemma {:induction false} DomainsPartition(vs: seq<Voice>)
    ensures |Filter(vs, InDomain(true))| + |Filter(vs, InDomain(false))| == |vs|
  {
    if vs != [] {
      DomainsPartition(vs[..|vs| - 1]);
    }
  }

  /** The loop of the four domain filters. */
  method FilterDomain(vs: seq<Voice>, limited: bool) returns (r: Option<seq<Voice>>)
    ensures r == DomainVoices(vs, limited)
  {
    var kept: seq<Voice> := [];
    var i := 0;
    while i < |vs|
      invariant 0 <= i <= |vs|
      invariant kept == Filter(vs[..i], InDomain(limited))
    {
      assert vs[..i + 1][..i] == vs[..i];
      if IsLimitedDomain(vs[i]) == limited {
        kept := kept + [vs[i]];
      }
      i := i + 1;
    }
    assert vs[..i] == vs;
    r := if kept == [] then None else Some(kept);
  }
}
