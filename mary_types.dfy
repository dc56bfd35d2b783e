/**
  The value entities the client exchanges with the server: locales, voices, data types and
  audio-effect controls, with the locale parsing helper `string2locale` and the exceptions
  the client code can raise.
*/
module MaryTypes {
  import opened Wrappers
  import opened JavaText

  /** java.util.Locale as a (language, country, variant) triple. The Locale constructor
      lower-cases the language and upper-cases the country (ASCII). */
  datatype Locale = Locale(language: string, country: string, variant: string)

  /** A voice advertised by the server. `synthesizerType` is `None` when the line was read
      under the pre-3.5.0 layout, which never sets it. */
  datatype Voice = Voice(name: string, locale: Locale, gender: string, domain: string,
                         synthesizerType: Option<string>)

  /** A voice is limited-domain when its domain is anything but "general". */
  predicate IsLimitedDomain(v: Voice) {
    v.domain != "general"
  }

  datatype DataType = DataType(name: string, isInputType: bool, isOutputType: bool)

  /** One audio-effect control: its name, whether it is switched on, its current parameters and
      the example parameters it falls back to. */
  datatype Effect = Effect(name: string, selected: bool, params: string, exampleParams: string)

  /** The exceptions the modelled code throws itself. */
  datatype JavaException =
    | IOException(message: string)
    | NoSuchElementException
    | IndexOutOfBoundsException
    | NullPointerException

  const ExampleTextMissing := "Could not get example text from Mary server"

  /** `string2locale`: "language[_country[_variant]]" split on '_', missing parts "".
      A string with no '_'-separated token makes `nextToken` throw NoSuchElementException,
      shown here as `None`. */
  function String2Locale(s: string): (r: Option<Locale>)
    ensures r.None? <==> forall c :: c in s ==> c == '_'
  {
    var parts := Tokenize(s, {'_'});
    TokenizeNone(s, {'_'});
    if parts == [] then None
    else Some(Locale(AsciiLower(parts[0]),
                     if |parts| > 1 then AsciiUpper(parts[1]) else "",
                     if |parts| > 2 then parts[2] else ""))
  }

  /** The parts of a locale string come back as language, country and variant, with the
      parts that are not there empty. */
  lemma String2LocaleOfParts(parts: seq<string>)
    requires 1 <= |parts| <= 3
    requires forall p :: p in parts ==> p != [] && '_' !in p
    ensures String2Locale(Join(parts, '_')) ==
      Some(Locale(AsciiLower(parts[0]),
                  if |parts| > 1 then AsciiUpper(parts[1]) else "",
                  if |parts| > 2 then parts[2] else ""))
  {
    forall p | p in parts ensures p != [] && forall c :: c in p ==> c !in {'_'} {
    }
    TokenizeJoin(parts, '_', {'_'});
  }

  /** `Locale.toString()`: language, then "_country" when there is a country (or a language
      and a variant), then "_variant" when there is a variant. */
  function LocaleString(l: Locale): string {
    var hasLanguage := l.language != "";
    var hasCountry := l.country != "";
    var hasVariant := l.variant != "";
    l.language
      + (if hasCountry || (hasLanguage && hasVariant) then "_" + l.country else "")
      + (if hasVariant && (hasLanguage || hasCountry) then "_" + l.variant else "")
  }
}
