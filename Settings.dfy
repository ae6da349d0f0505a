/**
  The plugin's settings (`CodeBlockTabsSettings`) and the pure parts of the
  settings panel: the default-title fallback and the normalisation and
  validation of a new language name.
 */
module Settings {
  import opened Text

  /** `extraLang` maps a renderer name to whether its blocks join tab groups. */
  datatype Settings = Settings(defaultTitle: string, extraLang: map<string, bool>)

  const DEFAULT_TITLE: string := "(x)"

  const DEFAULT_SETTINGS: Settings :=
    Settings(DEFAULT_TITLE, map["dataview" := true, "dataviewjs" := false])

  /** `extraLang[name]` read as a truth value: the name is a key and its flag is set. */
  predicate Enabled(extraLang: map<string, bool>, name: string)
    ensures name !in extraLang ==> !Enabled(extraLang, name)
  {
    name in extraLang && extraLang[name]
  }

  /**
    The default title stored after the user types `input`: the trimmed input,
    or the built-in default when nothing but white space remains.
   */
  function DefaultTitleFrom(input: string): (r: string)
    ensures r != [] && Trimmed(r)
    ensures Trim(input) != [] ==> r == Trim(input)
    ensures Trim(input) == [] ==> r == DEFAULT_TITLE
  {
    var title := Trim(input);
    if |title| > 0 then title else DEFAULT_TITLE
  }

  /** The key a typed language name is stored under: trimmed, then lower-cased. */
  function NormalizeName(input: string): (r: string)
    ensures Trimmed(r)
    ensures forall i :: 0 <= i < |r| ==> !IsUpper(r[i])
    ensures |r| <= |input|
    ensures |r| == |Trim(input)| && forall i :: 0 <= i < |r| ==> r[i] == LowerChar(Trim(input)[i])
  {
    LowerKeepsShape(Trim(input));
    Lower(Trim(input))
  }

  /** The add button accepts a normalised name that is non-empty and has no white space. */
  predicate ValidName(name: string)
    ensures ValidName(name) ==> Trimmed(name)
  {
    |name| > 0 && NoSpace(name)
  }

  /** Normalising a stored key gives the key back, so re-adding it hits the same entry. */
  lemma NormalizeIdempotent(input: string)
    ensures NormalizeName(NormalizeName(input)) == NormalizeName(input)
  {
    var t := Trim(input);
    var n := Lower(t);
    LowerKeepsShape(t);
    TrimOfTrimmed(n);
  }

  /**
    A name is accepted exactly when what is left after trimming is non-empty
    and contains no white space; lower-casing neither adds nor removes any.
   */
  lemma AcceptedNames(input: string)
    ensures ValidName(NormalizeName(input)) <==> Trim(input) != [] && NoSpace(Trim(input))
  {
    LowerKeepsShape(Trim(input));
  }
}
