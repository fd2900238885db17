/**
 * The i18n extraction builder's choice of output file: a file name derived
 * from the message format, overridden by an explicit `outFile`, and placed
 * under `outputPath` when one is given.
 */
module ExtractI18n {
  import opened Exceptions

  /** A JavaScript value of type `string | undefined`. */
  datatype OptString = Undefined | Defined(s: string)

  /** JavaScript truthiness of a `string | undefined`: defined and non-empty. */
  predicate Truthy(o: OptString)
  {
    o.Defined? && o.s != ""
  }

  /** The text `${o}` produces inside a template literal. */
  function Interpolated(o: OptString): string
  {
    match o
    case Undefined => "undefined"
    case Defined(s) => s
  }

  /** The format names the builder accepts for the XLIFF file. */
  predicate IsXliffFormat(format: string)
  {
    format == "xlf" || format == "xlif" || format == "xliff" || format == "xlf2" || format == "xliff2"
  }

  /** The format names the builder accepts at all. */
  predicate IsSupportedFormat(format: OptString)
  {
    format.Defined? && (format.s == "xmb" || IsXliffFormat(format.s))
  }

  /**
   * `getI18nOutfile`: "xmb" gives messages.xmb, the five XLIFF spellings give
   * messages.xlf, anything else (an absent format too) throws.
   */
  function I18nOutfile(format: OptString): (r: Result<string>)
    ensures r == Ok("messages.xmb") <==> format == Defined("xmb")
    ensures r == Ok("messages.xlf") <==> format.Defined? && IsXliffFormat(format.s)
    ensures r.Ok? <==> IsSupportedFormat(format)
    ensures r.Ok? ==> r.value == "messages.xmb" || r.value == "messages.xlf"
    ensures r.Err? ==> r.error == Error("Unsupported format \"" + Interpolated(format) + "\"")
  {
    match format
    case Defined("xmb") => Ok("messages.xmb")
    case Defined("xlf") => Ok("messages.xlf")
    case Defined("xlif") => Ok("messages.xlf")
    case Defined("xliff") => Ok("messages.xlf")
    case Defined("xlf2") => Ok("messages.xlf")
    case Defined("xliff2") => Ok("messages.xlf")
    case _ => Err(Error("Unsupported format \"" + Interpolated(format) + "\""))
  }

  /** `path.join(dir, file)`, taken as a plain '/'-concatenation. */
  function Join(dir: string, file: string): string
  {
    dir + "/" + file
  }

  /**
   * The `outFile` the builder hands to the compiler:
   * `options.outFile || getI18nOutfile(options.i18nFormat)`, then joined
   * under `options.outputPath` when that is truthy.
   */
  function ResolveOutFile(outFile: OptString, format: OptString, outputPath: OptString): (r: Result<string>)
    ensures r.Ok? <==> Truthy(outFile) || IsSupportedFormat(format)
    ensures r.Err? ==> r == I18nOutfile(format)
  {
    var chosen := if Truthy(outFile) then Ok(outFile.s) else I18nOutfile(format);
    match chosen
    case Err(e) => Err(e)
    case Ok(name) => Ok(if Truthy(outputPath) then Join(outputPath.s, name) else name)
  }

  /**
   * A non-empty `outFile` wins: the format is never consulted, so even an
   * unsupported one cannot make the resolution fail.
   */
  lemma ExplicitOutFileWins(outFile: string, format: OptString, outputPath: OptString)
    requires outFile != ""
    ensures ResolveOutFile(Defined(outFile), format, outputPath)
      == Ok(if Truthy(outputPath) then outputPath.s + "/" + outFile else outFile)
    ensures ResolveOutFile(Defined(outFile), format, outputPath)
      == ResolveOutFile(Defined(outFile), Undefined, outputPath)
  {
  }

  /**
   * Without a usable `outFile` (absent or empty), the resolution is the
   * `getI18nOutfile` name for the format, placed under `outputPath` when that
   * is truthy; it fails exactly when the format is unsupported, with the
   * `getI18nOutfile` error.
   */
  lemma FallbackToFormat(outFile: OptString, format: OptString, outputPath: OptString)
    requires !Truthy(outFile)
    ensures ResolveOutFile(outFile, format, outputPath).Err? <==> !IsSupportedFormat(format)
    ensures IsSupportedFormat(format) ==>
      ResolveOutFile(outFile, format, outputPath)
        == Ok(if Truthy(outputPath) then Join(outputPath.s, I18nOutfile(format).value) else I18nOutfile(format).value)
    ensures !IsSupportedFormat(format) ==>
      ResolveOutFile(outFile, format, outputPath) == Err(Error("Unsupported format \"" + Interpolated(format) + "\""))
  {
  }

  /** The file name the resolution starts from, before any `outputPath`. */
  predicate IsCandidateName(outFile: OptString, base: string)
  {
    base == "messages.xmb" || base == "messages.xlf" || (Truthy(outFile) && base == outFile.s)
  }

  /**
   * The resolved name is one of the two default names or the given
   * `outFile`, prefixed by `outputPath` and a '/' exactly when that is truthy.
   */
  lemma ResolvedNameShape(outFile: OptString, format: OptString, outputPath: OptString)
    requires ResolveOutFile(outFile, format, outputPath).Ok?
    ensures var name := ResolveOutFile(outFile, format, outputPath).value;
      if Truthy(outputPath) then
        var n := |outputPath.s| + 1;
        n <= |name| && name[..n] == outputPath.s + "/" && IsCandidateName(outFile, name[n..])
      else IsCandidateName(outFile, name)
  {
  }
}
