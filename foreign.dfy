/**
 * Values and library calls that the exporter takes from Go libraries and that
 * this model does not interpret: float64 values, compiled regular expressions,
 * text templates, and the parsing and formatting functions of the Go standard
 * library. Each library function is a field of `Env`, so every operation that
 * uses one receives it as a parameter and proves its properties for all of them.
 */
module Foreign {
  import opened Wrappers

  /** A float64 as the exporter sees it: NaN, or a number (rounding is not modelled). */
  datatype Float = NaN | Num(r: real)

  /** A compiled regular expression (regexp.MustCompile), known by its pattern. */
  datatype Regexp = Regexp(pattern: string)

  /** A parsed text/template, known by its name and source text. */
  datatype Template = Template(name: string, text: string)

  /** The library calls the core depends on. */
  datatype Env = Env(
    // strconv.ParseFloat(s, 64): None when it returns an error
    parseFloat: string -> Option<Float>,
    // (*regexp.Regexp).FindStringSubmatch: [] when there is no match,
    // otherwise the whole match followed by the capture groups
    findStringSubmatch: (Regexp, string) -> seq<string>,
    // fmt.Sprintf("%v", f) for a float64 f
    formatFloat: Float -> string,
    // time.ParseDuration: the duration in nanoseconds, None on error
    parseDuration: string -> Option<int>,
    // template.New(name).Parse(text) succeeds
    templateParses: string -> bool,
    // (*template.Template).Execute(buf, value): the text written, None on error
    executeTemplate: (Template, string) -> Option<string>,
    // fmt's %q verb on a string (strconv.Quote): double-quoted, Go-escaped
    quote: string -> string
  )
}
