/**
 * The strings `downloadCSV` computes before it hands the file to the
 * browser: the file name built from the template name and the date, and
 * the file content with its byte order mark.
 */
module Download {
  import opened Wrappers
  import opened JsText

  const DefaultTemplateName: string := "order-export-template"

  /** The byte order mark written before the CSV text. */
  const Bom: char := '\U{FEFF}'

  /**
   * `(storeName.value || "order-export-template").trim() || "order-export-template"`:
   * the entered name without surrounding whitespace, or the default when
   * nothing but whitespace was entered.
   */
  function TemplateName(value: Option<string>): (r: string)
    ensures r != [] && IsTrimmed(r)
  {
    var name := if value.Some? && value.value != [] then value.value else DefaultTemplateName;
    var t := Trim(name);
    if t == [] then DefaultTemplateName else t
  }

  /** A missing, empty or all-whitespace name gives the default. */
  lemma TemplateNameDefault(value: Option<string>)
    requires value.None? || AllWhitespace(value.value)
    ensures TemplateName(value) == DefaultTemplateName
  {
    if value.Some? && value.value != [] {
      TrimEmptyIff(value.value);
    } else {
      TrimOfTrimmed(DefaultTemplateName);
    }
  }

  /** Any other name is used trimmed. */
  lemma TemplateNameEntered(s: string)
    requires !AllWhitespace(s)
    ensures TemplateName(Some(s)) == Trim(s)
  {
    TrimEmptyIff(s);
  }

  /** `new Date().toISOString().slice(0, 10)`, with the time stamp given. */
  function DatePart(iso: string): (r: string)
    ensures |iso| >= 10 ==> r == iso[..10]
    ensures |iso| < 10 ==> r == iso
  {
    if |iso| >= 10 then iso[..10] else iso
  }

  /** `${templateName}-${datePart}.csv`. */
  function Filename(value: Option<string>, iso: string): string {
    TemplateName(value) + "-" + DatePart(iso) + ".csv"
  }

  /** A name, a dash, a ten-character date and `.csv`, read back by position. */
  lemma SplitFilename(name: string, date: string)
    requires |date| == 10
    ensures var f := name + "-" + date + ".csv";
      |f| == |name| + 15 && f[..|name|] == name && f[|name|] == '-'
      && f[|name| + 1..|name| + 11] == date && f[|name| + 11..] == ".csv"
  {
    var f := name + "-" + date + ".csv";
    assert f[..|name|] == name;
    assert f[|name| + 1..|name| + 11] == date;
    assert f[|name| + 11..] == ".csv";
  }

  /**
   * For an ISO time stamp the file name splits back into the template name,
   * a dash, the ten-character date and the `.csv` extension.
   */
  lemma FilenameParts(value: Option<string>, iso: string)
    requires |iso| >= 10
    ensures var n := |TemplateName(value)|; var f := Filename(value, iso);
      |f| == n + 15
      && f[..n] == TemplateName(value)
      && f[n] == '-'
      && f[n + 1..n + 11] == iso[..10]
      && f[n + 11..] == ".csv"
  {
    SplitFilename(TemplateName(value), iso[..10]);
  }

  /** The blob content: the byte order mark followed by the CSV text. */
  function FileContent(csv: string): (r: string)
    ensures |r| == |csv| + 1 && r[0] == Bom && r[1..] == csv
  {
    [Bom] + csv
  }
}
