/**
 * The text `display_results` writes into the information box: four labelled
 * lines built from the first document summary, with "N/A" for a missing
 * field. `ParseInfo` reads the four values back and is the partner of
 * `FormatInfo`.
 */
module SummaryText {
  import opened Entrez
  import opened Optional

  /** `record.get(key, 'N/A')`. */
  function Field(record: Record, key: string): string {
    if key in record then record[key] else "N/A"
  }

  /** The four values the information box shows, in order. */
  datatype InfoFields = InfoFields(title: string, organism: string, length: string, accession: string)

  function FieldsOf(record: Record): InfoFields {
    InfoFields(Field(record, "Title"), Field(record, "Organism"),
               Field(record, "Length"), Field(record, "AccessionVersion"))
  }

  /** The information text for one summary record: the four lines, each ended by a newline. */
  function FormatInfo(record: Record): string {
    var f := FieldsOf(record);
    ("Title: " + f.title) + "\n"
    + (("Organism: " + f.organism) + "\n"
    + (("Length: " + f.length + " aa") + "\n"
    + (("Accession: " + f.accession) + "\n")))
  }

  /** The first line of `s` and what follows its newline; None when `s` has no newline. */
  function NextLine(s: string): Option<(string, string)> {
    if s == [] then None
    else if s[0] == '\n' then Some(([], s[1..]))
    else match NextLine(s[1..])
      case None => None
      case Some((line, rest)) => Some(([s[0]] + line, rest))
  }

  /** The text of `line` between `prefix` and `suffix`, when it has both. */
  function Unlabel(line: string, prefix: string, suffix: string): Option<string> {
    if |line| >= |prefix| + |suffix| && line[..|prefix|] == prefix && line[|line| - |suffix|..] == suffix
    then Some(line[|prefix|..|line| - |suffix|])
    else None
  }

  /** Reads an information text back into its four values. */
  function ParseInfo(text: string): Option<InfoFields> {
    match NextLine(text)
    case None => None
    case Some((l1, r1)) =>
      match NextLine(r1)
      case None => None
      case Some((l2, r2)) =>
        match NextLine(r2)
        case None => None
        case Some((l3, r3)) =>
          match NextLine(r3)
          case None => None
          case Some((l4, r4)) =>
            var title := Unlabel(l1, "Title: ", "");
            var organism := Unlabel(l2, "Organism: ", "");
            var length := Unlabel(l3, "Length: ", " aa");
            var accession := Unlabel(l4, "Accession: ", "");
            if r4 == [] && title.Some? && organism.Some? && length.Some? && accession.Some?
            then Some(InfoFields(title.value, organism.value, length.value, accession.value))
            else None
  }

  lemma {:induction false} NextLineOf(line: string, rest: string)
    requires '\n' !in line
    ensures NextLine(line + "\n" + rest) == Some((line, rest))
  {
    if line != [] {
      var s := line + "\n" + rest;
      assert s[0] == line[0] && s[0] != '\n';
      assert s[1..] == line[1..] + "\n" + rest;
      NextLineOf(line[1..], rest);
      assert [line[0]] + line[1..] == line;
    }
  }

  lemma UnlabelOf(prefix: string, value: string, suffix: string)
    ensures Unlabel(prefix + value + suffix, prefix, suffix) == Some(value)
  {
    var line := prefix + value + suffix;
    assert line[..|prefix|] == prefix;
    assert line[|line| - |suffix|..] == suffix;
    assert line[|prefix|..|line| - |suffix|] == value;
  }

  /** Four newline-free lines, each ended by a newline, are read back as those four lines. */
  lemma ParseFourLines(l1: string, l2: string, l3: string, l4: string)
    requires '\n' !in l1 && '\n' !in l2 && '\n' !in l3 && '\n' !in l4
    ensures var title, organism := Unlabel(l1, "Title: ", ""), Unlabel(l2, "Organism: ", "");
            var length, accession := Unlabel(l3, "Length: ", " aa"), Unlabel(l4, "Accession: ", "");
            ParseInfo(l1 + "\n" + (l2 + "\n" + (l3 + "\n" + (l4 + "\n")))) ==
              if title.Some? && organism.Some? && length.Some? && accession.Some?
              then Some(InfoFields(title.value, organism.value, length.value, accession.value))
              else None
  {
    assert l4 + "\n" == l4 + "\n" + [];
    NextLineOf(l4, []);
    NextLineOf(l3, l4 + "\n");
    NextLineOf(l2, l3 + "\n" + (l4 + "\n"));
    NextLineOf(l1, l2 + "\n" + (l3 + "\n" + (l4 + "\n")));
  }

  /**
   * When no field value contains a newline, the information text holds
   * exactly four lines and they give back the record's four values, each
   * "N/A" where the record lacks the field.
   */
  lemma InfoRoundTrip(record: Record)
    requires var f := FieldsOf(record);
      '\n' !in f.title && '\n' !in f.organism && '\n' !in f.length && '\n' !in f.accession
    ensures ParseInfo(FormatInfo(record)) == Some(FieldsOf(record))
  {
    var f := FieldsOf(record);
    var l1, l2, l3, l4 := "Title: " + f.title, "Organism: " + f.organism,
                          "Length: " + f.length + " aa", "Accession: " + f.accession;
    ParseFourLines(l1, l2, l3, l4);
    UnlabelOf("Title: ", f.title, "");
    UnlabelOf("Organism: ", f.organism, "");
    UnlabelOf("Length: ", f.length, " aa");
    UnlabelOf("Accession: ", f.accession, "");
    assert l1 + "" == l1 && l2 + "" == l2 && l4 + "" == l4;
  }
}
