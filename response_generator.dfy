/** The response generator of backend/response_generator.py: the friendly
    message for an empty result, the context line of the language-model
    prompt, the prompt itself, and the choice between the two replies.

    The language model and the table printer (`DataFrame.to_string`) are
    parameters; only what the generator builds around them is modelled. */
module ResponseGeneration {
  import opened Wrappers
  import opened Seqs
  import opened Strings
  import opened Tables
  import opened Queries

  // ---------------------------------------------------------------------
  // No-result messages

  const YearIcon := "\U{1F50D}"
  const CountryIcon := "\U{1F30D}"
  const AthleteIcon := "\U{1F3C3}\U{200D}\U{2642}\U{FE0F}"
  const MedalIcon := "\U{1F3C5}"
  const GenericIcon := "\U{1F914}"

  function YearMessage(year: string): string {
    YearIcon + " I couldn't find any data for the year " + year + "."
  }

  function CountryMessage(country: string): string {
    CountryIcon + " No records found for " + country + " in the dataset."
  }

  function AthleteMessage(athlete: string): string {
    AthleteIcon + " Sorry, I couldn't find any athlete named '" + athlete + "' in the dataset."
  }

  function MedalMessage(medalType: string): string {
    MedalIcon + " No data found related to " + medalType + " medals."
  }

  const GenericMessage := GenericIcon + " I couldn't understand or find data for your request."

  /** `_generate_no_result_message`: the first truthy entity among year,
      country, athlete and medal type names the message; none gives the
      generic one. */
  function NoResultMessage(e: Entities): (r: string)
    ensures Truthy(e.year) ==> r == YearMessage(e.year.value)
    ensures !Truthy(e.year) && Truthy(e.country) ==> r == CountryMessage(e.country.value)
    ensures !Truthy(e.year) && !Truthy(e.country) && Truthy(e.athlete) ==> r == AthleteMessage(e.athlete.value)
    ensures !Truthy(e.year) && !Truthy(e.country) && !Truthy(e.athlete) && Truthy(e.medalType) ==>
      r == MedalMessage(e.medalType.value)
    ensures !Truthy(e.year) && !Truthy(e.country) && !Truthy(e.athlete) && !Truthy(e.medalType) ==>
      r == GenericMessage
  {
    if Truthy(e.year) then YearMessage(e.year.value)
    else if Truthy(e.country) then CountryMessage(e.country.value)
    else if Truthy(e.athlete) then AthleteMessage(e.athlete.value)
    else if Truthy(e.medalType) then MedalMessage(e.medalType.value)
    else GenericMessage
  }

  /** The message embeds the value of the entity that chose it, and starts
      with that entity's icon, so the chosen entity can be read back. */
  lemma NoResultMessageNamesEntity(e: Entities)
    ensures Truthy(e.year) ==>
      Contains(NoResultMessage(e), e.year.value) && StartsWith(NoResultMessage(e), YearIcon)
    ensures !Truthy(e.year) && Truthy(e.country) ==>
      Contains(NoResultMessage(e), e.country.value) && StartsWith(NoResultMessage(e), CountryIcon)
    ensures !Truthy(e.year) && !Truthy(e.country) && Truthy(e.athlete) ==>
      Contains(NoResultMessage(e), e.athlete.value) && StartsWith(NoResultMessage(e), AthleteIcon)
    ensures !Truthy(e.year) && !Truthy(e.country) && !Truthy(e.athlete) && Truthy(e.medalType) ==>
      Contains(NoResultMessage(e), e.medalType.value) && StartsWith(NoResultMessage(e), MedalIcon)
    ensures !Truthy(e.year) && !Truthy(e.country) && !Truthy(e.athlete) && !Truthy(e.medalType) ==>
      StartsWith(NoResultMessage(e), GenericIcon)
  {
    var r := NoResultMessage(e);
    if Truthy(e.year) {
      var v := e.year.value;
      ContainsInfix(YearIcon + " I couldn't find any data for the year ", v, ".");
      assert r[..|YearIcon|] == YearIcon;
    } else if Truthy(e.country) {
      var v := e.country.value;
      ContainsInfix(CountryIcon + " No records found for ", v, " in the dataset.");
      assert r[..|CountryIcon|] == CountryIcon;
    } else if Truthy(e.athlete) {
      var v := e.athlete.value;
      ContainsInfix(AthleteIcon + " Sorry, I couldn't find any athlete named '", v, "' in the dataset.");
      assert r[..|AthleteIcon|] == AthleteIcon;
    } else if Truthy(e.medalType) {
      var v := e.medalType.value;
      ContainsInfix(MedalIcon + " No data found related to ", v, " medals.");
      assert r[..|MedalIcon|] == MedalIcon;
    } else {
      assert r[..|GenericIcon|] == GenericIcon;
    }
  }

  // ---------------------------------------------------------------------
  // Prompt context

  /** The entities the context may mention. */
  datatype ContextField = CountryField | YearField | MedalField | CityField

  /** The context entry for one field, if the entity is present; a medal
      type of "total" has no entry and the others are title-cased. */
  function ContextEntry(e: Entities, field: ContextField): Option<string> {
    match field
    case CountryField => if Truthy(e.country) then Some("Country: " + e.country.value) else None
    case YearField => if Truthy(e.year) then Some("Year: " + e.year.value) else None
    case MedalField =>
      if Truthy(e.medalType) && e.medalType.value != "total"
      then Some("Medal Type: " + Title(e.medalType.value)) else None
    case CityField => if Truthy(e.city) then Some("Host City: " + e.city.value) else None
  }

  /** The field's entry as a list of zero or one lines. */
  function EntryLines(e: Entities, field: ContextField): seq<string> {
    match ContextEntry(e, field)
    case Some(line) => [line]
    case None => []
  }

  /** The context list of `_build_prompt`: the present entries in the fixed
      order country, year, medal type, host city. */
  function ContextLines(e: Entities): seq<string> {
    EntryLines(e, CountryField) + EntryLines(e, YearField) + EntryLines(e, MedalField) + EntryLines(e, CityField)
  }

  /** The athlete entity never reaches the context. */
  lemma ContextIgnoresAthlete(e: Entities, athlete: Option<string>)
    ensures ContextLines(e.(athlete := athlete)) == ContextLines(e)
  {
  }

  /** A medal type of "total" contributes nothing to the context. */
  lemma ContextOmitsTotal(e: Entities)
    ensures ContextLines(e.(medalType := Some("total"))) == ContextLines(e.(medalType := None))
  {
  }

  /** Any other lower-case medal type appears with its first letter capitalised. */
  lemma ContextTitleCasesMedal(e: Entities)
    requires e.medalType.Some? && e.medalType.value != "" && e.medalType.value != "total"
    requires IsLowerWord(e.medalType.value)
    ensures var m := e.medalType.value;
      "Medal Type: " + [UpperChar(m[0])] + m[1..] in ContextLines(e)
  {
    var m := e.medalType.value;
    TitleOfLowerWord(m);
    assert EntryLines(e, MedalField) == ["Medal Type: " + Title(m)];
    assert "Medal Type: " + [UpperChar(m[0])] + m[1..] == "Medal Type: " + Title(m);
  }

  /** The context text: the entries joined by ", ", or "No filters". */
  function ContextText(e: Entities): (r: string)
    ensures ContextLines(e) == [] ==> r == "No filters"
    ensures forall i :: 0 <= i < |ContextLines(e)| ==> Contains(r, ContextLines(e)[i])
  {
    var lines := ContextLines(e);
    JoinContainsParts(lines, ", ");
    if lines != [] then Join(lines, ", ") else "No filters"
  }

  /** A joined list starts with its first part. */
  lemma {:induction false} JoinStartsWithFirst(parts: seq<string>, sep: string)
    requires parts != []
    ensures StartsWith(Join(parts, sep), parts[0])
  {
    if |parts| > 1 {
      var j := Join(parts, sep);
      assert j == parts[0] + (sep + Join(parts[1..], sep));
      assert j[..|parts[0]|] == parts[0];
    }
  }

  /** The context reads "No filters" exactly when no entity gives an entry:
      every real entry starts with a label that "No filters" does not. */
  lemma NoFiltersIffNoEntries(e: Entities)
    ensures ContextText(e) == "No filters" <==>
      !Truthy(e.country) && !Truthy(e.year) && !Truthy(e.city)
      && !(Truthy(e.medalType) && e.medalType.value != "total")
  {
    var lines := ContextLines(e);
    if lines != [] {
      JoinStartsWithFirst(lines, ", ");
      assert lines[0][0] in {'C', 'Y', 'M', 'H'};
      assert Join(lines, ", ")[0] == lines[0][0];
    }
  }

  /** `_build_prompt`'s context block, built by appending entries. */
  method BuildContext(e: Entities) returns (context: seq<string>)
    ensures context == ContextLines(e)
  {
    context := [];
    if Truthy(e.country) {
      context := context + ["Country: " + e.country.value];
    }
    if Truthy(e.year) {
      context := context + ["Year: " + e.year.value];
    }
    if Truthy(e.medalType) && e.medalType.value != "total" {
      context := context + ["Medal Type: " + Title(e.medalType.value)];
    }
    if Truthy(e.city) {
      context := context + ["Host City: " + e.city.value];
    }
  }

  // ---------------------------------------------------------------------
  // Prompt and reply

  /** `_build_prompt`; `render` stands for `DataFrame.to_string(index=False)`. */
  function BuildPrompt(query: string, results: Table, e: Entities, intent: string, render: Table -> string): (p: string)
    ensures Contains(p, "Context: " + ContextText(e) + "\n")
  {
    var data := if !IsEmpty(results) then render(results) else "No results found";
    var head := "\nYou are an Olympic assistant. Based on the following data, clearly answer the user's question.\n\n"
      + "User Question: \"" + query + "\"\nIntent: " + intent + "\n";
    var tail := "\nFiltered Data:\n" + data + "\n\nAnswer:\n";
    ContainsInfix(head, "Context: " + ContextText(e) + "\n", tail);
    head + ("Context: " + ContextText(e) + "\n") + tail
  }

  /** A reply and the prompt sent to the language model, if one was. */
  datatype Reply = Reply(text: string, llmPrompt: Option<string>)

  /** `generate_response`: an empty result is answered with the no-result
      message and the language model is never asked; otherwise the model
      answers the built prompt. */
  function GenerateResponse(query: string, results: Table, e: Entities, intent: string,
                            render: Table -> string, llm: string -> string): (r: Reply)
    ensures IsEmpty(results) ==> r == Reply(NoResultMessage(e), None)
    ensures !IsEmpty(results) ==> r.llmPrompt.Some? && r.text == llm(r.llmPrompt.value)
    ensures !IsEmpty(results) ==> r.llmPrompt == Some(BuildPrompt(query, results, e, intent, render))
  {
    if IsEmpty(results) then Reply(NoResultMessage(e), None)
    else
      var prompt := BuildPrompt(query, results, e, intent, render);
      Reply(llm(prompt), Some(prompt))
  }
}
