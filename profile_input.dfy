/** How the profile forms and the update-profile action turn their text
    fields into the values the profile API stores: the comma-separated skills
    field and the hourly-rate field. */
module ProfileInput {
  import opened Common
  import opened Text

  /** `skills ? skills.split(",").map(s => s.trim()).filter(s => s) : []`. */
  function SkillsFromText(text: string): (r: seq<string>)
    ensures forall i :: 0 <= i < |r| ==> IsListItem(r[i])
    ensures text == "" ==> r == []
  {
    if text == "" then [] else ParseCommaList(text)
  }

  /** The empty-field guard changes nothing: an empty field parses to no skills anyway. */
  lemma EmptyGuardRedundant(text: string)
    ensures SkillsFromText(text) == ParseCommaList(text)
  {
    if text == "" {
      ParseEmptyList();
      assert SkillsFromText(text) == [] == ParseCommaList(text);
    }
  }

  /** The skills field shown for a list (`skills.join(", ")`) reads back as the
      same list when every skill is non-empty, trimmed and comma-free. */
  lemma SkillsTextRoundTrip(skills: seq<string>)
    requires forall i :: 0 <= i < |skills| ==> IsListItem(skills[i])
    ensures SkillsFromText(JoinWith(skills, ", ")) == skills
  {
    EmptyGuardRedundant(JoinWith(skills, ", "));
    CommaListRoundTrip(skills);
  }

  /** `rate ? parseFloat(rate) : null`, with `parseFloat` given; it answers
      None for `NaN`, which `JSON.stringify` sends as `null`. */
  function RateFromText(text: string, parseFloat: string -> Option<real>): (r: Option<real>)
    ensures text == "" ==> r.None?
    ensures text != "" ==> r == parseFloat(text)
    ensures r.None? <==> text == "" || parseFloat(text).None?
  {
    if text == "" then None else parseFloat(text)
  }

  /** The rate field shown for a stored rate (`hourly_rate?.toString() || ""`). */
  function RateText(rate: Option<string>): (t: string)
    ensures rate.None? ==> t == ""
    ensures rate.Some? ==> t == rate.value
  {
    if rate.Some? then rate.value else ""
  }

  /** A stored rate read back through its field: none stays none, and a rate
      whose text is non-empty is parsed again. */
  lemma RateRoundTrip(rate: Option<string>, parseFloat: string -> Option<real>)
    ensures rate.None? ==> RateFromText(RateText(rate), parseFloat).None?
    ensures rate.Some? && rate.value != "" ==> RateFromText(RateText(rate), parseFloat) == parseFloat(rate.value)
  {
  }
}
