/** labelSchema and the defaults of useLabelForm (apps/web/src/hooks/useLabelForm.ts). */
module LabelForm {
  import opened Common
  import opened FormSchema

  datatype LabelFormData = LabelFormData(name: string, color: string)

  predicate IsHexDigit(c: char) {
    ('0' <= c <= '9') || ('a' <= c <= 'f') || ('A' <= c <= 'F')
  }

  /** The regular expression /^#[0-9A-Fa-f]{6}$/: a '#' then exactly six hex digits. */
  predicate MatchesHexColor(s: string) {
    |s| == 7 && s[0] == '#' && forall k :: 1 <= k < 7 ==> IsHexDigit(s[k])
  }

  predicate ValidLabelForm(d: LabelFormData) {
    1 <= |d.name| <= 50 && MatchesHexColor(d.color)
  }

  /** The colour's min(1) check and its regex both run, so an empty colour has two issues. */
  function LabelSchemaIssues(d: LabelFormData): (r: seq<FieldError>)
    ensures r == [] <==> ValidLabelForm(d)
    ensures d.color == "" ==> |r| >= 2
  {
    Length(d.name, 1, 50, "name", "Label name is required", "Label name must not exceed 50 characters")
    + Check(|d.color| >= 1, "color", "Color is required")
    + Check(MatchesHexColor(d.color), "color", "Invalid color format")
  }

  function ResolveLabelForm(d: LabelFormData): Resolution<LabelFormData> {
    Resolve(d, LabelSchemaIssues(d))
  }

  lemma LabelFormResolution(d: LabelFormData)
    ensures ResolveLabelForm(d).Resolved? <==> ValidLabelForm(d)
    ensures ResolveLabelForm(d).Resolved? ==> ResolveLabelForm(d).values == d
  {
  }

  /** Letter case does not matter, length does: "#3B82F6" matches, "#3b82f" and "#3b82f6a" do not. */
  lemma HexColorExamples()
    ensures MatchesHexColor("#3B82F6") && MatchesHexColor("#3b82f6")
    ensures !MatchesHexColor("#3b82f") && !MatchesHexColor("#3b82f6a") && !MatchesHexColor("3b82f6a")
    ensures !MatchesHexColor("#3b82g6")
  {
    assert "#3b82g6"[5] == 'g' && !IsHexDigit('g');
  }

  const DefaultLabelForm := LabelFormData("", "#3b82f6")

  /** The default colour is valid, and the empty default name is the only issue. */
  lemma DefaultLabelFormRejected()
    ensures MatchesHexColor(DefaultLabelForm.color)
    ensures LabelSchemaIssues(DefaultLabelForm) == [FieldError("name", "Label name is required")]
  {
  }

  /** The eight colours of the label form's palette. */
  const Palette := ["#ef4444", "#f97316", "#eab308", "#22c55e", "#3b82f6", "#a855f7", "#ec4899", "#6b7280"]

  lemma PaletteColorsValid()
    ensures forall c :: c in Palette ==> MatchesHexColor(c)
  {
  }
}
