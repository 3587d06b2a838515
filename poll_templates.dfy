/** Poll templates (backend/apps/polls/templates.py): the fixed catalogue of
    five templates, lookup and listing, building poll data from a template
    with optional overrides, and checking a template's option list. */
module PollTemplates {
  import opened Common

  /** One option dictionary, such as {"text": "Yes", "order": 0}, by its
      "text" and "order" entries (None when the key is absent). */
  datatype OptionSpec = OptionSpec(text: Option<string>, order: Option<int>)

  /** A poll settings dictionary. */
  type Settings = map<string, Value>

  datatype Template = Template(name: string, description: string,
                               defaultOptions: seq<OptionSpec>, settings: Settings)

  /** The option count bounds of the poll serializers. */
  const MinOptions: nat := 2
  const MaxOptions: nat := 100

  function Opt(text: string, order: int): OptionSpec {
    OptionSpec(Some(text), Some(order))
  }

  function BaseSettings(): Settings {
    map["allow_multiple_votes" := VBool(false), "show_results" := VBool(true)]
  }

  function YesNo(): Template {
    Template("Yes/No Poll", "Simple binary choice poll",
      [Opt("Yes", 0), Opt("No", 1)], BaseSettings())
  }

  function MultipleChoice(): Template {
    Template("Multiple Choice Poll", "Poll with multiple options (A/B/C/D)",
      [Opt("Option A", 0), Opt("Option B", 1), Opt("Option C", 2), Opt("Option D", 3)],
      BaseSettings())
  }

  function RatingScale(): Template {
    Template("Rating Scale Poll", "1-5 star rating poll",
      [Opt("1 Star", 0), Opt("2 Stars", 1), Opt("3 Stars", 2), Opt("4 Stars", 3), Opt("5 Stars", 4)],
      BaseSettings()["rating_scale" := VBool(true)])
  }

  function AgreementScale(): Template {
    Template("Agreement Scale Poll", "Likert scale from Strongly Disagree to Strongly Agree",
      [Opt("Strongly Disagree", 0), Opt("Disagree", 1), Opt("Neutral", 2), Opt("Agree", 3),
       Opt("Strongly Agree", 4)],
      BaseSettings()["agreement_scale" := VBool(true)])
  }

  function Ranking(): Template {
    Template("Ranking Poll", "Poll for ranking multiple items",
      [Opt("Item 1", 0), Opt("Item 2", 1), Opt("Item 3", 2), Opt("Item 4", 3), Opt("Item 5", 4)],
      BaseSettings()["ranking_poll" := VBool(true)])
  }

  /** POLL_TEMPLATES */
  function PollTemplates(): map<string, Template> {
    map["yes_no" := YesNo(), "multiple_choice" := MultipleChoice(), "rating_scale" := RatingScale(),
        "agreement_scale" := AgreementScale(), "ranking" := Ranking()]
  }

  /** The template ids. */
  const TemplateIds: set<string> :=
    {"yes_no", "multiple_choice", "rating_scale", "agreement_scale", "ranking"}

  lemma TemplateKeys()
    ensures PollTemplates().Keys == TemplateIds && |TemplateIds| == 5
  {
  }

  /** A template as the catalogue requires it: two to a hundred options, each
      with a text, and single-vote settings. */
  predicate WellShaped(t: Template) {
    MinOptions <= |t.defaultOptions| <= MaxOptions &&
    (forall i :: 0 <= i < |t.defaultOptions| ==> t.defaultOptions[i].text.Some?) &&
    "allow_multiple_votes" in t.settings && t.settings["allow_multiple_votes"] == VBool(false)
  }

  /** There are exactly five templates; each offers at least two options,
      every option has a text, and none allows multiple votes. */
  lemma CatalogueShape()
    ensures PollTemplates().Keys == TemplateIds && |TemplateIds| == 5
    ensures forall id :: id in PollTemplates() ==> WellShaped(PollTemplates()[id])
  {
    TemplateKeys();
    EachTemplateWellShaped();
    forall id | id in PollTemplates()
      ensures WellShaped(PollTemplates()[id])
    {
      TemplateAt(id);
    }
  }

  /** Every catalogue entry is one of the five templates. */
  lemma TemplateAt(id: string)
    requires id in PollTemplates()
    ensures var t := PollTemplates()[id];
      t == YesNo() || t == MultipleChoice() || t == RatingScale() || t == AgreementScale() || t == Ranking()
  {
  }

  lemma EachTemplateWellShaped()
    ensures WellShaped(YesNo()) && WellShaped(MultipleChoice()) && WellShaped(RatingScale())
    ensures WellShaped(AgreementScale()) && WellShaped(Ranking())
  {
    YesNoWellShaped();
    MultipleChoiceWellShaped();
    RatingScaleWellShaped();
    AgreementScaleWellShaped();
    RankingWellShaped();
  }

  lemma YesNoWellShaped() ensures WellShaped(YesNo()) { }
  lemma MultipleChoiceWellShaped() ensures WellShaped(MultipleChoice()) { }
  lemma RatingScaleWellShaped() ensures WellShaped(RatingScale()) { }
  lemma AgreementScaleWellShaped() ensures WellShaped(AgreementScale()) { }
  lemma RankingWellShaped() ensures WellShaped(Ranking()) { }

  /** get_template */
  function GetTemplate(templateId: string): (r: Option<Template>)
    ensures r.None? <==> templateId !in TemplateIds
    ensures r.Some? ==> r.value == PollTemplates()[templateId]
  {
    TemplateKeys();
    if templateId in PollTemplates() then Some(PollTemplates()[templateId]) else None
  }

  datatype TemplateInfo = TemplateInfo(id: string, name: string, description: string, optionCount: nat)

  /** list_templates */
  function ListTemplates(): (r: map<string, TemplateInfo>)
    ensures r.Keys == PollTemplates().Keys
    ensures forall id :: id in r ==>
      var t := PollTemplates()[id];
      r[id] == TemplateInfo(id, t.name, t.description, |t.defaultOptions|)
  {
    map id | id in PollTemplates() :: TemplateInfo(id, PollTemplates()[id].name,
      PollTemplates()[id].description, |PollTemplates()[id].defaultOptions|)
  }

  /** The poll data handed to poll creation. `startsAt` and `endsAt` stand
      for keys that are present only when a value was given. */
  datatype PollData = PollData(title: string, description: string, options: seq<OptionSpec>,
                               settings: Settings, isActive: bool,
                               startsAt: Option<int>, endsAt: Option<int>)

  /** create_poll_from_template. Start and end times are datetimes, which
      are always truthy, so "given" means present. */
  function CreatePollFromTemplate(templateId: string, title: string, description: string,
                                  customOptions: Option<seq<OptionSpec>>,
                                  customSettings: Option<Settings>,
                                  startsAt: Option<int>, endsAt: Option<int>,
                                  isActive: bool): (r: Outcome<PollData>)
    ensures r.Raised? <==> templateId !in TemplateIds
    ensures r.Raised? ==> r.message == "Invalid template ID: " + templateId
    ensures r.Ok? ==>
      var t := PollTemplates()[templateId];
      && r.value.title == title
      && r.value.isActive == isActive
      && r.value.options == (if customOptions.Some? && customOptions.value != [] then customOptions.value
                             else t.defaultOptions)
      && r.value.description == (if description != "" then description else t.description)
      && r.value.startsAt == startsAt && r.value.endsAt == endsAt
  {
    match GetTemplate(templateId)
    case None => Raised("Invalid template ID: " + templateId)
    case Some(t) =>
      var options := if customOptions.Some? && customOptions.value != [] then customOptions.value
                     else t.defaultOptions;
      var settings := if customSettings.Some? && customSettings.value != map[]
                      then t.settings + customSettings.value else t.settings;
      Ok(PollData(title, if description != "" then description else t.description,
                  options, settings, isActive, startsAt, endsAt))
  }

  /** The merged settings: every custom setting wins, every template
      setting that is not overridden is kept, and nothing else appears. */
  lemma SettingsMerge(templateId: string, title: string, description: string,
                      customOptions: Option<seq<OptionSpec>>, custom: Settings,
                      startsAt: Option<int>, endsAt: Option<int>, isActive: bool)
    requires templateId in TemplateIds
    ensures
      var r := CreatePollFromTemplate(templateId, title, description, customOptions, Some(custom),
                                      startsAt, endsAt, isActive);
      var t := PollTemplates()[templateId].settings;
      && r.Ok?
      && r.value.settings.Keys == t.Keys + custom.Keys
      && (forall k :: k in custom ==> r.value.settings[k] == custom[k])
      && (forall k :: k in t && k !in custom ==> r.value.settings[k] == t[k])
  {
  }

  /** Without custom settings, or with an empty dictionary, the poll gets the
      template's settings unchanged. */
  lemma NoCustomSettings(templateId: string, title: string, description: string,
                         customOptions: Option<seq<OptionSpec>>, customSettings: Option<Settings>,
                         startsAt: Option<int>, endsAt: Option<int>, isActive: bool)
    requires templateId in TemplateIds
    requires customSettings.None? || customSettings == Some(map[])
    ensures
      var r := CreatePollFromTemplate(templateId, title, description, customOptions, customSettings,
                                      startsAt, endsAt, isActive);
      r.Ok? && r.value.settings == PollTemplates()[templateId].settings
  {
  }

  // ---------------------------------------------------------------------
  // validate_template_options

  function TooFewMessage(n: nat): string {
    "Template must have at least " + IntToString(MinOptions) + " options. Provided: " + IntToString(n)
  }

  function TooManyMessage(n: nat): string {
    "Template cannot have more than " + IntToString(MaxOptions) + " options. Provided: " + IntToString(n)
  }

  function MissingTextMessage(i: nat): string {
    "Option " + IntToString(i) + " is missing 'text' field"
  }

  /** The index of the first option without a "text" key, if any. */
  function FirstMissingText(options: seq<OptionSpec>): (r: Option<nat>)
    ensures r.None? <==> forall i :: 0 <= i < |options| ==> options[i].text.Some?
    ensures r.Some? ==> r.value < |options| && options[r.value].text.None? &&
                        forall i :: 0 <= i < r.value ==> options[i].text.Some?
  {
    if options == [] then None
    else if options[0].text.None? then Some(0)
    else match FirstMissingText(options[1..])
         case None => None
         case Some(j) => Some(j + 1)
  }

  /** What validate_template_options returns or raises. */
  function TemplateOptionsCheck(options: seq<OptionSpec>): (r: Outcome<bool>)
    ensures r.Ok? ==> r.value
  {
    if |options| < MinOptions then Raised(TooFewMessage(|options|))
    else if |options| > MaxOptions then Raised(TooManyMessage(|options|))
    else match FirstMissingText(options)
         case Some(i) => Raised(MissingTextMessage(i))
         case None => Ok(true)
  }

  /** The options are accepted exactly when their count is within bounds and
      every option has a text; the count is checked first, then the lowest
      index lacking a text is reported. */
  lemma TemplateOptionsCheckCases(options: seq<OptionSpec>)
    ensures TemplateOptionsCheck(options).Ok? <==>
      MinOptions <= |options| <= MaxOptions && forall i :: 0 <= i < |options| ==> options[i].text.Some?
    ensures |options| < MinOptions ==> TemplateOptionsCheck(options) == Raised(TooFewMessage(|options|))
    ensures |options| > MaxOptions ==> TemplateOptionsCheck(options) == Raised(TooManyMessage(|options|))
    ensures MinOptions <= |options| <= MaxOptions ==>
      forall i :: 0 <= i < |options| && options[i].text.None? &&
                  (forall j :: 0 <= j < i ==> options[j].text.Some?) ==>
        TemplateOptionsCheck(options) == Raised(MissingTextMessage(i))
  {
    if MinOptions <= |options| <= MaxOptions {
      forall i | 0 <= i < |options| && options[i].text.None? &&
                 (forall j :: 0 <= j < i ==> options[j].text.Some?)
        ensures TemplateOptionsCheck(options) == Raised(MissingTextMessage(i))
      {
        var f := FirstMissingText(options);
        assert f.Some?;
        assert f.value == i;
      }
    }
  }

  /** validate_template_options: the loop over the options. */
  method ValidateTemplateOptions(options: seq<OptionSpec>) returns (r: Outcome<bool>)
    ensures r == TemplateOptionsCheck(options)
  {
    if |options| < MinOptions {
      return Raised(TooFewMessage(|options|));
    }
    if |options| > MaxOptions {
      return Raised(TooManyMessage(|options|));
    }
    var i := 0;
    while i < |options|
      invariant 0 <= i <= |options|
      invariant forall j :: 0 <= j < i ==> options[j].text.Some?
    {
      if options[i].text.None? {
        TemplateOptionsCheckCases(options);
        return Raised(MissingTextMessage(i));
      }
      i := i + 1;
    }
    return Ok(true);
  }

  /** Every template's own default options pass the check. */
  lemma DefaultOptionsValid(templateId: string)
    requires templateId in TemplateIds
    ensures TemplateOptionsCheck(PollTemplates()[templateId].defaultOptions) == Ok(true)
  {
    CatalogueShape();
    WellShapedOptionsPass(PollTemplates()[templateId]);
  }

  lemma WellShapedOptionsPass(t: Template)
    requires WellShaped(t)
    ensures TemplateOptionsCheck(t.defaultOptions) == Ok(true)
  {
    TemplateOptionsCheckCases(t.defaultOptions);
  }
}
