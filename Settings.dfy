/**
 * The settings records of the card visual, with the default value of every field.
 * Each settings class of the source is a record here; the numbered condition
 * slots `condition{i}`, `value{i}`, ... are a sequence of slot records.
 * A colour (`Fill`) or a text that may be null is an `Option<string>`.
 */
module Settings {
  import opened Values

  /** Number of condition slots each rule group declares. */
  const MaxConditions: nat := 10

  const SegoeFont := "\"Segoe UI\", wf_segoe-ui_normal, helvetica, arial, sans-serif"
  const StandardFont := "wf_standard-font, helvetica, arial, sans-serif"

  /** Prefix and postfix decoration around the main value. */
  datatype FixLabelSettings = FixLabelSettings(
    show: bool, text: Option<string>, color: string, spacing: real,
    fontSize: real, fontFamily: string, isBold: bool, isItalic: bool)

  datatype DataLabelSettings = DataLabelSettings(
    color: string, centerVertical: bool, displayUnit: real, decimalPlaces: real,
    fontSize: real, fontFamily: string, isBold: bool, isItalic: bool)

  datatype CategoryLabelSettings = CategoryLabelSettings(
    show: bool, customLabel: Option<string>, color: string,
    fontSize: real, fontFamily: string, isBold: bool, isItalic: bool)

  datatype ProgressionLabelSettings = ProgressionLabelSettings(
    show: bool, customLabel: Option<string>, inlineBlock: bool, marginSpace: real,
    color: string, fontSize: real, fontFamily: string, isBold: bool, isItalic: bool)

  datatype FillSettings = FillSettings(show: bool, backgroundColor: Option<string>)

  /** Border of the card; strokeType "0" is solid, "1" dashed, "2" dotted. */
  datatype StrokeSettings = StrokeSettings(
    show: bool, strokeColor: Option<string>, strokeTickness: real, cornerRadius: real,
    strokeType: string, strokeArray: Option<string>,
    topLeft: bool, topRight: bool, bottomLeft: bool, bottomRight: bool,
    topLeftInward: bool, topRightInward: bool, bottomLeftInward: bool, bottomRightInward: bool)

  /** One numbered slot `condition{i}`, `value{i}`, `foregroundColor{i}`, `backgroundColor{i}`. */
  datatype ConditionSlot = ConditionSlot(
    condition: string, value: Option<real>,
    foregroundColor: Option<string>, backgroundColor: Option<string>)

  /** A progression slot: the fields of a condition slot plus `customLabel{i}` and `customPrefix{i}`. */
  datatype ProgressionSlot = ProgressionSlot(
    rule: ConditionSlot, customLabel: Option<string>, customPrefix: Option<string>)

  datatype ConditionSettings = ConditionSettings(
    show: bool, conditionNumbers: int,
    applyToDataLabel: bool, applyToCategoryLabel: bool, applyToPrefix: bool, applyToPostfix: bool,
    slots: seq<ConditionSlot>)

  datatype ProgressionSettings = ProgressionSettings(
    useCondition: bool, marginTop: real, color: string, displayUnit: real, decimalPlaces: real,
    fontSize: real, fontFamily: string, isBold: bool, isItalic: bool,
    applyTolabel: bool, displayAbsoluteValue: bool, usePrefix: bool, prefixText: Option<string>,
    conditionNumbers: int, slots: seq<ProgressionSlot>)

  datatype AboutSettings = AboutSettings(version: string, helpUrl: string, helpMail: string)

  datatype GeneralSettings = GeneralSettings(alignment: string, alignmentSpacing: real)

  /** Everything the visual reads, one record per settings group. */
  datatype VisualSettings = VisualSettings(
    prefixSettings: FixLabelSettings, postfixSettings: FixLabelSettings,
    dataLabelSettings: DataLabelSettings, categoryLabelSettings: CategoryLabelSettings,
    progressionLabelSettings: ProgressionLabelSettings,
    backgroundSettings: FillSettings, strokeSettings: StrokeSettings,
    conditionSettings: ConditionSettings, progressionSettings: ProgressionSettings,
    aboutSettings: AboutSettings, general: GeneralSettings)

  // Default values of every field.

  const DefaultFixLabel := FixLabelSettings(false, None, "#333333", 4.0, 16.0, SegoeFont, false, false)

  const DefaultDataLabel := DataLabelSettings("#333333", false, 0.0, 0.0, 27.0, StandardFont, false, false)

  const DefaultCategoryLabel := CategoryLabelSettings(true, None, "#a6a6a6", 12.0, SegoeFont, false, false)

  const DefaultProgressionLabel :=
    ProgressionLabelSettings(true, None, false, 10.0, "#a6a6a6", 10.0, SegoeFont, false, false)

  const DefaultFill := FillSettings(false, None)

  const DefaultStroke := StrokeSettings(
    false, None, 2.0, 15.0, "0", None,
    false, false, false, false,
    false, false, false, false)

  const DefaultConditionSlot := ConditionSlot(">", None, None, None)

  const DefaultProgressionSlot := ProgressionSlot(DefaultConditionSlot, None, None)

  const DefaultConditionSettings := ConditionSettings(
    false, 2, true, false, false, false,
    seq(MaxConditions, _ => DefaultConditionSlot))

  const DefaultProgressionSettings := ProgressionSettings(
    false, 0.0, "#333333", 0.0, 0.0, 27.0, StandardFont, false, false,
    false, false, false, None, 2,
    seq(MaxConditions, _ => DefaultProgressionSlot))

  const DefaultAbout := AboutSettings("", "", "")

  const DefaultGeneral := GeneralSettings("center", 10.0)

  const DefaultVisualSettings := VisualSettings(
    DefaultFixLabel, DefaultFixLabel, DefaultDataLabel, DefaultCategoryLabel,
    DefaultProgressionLabel, DefaultFill, DefaultStroke,
    DefaultConditionSettings, DefaultProgressionSettings, DefaultAbout, DefaultGeneral)
}
