/**
 * What the card shows and in which colour: the "rule colour or base colour"
 * fallbacks of every text element, the texts of the progression value and of the
 * two labels (with the write-back of the column name into the label settings),
 * the spacing before the value and the postfix, and the tooltip title.
 */
module Styling {
  import opened Values
  import opened Settings
  import opened Rules
  import opened Formatting
  import opened Measures
  import CardBackground

  // ---------------------------------------------------------------------------
  // Colours

  /**
   * An element's colour: when the rule group applies to the element, the rule
   * engine's colour, unless it is null or empty; otherwise the element's own colour.
   */
  function ConditionedColor(applies: bool, matched: Option<string>, base: string): (r: string)
    ensures !applies ==> r == base
    ensures applies && Truthy(matched) ==> r == matched.value
    ensures applies && !Truthy(matched) ==> r == base
  {
    if applies then OrElse(matched, base) else base
  }

  /** The fill of every text element of the card, and of the card's background. */
  datatype Fills = Fills(
    prefix: string, dataLabel: string, postfix: string, categoryLabel: string,
    progressionValue: string, progressionLabel: string, background: string)

  /**
   * The fills for the condition probe `cv` and the progression probe `pv`. A
   * main-card element takes the main-card engine's foreground colour when its
   * `applyTo` switch is on and the engine answers with a non-empty colour; the
   * progression value does so through `useCondition` and the progression label
   * through `applyTolabel`, both on the progression engine; otherwise an element
   * keeps its own colour. The background asks the main-card engine for its
   * background colour whatever the `applyTo` switches say.
   */
  function ElementFills(s: VisualSettings, cv: Operand, pv: Operand): (f: Fills)
    ensures var fg := ConditionLookup(cv, Foreground, s.conditionSettings);
            (if s.conditionSettings.applyToPrefix && Truthy(fg) then f.prefix == fg.value
             else f.prefix == s.prefixSettings.color) &&
            (if s.conditionSettings.applyToDataLabel && Truthy(fg) then f.dataLabel == fg.value
             else f.dataLabel == s.dataLabelSettings.color) &&
            (if s.conditionSettings.applyToPostfix && Truthy(fg) then f.postfix == fg.value
             else f.postfix == s.postfixSettings.color) &&
            (if s.conditionSettings.applyToCategoryLabel && Truthy(fg) then f.categoryLabel == fg.value
             else f.categoryLabel == s.categoryLabelSettings.color)
    ensures var pfg := ProgressionLookup(pv, Foreground, s.progressionSettings);
            (if s.progressionSettings.useCondition && Truthy(pfg) then f.progressionValue == pfg.value
             else f.progressionValue == s.progressionSettings.color) &&
            (if s.progressionSettings.applyTolabel && Truthy(pfg) then f.progressionLabel == pfg.value
             else f.progressionLabel == s.progressionLabelSettings.color)
    ensures f.background ==
            CardBackground.BackgroundFill(s.backgroundSettings, ConditionLookup(cv, Background, s.conditionSettings))
  {
    var cs := s.conditionSettings;
    var ps := s.progressionSettings;
    var fg := ConditionLookup(cv, Foreground, cs);
    var pfg := ProgressionLookup(pv, Foreground, ps);
    Fills(
      ConditionedColor(cs.applyToPrefix, fg, s.prefixSettings.color),
      ConditionedColor(cs.applyToDataLabel, fg, s.dataLabelSettings.color),
      ConditionedColor(cs.applyToPostfix, fg, s.postfixSettings.color),
      ConditionedColor(cs.applyToCategoryLabel, fg, s.categoryLabelSettings.color),
      ConditionedColor(ps.useCondition, pfg, ps.color),
      ConditionedColor(ps.applyTolabel, pfg, s.progressionLabelSettings.color),
      CardBackground.BackgroundFill(s.backgroundSettings, ConditionLookup(cv, Background, cs)))
  }

  /**
   * The background follows the lowest firing main-card slot's background colour
   * even when every `applyTo` switch is off, as long as the fill is shown.
   */
  lemma BackgroundIgnoresApplySwitches(s: VisualSettings, cv: Operand, k: int)
    requires s.backgroundSettings.show && s.conditionSettings.show
    requires !s.conditionSettings.applyToPrefix && !s.conditionSettings.applyToDataLabel
    requires !s.conditionSettings.applyToPostfix && !s.conditionSettings.applyToCategoryLabel
    requires FirstFiring(s.conditionSettings.slots, cv, 1, s.conditionSettings.conditionNumbers) == Some(k)
    requires Truthy(s.conditionSettings.slots[k - 1].backgroundColor)
    ensures ElementFills(s, cv, Unset).background == s.conditionSettings.slots[k - 1].backgroundColor.value
    ensures ElementFills(s, cv, Unset).dataLabel == s.dataLabelSettings.color
  {
  }

  /** With the default rule groups every element keeps its own colour, whatever the probes. */
  lemma DefaultRulesKeepBaseColours(s: VisualSettings, cv: Operand, pv: Operand)
    requires s.conditionSettings == DefaultConditionSettings
    requires s.progressionSettings == DefaultProgressionSettings
    ensures ElementFills(s, cv, pv) ==
            Fills(s.prefixSettings.color, s.dataLabelSettings.color, s.postfixSettings.color,
                  s.categoryLabelSettings.color, DefaultProgressionSettings.color, s.progressionLabelSettings.color,
                  CardBackground.BackgroundFill(s.backgroundSettings, None))
  {
    DefaultSwitchesOff(cv, Foreground);
    DefaultSwitchesOff(pv, Foreground);
    DefaultSwitchesOff(cv, Background);
  }

  // ---------------------------------------------------------------------------
  // Texts

  /** How JavaScript spells an optional text when it is concatenated: null reads "null". */
  function NullText(o: Option<string>): string
  {
    if o.Some? then o.value else "null"
  }

  /** How JavaScript spells a variable that may never have been assigned: "undefined". */
  function UndefinedText(o: Option<string>): string
  {
    if o.Some? then o.value else "undefined"
  }

  /**
   * The progression value's prefix: nothing when prefixes are off; else the
   * matching slot's custom prefix when it is non-empty, else the configured prefix
   * text, which may itself be null.
   */
  function ProgressionPrefix(ps: ProgressionSettings, rulePrefix: Option<string>): (r: Option<string>)
    ensures !ps.usePrefix ==> r == Some("")
    ensures ps.usePrefix && Truthy(rulePrefix) ==> r == rulePrefix
    ensures ps.usePrefix && !Truthy(rulePrefix) ==> r == ps.prefixText
  {
    if !ps.usePrefix then Some("")
    else if Truthy(rulePrefix) then rulePrefix
    else ps.prefixText
  }

  /**
   * The number the progression value is formatted from: its magnitude when the
   * absolute-value switch is on, the signed value otherwise.
   */
  function ProgressionNumber(ps: ProgressionSettings, v: real): (r: real)
    ensures ps.displayAbsoluteValue ==> r >= 0.0 && (r == v || r == -v)
    ensures !ps.displayAbsoluteValue ==> r == v
  {
    if ps.displayAbsoluteValue then Abs(v) else v
  }

  /** The formatted progression value (no text is formatted for a text column). */
  function ProgressionFormatted(fmt: Formatter, ps: ProgressionSettings, column: Column, v: real): Option<string>
  {
    if column.colType.text then None
    else Some(FormatMeasure(fmt, ProgressionNumber(ps, v), column.format, ps.displayUnit, ps.decimalPlaces))
  }

  /**
   * The prefix as the visual obtains it: the progression engine's "P" answer for
   * the probe `pv`, which wins when non-empty, else the configured prefix text.
   */
  function PrefixFor(ps: ProgressionSettings, pv: Operand): (r: Option<string>)
    ensures !ps.usePrefix ==> r == Some("")
    ensures ps.usePrefix && !ps.useCondition ==> r == ps.prefixText
    ensures ps.usePrefix && ps.useCondition ==>
              var k := FirstFiring(RulesOf(ps.slots), pv, 1, ps.conditionNumbers);
              if k.Some? && Truthy(ps.slots[k.value - 1].customPrefix) then r == ps.slots[k.value - 1].customPrefix
              else r == ps.prefixText
  {
    ProgressionPrefix(ps, ProgressionLookup(pv, Prefix, ps))
  }

  /**
   * The progression value as displayed and as its tooltip, for a numeric cell `v`
   * probed as `pv`, and `raw`, the cell as text, shown as such for a text column.
   * Both texts start with the prefix, spelled "null" when the prefix text is null,
   * except that a null prefix added to the unassigned formatted value of a text
   * column is a number addition in JavaScript, and the tooltip reads "NaN".
   */
  function ProgressionTexts(fmt: Formatter, ps: ProgressionSettings, column: Column, v: real,
                            raw: string, pv: Operand): (r: (string, string))
    ensures r.0 == NullText(PrefixFor(ps, pv)) +
              (if column.colType.text then raw
               else FormatMeasure(fmt, ProgressionNumber(ps, v), column.format, ps.displayUnit, ps.decimalPlaces))
    ensures column.colType.text && PrefixFor(ps, pv).Some? ==> r.1 == PrefixFor(ps, pv).value + "undefined"
    ensures NullText(PrefixFor(ps, pv)) <= r.0
    ensures !(PrefixFor(ps, pv).None? && column.colType.text) ==> NullText(PrefixFor(ps, pv)) <= r.1
    ensures PrefixFor(ps, pv).None? && column.colType.text ==> r.1 == "NaN"
    ensures !column.colType.text ==> r.1 == r.0
    ensures !ps.usePrefix && column.colType.text ==> r.0 == raw
    ensures !ps.usePrefix && !column.colType.text ==>
              r.0 == FormatMeasure(fmt, ProgressionNumber(ps, v), column.format, ps.displayUnit, ps.decimalPlaces)
  {
    var prefix := PrefixFor(ps, pv);
    var formatted := ProgressionFormatted(fmt, ps, column, v);
    var shown := NullText(prefix) + (if column.colType.text then raw else formatted.value);
    var tooltip := if prefix.None? && formatted.None? then "NaN" else NullText(prefix) + UndefinedText(formatted);
    assert !ps.usePrefix ==> NullText(prefix) == [] && shown == [] + (if column.colType.text then raw else formatted.value);
    (shown, tooltip)
  }

  /**
   * With the absolute-value switch on, a value and its negation display the same
   * texts whenever the prefix rules give both the same prefix; the engine itself
   * is probed with the signed value.
   */
  lemma AbsoluteValueDropsSign(fmt: Formatter, ps: ProgressionSettings, column: Column, v: real, raw: string)
    requires ps.displayAbsoluteValue
    requires PrefixFor(ps, Num(v)) == PrefixFor(ps, Num(-v))
    ensures ProgressionTexts(fmt, ps, column, v, raw, Num(v)) == ProgressionTexts(fmt, ps, column, -v, raw, Num(-v))
  {
    assert ProgressionNumber(ps, v) == ProgressionNumber(ps, -v);
  }

  /**
   * The prefix rules see the sign the formatter drops: with the absolute switch on
   * and rule "< 0 gives prefix 'down '", 50 reads "up " and -50 reads "down ",
   * each followed by the formatted magnitude 50.
   */
  lemma SignedPrefixRuleSeesSign(fmt: Formatter, column: Column)
    requires !column.colType.text
    ensures var ps := DefaultProgressionSettings.(usePrefix := true, useCondition := true,
               displayAbsoluteValue := true, prefixText := Some("up "), conditionNumbers := 1,
               slots := [ProgressionSlot(ConditionSlot("<", Some(0.0), None, None), None, Some("down "))]);
            var f := FormatMeasure(fmt, 50.0, column.format, ps.displayUnit, ps.decimalPlaces);
            ProgressionTexts(fmt, ps, column, 50.0, "", Num(50.0)).0 == "up " + f &&
            ProgressionTexts(fmt, ps, column, -50.0, "", Num(-50.0)).0 == "down " + f
  {
    var ps := DefaultProgressionSettings.(usePrefix := true, useCondition := true,
               displayAbsoluteValue := true, prefixText := Some("up "), conditionNumbers := 1,
               slots := [ProgressionSlot(ConditionSlot("<", Some(0.0), None, None), None, Some("down "))]);
    assert !Fires(RulesOf(ps.slots), Num(50.0), 1);
    assert FirstFiring(RulesOf(ps.slots), Num(50.0), 1, 1) == None;
    assert Fires(RulesOf(ps.slots), Num(-50.0), 1);
  }

  /**
   * A negative progression value with the absolute switch on: rule "< 0 gives red"
   * colours it red, and the formatter is handed its magnitude 50.
   */
  lemma SignedRuleOnAbsoluteValue(fmt: Formatter, column: Column)
    requires !column.colType.text
    ensures var ps := DefaultProgressionSettings.(useCondition := true, displayAbsoluteValue := true,
               conditionNumbers := 1,
               slots := [ProgressionSlot(ConditionSlot("<", Some(0.0), Some("red"), None), None, None)]);
            ProgressionLookup(Num(-50.0), Foreground, ps) == Some("red") &&
            ProgressionFormatted(fmt, ps, column, -50.0) ==
              Some(fmt(50.0, column.format, UnitCode(ps.displayUnit, 50.0), ps.decimalPlaces))
  {
    var ps := DefaultProgressionSettings.(useCondition := true, displayAbsoluteValue := true,
               conditionNumbers := 1,
               slots := [ProgressionSlot(ConditionSlot("<", Some(0.0), Some("red"), None), None, None)]);
    assert Fires(RulesOf(ps.slots), Num(-50.0), 1);
  }

  /** A null prefix text over a text column: the value reads "null" and its text, the tooltip "NaN". */
  lemma NullPrefixOverTextColumn(fmt: Formatter, ps: ProgressionSettings, column: Column, v: real, raw: string)
    requires ps.usePrefix && !ps.useCondition && ps.prefixText.None? && column.colType.text
    ensures ProgressionTexts(fmt, ps, column, v, raw, Unset) == ("null" + raw, "NaN")
  {
  }

  /**
   * The spacing before the value (driven by the prefix) and before the postfix:
   * the label's spacing when the label is shown with a non-null text, else 0.
   */
  function Dx(fix: FixLabelSettings): (r: real)
    ensures fix.show && fix.text.Some? ==> r == fix.spacing
    ensures !(fix.show && fix.text.Some?) ==> r == 0.0
  {
    if fix.show && fix.text.Some? then fix.spacing else 0.0
  }

  /**
   * The main card's tooltip: the prefix text and a space when the prefix is shown,
   * the formatted main value, a space and the postfix text when the postfix is shown.
   */
  function TooltipTitle(prefix: FixLabelSettings, formatted: Option<string>, postfix: FixLabelSettings): (t: string)
    ensures var head := if prefix.show then NullText(prefix.text) + " " else "";
            var tail := if postfix.show then " " + NullText(postfix.text) else "";
            |t| == |head| + |UndefinedText(formatted)| + |tail| &&
            t[..|head|] == head && t[|head|..|t| - |tail|] == UndefinedText(formatted) && t[|t| - |tail|..] == tail
  {
    (if prefix.show then NullText(prefix.text) + " " else "") + UndefinedText(formatted) +
    (if postfix.show then " " + NullText(postfix.text) else "")
  }

  /**
   * The formatted main value: assigned only when a main column exists and its type
   * is not text; a numeric cell is formatted under the data label's unit policy.
   */
  function MainFormatted(fmt: Formatter, m: Measures, d: DataLabelSettings): (r: Option<string>)
    ensures r.Some? <==> m.mainPresent && m.mainColumn.Some? && !m.mainColumn.value.colType.text &&
                         m.mainValue.Some? && m.mainValue.value.Number?
    ensures r.Some? ==>
              r.value == fmt(m.mainValue.value.n, m.mainColumn.value.format,
                             UnitCode(d.displayUnit, m.mainValue.value.n), d.decimalPlaces)
  {
    if m.mainPresent && m.mainColumn.Some? && !m.mainColumn.value.colType.text &&
       m.mainValue.Some? && m.mainValue.value.Number?
    then Some(FormatMeasure(fmt, m.mainValue.value.n, m.mainColumn.value.format, d.displayUnit, d.decimalPlaces))
    else None
  }

  /**
   * After the column scan, the main value is formatted from the last main column's
   * cell, under that column's format and the unit the data label's setting picks
   * for it; nothing is formatted without a main column.
   */
  lemma MainFormattedFromLastMainColumn(fmt: Formatter, columns: seq<Column>, row: seq<Cell>, d: DataLabelSettings)
    requires |row| == |columns|
    ensures var k := LastSupplier(columns, Main, |columns|);
            MainFormatted(fmt, Resolved(columns, row), d) ==
              if k.Some? && !columns[k.value].colType.text && row[k.value].Number?
              then Some(fmt(row[k.value].n, columns[k.value].format,
                            UnitCode(d.displayUnit, row[k.value].n), d.decimalPlaces))
              else None
  {
  }

  /** With prefix and postfix hidden, the tooltip is the formatted value alone. */
  lemma BareTooltip(prefix: FixLabelSettings, formatted: string, postfix: FixLabelSettings)
    requires !prefix.show && !postfix.show
    ensures TooltipTitle(prefix, Some(formatted), postfix) == formatted
  {
  }

  /** The default prefix and postfix are hidden, without text, and add no spacing. */
  lemma DefaultDecorationsAreInert()
    ensures !DefaultFixLabel.show && DefaultFixLabel.text == None && Dx(DefaultFixLabel) == 0.0
    ensures forall f :: TooltipTitle(DefaultFixLabel, Some(f), DefaultFixLabel) == f
  {
  }

  // ---------------------------------------------------------------------------
  // Labels

  /** A label with no custom text falls back to the column's display name; an empty text stays. */
  function DefaultedLabel(custom: Option<string>, displayName: string): (r: string)
    ensures custom.None? ==> r == displayName
    ensures custom.Some? ==> r == custom.value
  {
    if custom.None? then displayName else custom.value
  }

  /** The category label's text: shown only with a main value; the defaulted custom label. */
  function CategoryLabelText(c: CategoryLabelSettings, dataPresent: bool, displayName: string): (r: Option<string>)
    ensures r.Some? <==> c.show && dataPresent
    ensures r.Some? ==> r.value == DefaultedLabel(c.customLabel, displayName)
  {
    if c.show && dataPresent then Some(DefaultedLabel(c.customLabel, displayName)) else None
  }

  /**
   * The progression label's text: shown only with a progression value; the
   * matching slot's custom label when non-empty, else the defaulted custom label.
   */
  function ProgressionLabelText(p: ProgressionLabelSettings, progressionPresent: bool, displayName: string,
                                ruleLabel: Option<string>): (r: Option<string>)
    ensures r.Some? <==> p.show && progressionPresent
    ensures r.Some? && Truthy(ruleLabel) ==> r.value == ruleLabel.value
    ensures r.Some? && !Truthy(ruleLabel) ==> r.value == DefaultedLabel(p.customLabel, displayName)
  {
    if p.show && progressionPresent then
      Some(if Truthy(ruleLabel) then ruleLabel.value else DefaultedLabel(p.customLabel, displayName))
    else None
  }

  /**
   * The label settings the visual writes back into: a label without custom text
   * keeps the display name it was given.
   */
  class LabelStore {
    var category: CategoryLabelSettings
    var progression: ProgressionLabelSettings

    constructor(c: CategoryLabelSettings, p: ProgressionLabelSettings)
      ensures category == c && progression == p
    {
      category := c;
      progression := p;
    }

    /** Places the category label: defaults its custom text to the display name, in place. */
    method ShowCategoryLabel(dataPresent: bool, displayName: string) returns (text: Option<string>)
      modifies this
      ensures text == CategoryLabelText(old(category), dataPresent, displayName)
      ensures category == (if text.Some? then old(category).(customLabel := text) else old(category))
      ensures progression == old(progression)
    {
      if category.show && dataPresent {
        if category.customLabel.None? {
          category := category.(customLabel := Some(displayName));
        }
        text := category.customLabel;
      } else {
        text := None;
      }
    }

    /**
     * Places the progression label: defaults its custom text, then asks the
     * progression engine for a label ("L") for the probe `pv`, which wins when non-empty.
     */
    method ShowProgressionLabel(progressionPresent: bool, displayName: string, ps: ProgressionSettings, pv: Operand)
      returns (text: Option<string>)
      modifies this
      ensures text == LabelFor(old(progression), progressionPresent, displayName, ps, pv)
      ensures progression == (if text.Some?
                              then old(progression).(customLabel := Some(DefaultedLabel(old(progression).customLabel, displayName)))
                              else old(progression))
      ensures category == old(category)
    {
      if progression.show && progressionPresent {
        if progression.customLabel.None? {
          progression := progression.(customLabel := Some(displayName));
        }
        var ruleLabel := GetCardgrpColorsForProgression(pv, Label, ps);
        if Truthy(ruleLabel) {
          text := ruleLabel;
        } else {
          text := progression.customLabel;
        }
      } else {
        text := None;
      }
    }
  }

  /**
   * The progression label as the visual obtains it: the progression engine's "L"
   * answer for the probe `pv` when rules are on and a firing slot has a non-empty
   * label, else the defaulted custom label.
   */
  function LabelFor(p: ProgressionLabelSettings, progressionPresent: bool, displayName: string,
                    ps: ProgressionSettings, pv: Operand): (r: Option<string>)
    ensures r.Some? <==> p.show && progressionPresent
    ensures r.Some? && !ps.useCondition ==> r.value == DefaultedLabel(p.customLabel, displayName)
    ensures r.Some? && ps.useCondition ==>
              var k := FirstFiring(RulesOf(ps.slots), pv, 1, ps.conditionNumbers);
              if k.Some? && Truthy(ps.slots[k.value - 1].customLabel) then r.value == ps.slots[k.value - 1].customLabel.value
              else r.value == DefaultedLabel(p.customLabel, displayName)
  {
    ProgressionLabelText(p, progressionPresent, displayName, ProgressionLookup(pv, Label, ps))
  }

  /**
   * The label read back after the write-back is the label displayed: once the
   * settings hold the defaulted text, reading them again gives that same text,
   * whatever display name comes with the reading.
   */
  lemma LabelWriteBackSticks(c: CategoryLabelSettings, name1: string, name2: string)
    requires c.show
    ensures var first := CategoryLabelText(c, true, name1);
            CategoryLabelText(c.(customLabel := first), true, name2) == first
  {
  }

  /** Both labels default to shown without custom text, so by default they show the column's name. */
  lemma DefaultLabelsShowColumnName(name: string, ruleLabel: Option<string>)
    requires !Truthy(ruleLabel)
    ensures CategoryLabelText(DefaultCategoryLabel, true, name) == Some(name)
    ensures ProgressionLabelText(DefaultProgressionLabel, true, name, ruleLabel) == Some(name)
    ensures !DefaultProgressionLabel.inlineBlock && DefaultProgressionLabel.marginSpace == 10.0
  {
  }

  /**
   * The engines are probed with the cells the column scan resolves: the last
   * condition column's cell for the main-card engine and the last progression
   * column's cell for the progression engine.
   */
  lemma ScanFeedsEngines(columns: seq<Column>, row: seq<Cell>)
    requires |row| == |columns|
    ensures var k := LastSupplier(columns, Condition, |columns|);
            k.Some? ==> Probe(Resolved(columns, row).conditionValue) == Probe(Some(row[k.value]))
    ensures var k := LastSupplier(columns, Progression, |columns|);
            k.Some? ==> Probe(Resolved(columns, row).progressionValue) == Probe(Some(row[k.value]))
    ensures LastSupplier(columns, Condition, |columns|).None? && LastSupplier(columns, Main, |columns|).None? ==>
              Probe(Resolved(columns, row).conditionValue) == Unset
  {
    var n := |columns|;
    if LastSupplier(columns, Condition, n).None? && LastSupplier(columns, Main, n).None? && n > 0 {
      assert forall j :: 0 <= j < n - 1 ==> !Supplies(columns[j], Main);
    }
  }

  /**
   * End to end: a blank cell in the condition column under rules [= 0 red, >= 0
   * green] on the background fills the card green.
   */
  lemma BlankConditionCellFillsGreen(s: VisualSettings, c: Column, pv: Operand)
    requires Supplies(c, Condition) && s.backgroundSettings.show
    requires s.conditionSettings == DefaultConditionSettings.(show := true, slots :=
               [ConditionSlot("=", Some(0.0), None, Some("red")),
                ConditionSlot(">=", Some(0.0), None, Some("green"))])
    ensures ElementFills(s, Probe(Resolved([c], [Blank]).conditionValue), pv).background == "green"
  {
    assert LastSupplier([c], Condition, 1) == Some(0);
    assert !Fires(s.conditionSettings.slots, Null, 1);
    assert Fires(s.conditionSettings.slots, Null, 2);
  }

  /** End to end: rule "< 0 gives red" on the main card colours the value of -50 red. */
  lemma NegativeValueTurnsRed(s: VisualSettings, pv: Operand)
    requires s.conditionSettings == DefaultConditionSettings.(show := true, conditionNumbers := 1,
               slots := [ConditionSlot("<", Some(0.0), Some("red"), None)])
    ensures ElementFills(s, Num(-50.0), pv).dataLabel == "red"
    ensures ElementFills(s, Num(50.0), pv).dataLabel == s.dataLabelSettings.color
  {
    assert Fires(s.conditionSettings.slots, Num(-50.0), 1);
    assert !Fires(s.conditionSettings.slots, Num(50.0), 1);
    assert FirstFiring(s.conditionSettings.slots, Num(50.0), 1, 1) == None;
  }
}
