# Enhanced card visual — a Dafny model

This project models the decision logic of a Power BI "card" visual. The card shows:

- one main measure, with an optional prefix and postfix, and a category label;
- optionally a second "progression" measure with its own label;
- a background and border drawn as a rounded rectangle.

The model covers the following parts of `src/visual.ts` and `src/settings.ts`:

- **Settings** (`Settings.dfy`): every settings record, with its default values. The ten numbered condition slots (`condition1`, `value1`, `foregroundColor1`, …) are a sequence of slot records.
- **Rule engines** (`Rules.dfy`): the main-card engine and the progression engine.
  - Each is specified as "the requested field of the lowest firing slot in 1..conditionNumbers" (`FirstFiring`, `ConditionLookup`, `ProgressionLookup`).
  - Each is implemented by a method with the source's early-returning loop, proved equal to that specification.
- **Measure resolution** (`Measures.dfy`): the single pass over the table columns.
  - It is specified per role by "the last column that supplies the role" (`LastSupplier`, `Resolved`).
  - It is implemented by a loop method whose invariants track every variable the source updates.
- **Formatting policy** (`Formatting.dfy`):
  - the display-unit code handed to the external number formatter;
  - the absolute value used for the progression measure.

  The formatter itself is a function parameter.
- **Background and border** (`CardBackground.dfy`):
  - The rounded-rectangle path is a list of SVG path commands: moveto, relative lineto `h`/`v`, relative arc `a`, closepath (section 8.3 of SVG 1.1, "Path data").
  - A method appends them in the source's order.
  - Also here: the dash pattern, the fill and the stroke colour.
- **Layout** (`Layout.dfy`): label offsets and card translations in exact `real` arithmetic. Measured element sizes are inputs.
- **Styling** (`Styling.dfy`):
  - the "rule colour or base colour" fallback of every text element;
  - the progression prefix, label and value texts, and the tooltip title;
  - the prefix and postfix spacing;
  - the write-back of a column's display name into the label settings, as a class whose methods update the stored settings in place.
- **Property pane** (`PropertyPane.dfy`):
  - the listing of settings instances per group, built by methods that push instances as the source does, proved equal to a specification function;
  - the stored-property lookup with a default.

JavaScript's `a || b` on texts is `OrElse` in `Values.dfy`: null and the empty string both count as absent. A cell is a number, a text or blank (null). The rule engines compare a probe (`Rules.Operand`):

- a number compares as itself;
- a blank cell compares as 0 under `>`, `>=`, `<` and `<=`, and never equals under `=`, as JavaScript's relational operators coerce null to 0 while `==` does not;
- an unset value or a text cell makes no comparison hold.

## Model

| member | source | states |
|---|---|---|
| Rules.Compare | src/visual.ts:863-881 | only the five operators can hold; `>=` holds exactly when the value is not below the threshold and `<=` exactly when it is not above |
| Rules.NullComparesAsZero | src/visual.ts:863-881 | a blank probe satisfies `>`, `>=`, `<`, `<=` exactly as 0 would, never `=`; an unset probe satisfies nothing |
| Rules.ConditionLookup | src/visual.ts:856-894 | null when the group is off or the field is L or P; otherwise an answer is the field of some slot in 1..conditionNumbers that fires |
| Rules.ProgressionLookup | src/visual.ts:896-938 | null when `useCondition` is off; otherwise an answer is the field of some slot in 1..conditionNumbers that fires |
| Rules.BlankValueSkipsEquality | src/visual.ts:858-891 | rules [= 0 red, >= 0 green] on a blank cell give green: the blank fails `=` but passes `>= 0` |
| Rules.FirstFiring | src/visual.ts:858-891 | the result is the lowest slot in k..n that fires: it fires, every slot below it in the range does not, and None means no slot in the range fires |
| Rules.GetCardgrpColors | src/visual.ts:856-894 | the loop returns exactly the requested field of the lowest firing slot; null when `show` is off; null for a field other than F/B |
| Rules.GetCardgrpColorsForProgression | src/visual.ts:896-938 | the same for the progression engine, gated by `useCondition`, with fields F, B, L and P |
| Rules.RulesOf | src/settings.ts:196-264 | a progression slot's comparison part is a main-card slot, element by element |
| Rules.FirstMatchWins | src/visual.ts:884-891 | when slot k is the lowest firing slot, the answer is slot k's field even if it is null and a later slot also fires |
| Rules.NoMatchIsNull | src/visual.ts:857-893 | the answer is null when the group is off, when conditionNumbers <= 0, or when no slot 1..n fires |
| Rules.ProgressionColoursFollowConditionEngine | src/visual.ts:896-938 | on colour fields, the progression engine is the main-card engine run on its slots' comparison parts |
| Rules.DefaultSlotsInert | src/settings.ts:116-172 | with default slots (threshold null), neither engine answers, whatever the switch and the slot count |
| Rules.DefaultSwitchesOff | src/settings.ts:116-118 | both groups default to 2 slots and to off, so they answer nothing by default |
| Rules.LowestSlotExample | src/visual.ts:858-891 | rules [> 100 red, > 0 yellow] on 150 give red |
| Measures.LastSupplier | src/visual.ts:106-139 | the last of the first k columns that supplies a role, or None when none does |
| Measures.ResolveMeasures | src/visual.ts:106-139 | the column scan computes, per role, the value of the last supplying column, the presence flags, and the lagging fallbacks |
| Measures.Probe | src/visual.ts:858-881 | a number cell probes as its number, a blank cell as null, a text cell or a missing value as unset |
| Measures.MainFromLastMainColumn | src/visual.ts:117-123 | main is present iff some column has the main role, and then its value and column are the last such column's |
| Measures.ConditionNeedsNumericColumn | src/visual.ts:107-113 | a condition column of a type other than numeric or integer never sets the condition value |
| Measures.FallbacksDifferByOneColumn | src/visual.ts:106-139 | without condition and progression columns, the condition value is the main value before the last column, the progression value the main value after it |
| Measures.LoneMainLeavesConditionUnset | src/visual.ts:106-139 | with a single main column, the condition value stays unset while the progression value copies the main value |
| Formatting.FormatMeasure | src/visual.ts:815-853 | the formatter is handed the value itself with one of the five unit codes: in auto mode the code `UnitCode` picks for the value (0 below 1000), and for a fixed unit a code that does not depend on the value |
| Formatting.UnitCode | src/visual.ts:815-845 | the code is one of 0, 1001, 1e6, 1e9, 1e12; the fixed settings 1, 1000, 1e6, 1e9 and 1e12 give 0, 1001, 1e6, 1e9 and 1e12 |
| Formatting.AutoUnitMonotone | src/visual.ts:817-828 | in auto mode the code never decreases as the value grows |
| Formatting.AutoUnitBelowThousandIsNone | src/visual.ts:817-828 | in auto mode a value gets code 0 exactly when it is below 1000, negatives included |
| Formatting.AutoUnitKeepsMantissaBelowThousand | src/visual.ts:817-828 | in auto mode a value from 1000 up to 1e15 divided by its unit lies in [1, 1000) |
| Formatting.FixedUnitIgnoresValue | src/visual.ts:830-845 | a fixed unit setting picks its code whatever the value |
| Formatting.UnrecognisedUnitIsThousands | src/visual.ts:815 | any other setting keeps the initial code 1001 |
| Formatting.AutoUnitExamples | src/visual.ts:817-828 | 999, 1500, 2e6, 5e9 and 3e12 get 0, 1001, 1e6, 1e9 and 1e12 |
| Formatting.Abs | src/visual.ts:799-808 | the result is non-negative, equal to the input when it is >= 0 and to its negation otherwise |
| Formatting.AbsIdempotent | src/visual.ts:799-808 | taking the magnitude twice changes nothing |
| CardBackground.CornerShape | src/visual.ts:750-780 | a corner moves the pen by its (dx, dy); a rounded corner is one arc of radius r, rotation 0, small-arc flag 0, sweep 0 exactly when inward; a square corner is the two axis strokes |
| CardBackground.TopSideMoves | src/visual.ts:757-762 | the top edge of length w - 2r and its corner move the pen by (w - r, r) |
| CardBackground.RightSideMoves | src/visual.ts:763-768 | the right edge of length h - 2r and its corner move the pen by (-r, h - r) |
| CardBackground.BottomSideMoves | src/visual.ts:769-774 | the bottom edge of length 2r - w and its corner move the pen by (r - w, -r) |
| CardBackground.LeftSideMoves | src/visual.ts:775-780 | the left edge of length 2r - h and its corner move the pen by (r, r - h) |
| CardBackground.OutlineCloses | src/visual.ts:743-781 | for every size, radius and all 16 corner and inward combinations, the relative moves after the moveto sum to (0, 0), so the contour ends at (x + r, y) |
| CardBackground.RectPathFrame | src/visual.ts:756-781 | the path is the moveto to (x + r, y), the four sides, and closepath |
| CardBackground.RectPathEnds | src/visual.ts:756-781 | the path starts with the moveto to (x + r, y) and ends with closepath |
| CardBackground.AppendSide | src/visual.ts:757-780 | appending one side as the source does yields the side's edge followed by its corner |
| CardBackground.RoundedRect | src/visual.ts:739-783 | the command-by-command build produces exactly the closed rectangle path |
| CardBackground.BackgroundPath | src/visual.ts:156-160 | the outline is drawn iff the fill or the border is shown, at the origin with size viewport - 10 |
| CardBackground.BackgroundOutlineCloses | src/visual.ts:156-160 | whenever drawn, the card outline closes |
| CardBackground.DashArray | src/visual.ts:183-193 | the custom pattern when set and non-empty, else "8 , 4" for type "1", "2 , 4" for type "2", and none exactly otherwise |
| CardBackground.DefaultStrokeIsPlain | src/settings.ts:95-113 | the border defaults to hidden, solid, radius 15, with no rounded or inward corner, so no dash pattern |
| CardBackground.BackgroundFill | src/visual.ts:166-175 | none when the fill is hidden; else the matching slot's background colour when non-empty, else the configured colour when non-empty, else none; the result is always one of these |
| CardBackground.StrokeColor | src/visual.ts:180 | the configured stroke colour, or none when it is null or empty |
| Layout.MeasuredExtents | src/visual.ts:509-518 | a missing element measures 0; content heights come from the enclosing card groups |
| Layout.AlignedX | src/visual.ts:394-411 | left: x = 0; center: the label's midpoint is the content's midpoint; right: the right edges coincide; any other alignment: x = 0 and the diagnostic flag is set |
| Layout.CategoryLabelOffset | src/visual.ts:386-412 | the category label is aligned as above on the content width, at y = contentHeight/2 + labelHeight/4 |
| Layout.ProgressionLabelOffset | src/visual.ts:457-498 | inline: x = contentWidth + marginSpace and y = 0 for every known alignment; on its own line: exactly the category label's rule |
| Layout.CornerInset | src/visual.ts:531-541 | the inset is 0.6 of the radius exactly when the background or border is drawn and one of the side's corners is set, else 0 |
| Layout.CardsX | src/visual.ts:530-575 | left: both cards at spacing plus the inset; center: each card's midpoint is the viewport's; right: each card's right edge sits at spacing plus inset from the viewport's; unassigned for any other alignment |
| Layout.Arrange | src/visual.ts:586-590 | for a known alignment each card is translated to its `CardsX` x and its `CardsY` y, the progression card only when present; for an unrecognised alignment the source writes a transform whose x is `undefined`, and the model gives no placement |
| Layout.RightMirrorsLeft | src/visual.ts:530-575 | right alignment is left alignment with the border mirrored, measured from the right edge |
| Layout.DefaultBorderHasNoInset | src/settings.ts:100-113 | with the default border no corner inset applies |
| Layout.DefaultAlignmentCentres | src/settings.ts:281-283 | the default alignment is center with spacing 10, which centres the main card |
| Layout.CardsY | src/visual.ts:577-584 | centred mode: the main card at half the viewport plus its drop, the progression card below it by the main content height (when a main value exists), the margin and the difference of the drops; default mode: the main card raised by half the progression height when a progression exists, the progression card at 0.6 of the content height plus the margin below the middle |
| Layout.CenterVerticalStacksBelowMain | src/visual.ts:578-580 | in vertically centred mode the main card ignores the progression card, and the progression card sits the content height plus the margin below it |
| Layout.DefaultModeBalances | src/visual.ts:581-583 | in the default mode the main card rises by half the progression height when a progression exists |
| Layout.HiddenLabelLowersCard | src/visual.ts:577-584 | a hidden category label lowers the main card by 0.3 of the content height |
| Styling.ConditionedColor | src/visual.ts:234-236 | the rule colour when the switch applies and the colour is non-empty, else the element's own colour |
| Styling.ElementFills | src/visual.ts:166-440 | each main-card text takes the main engine's non-empty foreground colour when its `applyTo` switch is on, else its own colour; the progression value and label do the same with the progression engine under `useCondition` and `applyTolabel`; the background takes the main engine's background answer, not gated by any `applyTo` switch |
| Styling.BackgroundIgnoresApplySwitches | src/visual.ts:166-175 | with every `applyTo` switch off, a firing slot's background colour still fills the card while the value keeps its own colour |
| Styling.DefaultRulesKeepBaseColours | src/settings.ts:116-264 | with default rule groups every element keeps its own colour and the background is the configured fill |
| Styling.ScanFeedsEngines | src/visual.ts:106-139 | the engines' probes are the last condition column's and the last progression column's cells, and unset without condition and main columns |
| Styling.BlankConditionCellFillsGreen | src/visual.ts:106-175 | a blank condition cell under [= 0 red, >= 0 green] background rules fills the card green |
| Styling.NegativeValueTurnsRed | src/visual.ts:273-275 | rule "< 0 gives red" colours the main value -50 red and 50 in its own colour |
| Styling.ProgressionPrefix | src/visual.ts:324-325 | empty without prefixes; else the matching slot's non-empty prefix, else the configured prefix text |
| Styling.ProgressionNumber | src/visual.ts:316-323 | with the absolute switch the formatted number is the magnitude, else the signed value |
| Styling.PrefixFor | src/visual.ts:324-325 | empty without prefixes; the configured prefix text without rules; with rules, the lowest firing slot's non-empty custom prefix, else the configured prefix text |
| Styling.ProgressionTexts | src/visual.ts:316-343 | the value is the prefix ("null" for a null prefix text) followed by the raw text for a text column or the formatted number; the tooltip repeats the value for a numeric column, and for a text column is the prefix followed by "undefined", or "NaN" when the prefix is null |
| Styling.NullPrefixOverTextColumn | src/visual.ts:325-343 | a null prefix text over a text column shows "null" before the text and the tooltip "NaN" |
| Styling.AbsoluteValueDropsSign | src/visual.ts:317-343 | with the absolute switch, v and -v, each probing the engine with its own signed value, display the same texts whenever the prefix rules give them the same prefix |
| Styling.SignedPrefixRuleSeesSign | src/visual.ts:318-343 | with the absolute switch and rule "< 0 gives prefix 'down '", 50 reads "up " and -50 reads "down ", both followed by the formatted 50 |
| Styling.SignedRuleOnAbsoluteValue | src/visual.ts:317-336 | the engine sees the signed value: -50 fires "< 0 gives red" while the formatter is handed 50 |
| Styling.Dx | src/visual.ts:263-269 | the spacing is the label's spacing when it is shown with text, else 0 |
| Styling.TooltipTitle | src/visual.ts:348-353 | the title is the prefix text and a space when shown, then the formatted value, then a space and the postfix text when shown |
| Styling.MainFormatted | src/visual.ts:249-257 | a formatted main value exists exactly when a main column of non-text type holds a number, and it is the formatter's text for that number under the data label's format, unit and precision |
| Styling.MainFormattedFromLastMainColumn | src/visual.ts:117-257 | after the column scan, the formatted main value is the formatter's text for the last main column's number, and none without such a column |
| Styling.BareTooltip | src/visual.ts:348-353 | without prefix and postfix the title is the formatted value |
| Styling.DefaultDecorationsAreInert | src/settings.ts:46-48 | the default prefix and postfix are hidden without text, add no spacing and leave the title bare |
| Styling.DefaultedLabel | src/visual.ts:362-364 | only a null custom label falls back to the display name; an empty one stays |
| Styling.CategoryLabelText | src/visual.ts:361-365 | a category label exists iff it is shown and a main value is present, and it is the custom label defaulted to the display name |
| Styling.ProgressionLabelText | src/visual.ts:423-428 | a progression label exists iff shown with a progression value; a non-empty slot label wins over the defaulted custom label |
| Styling.LabelFor | src/visual.ts:423-428 | the same with the slot label the progression engine answers: without rules the defaulted custom label; with rules the lowest firing slot's non-empty label, else the defaulted custom label |
| Styling.LabelStore.constructor | src/visual.ts:80-81 | the store holds the label settings it is given |
| Styling.LabelStore.ShowCategoryLabel | src/visual.ts:361-365 | returns the category label text and writes the display name into a null custom label |
| Styling.LabelStore.ShowProgressionLabel | src/visual.ts:423-428 | writes the display name into a null custom label, asks the progression engine for a label, and returns the label `LabelFor` describes |
| Styling.LabelWriteBackSticks | src/visual.ts:362-364 | the label read back from the settings after the write-back is the text shown: reading the written settings again gives that text, whatever the display name |
| Styling.DefaultLabelsShowColumnName | src/settings.ts:68-82 | both labels default to shown without custom text, so they show the column's name; inline off, margin 10 |
| PropertyPane.ReportedCount | src/visual.ts:627 | the reported count is 10 for any stored count above 10, 1 in place of 0, and the stored count otherwise |
| PropertyPane.ListConditionSettings | src/visual.ts:622-647 | header, then one instance per slot 1..n with n reset from 0 to 1 but not lowered to 10 |
| PropertyPane.ListProgressionSettings | src/visual.ts:649-699 | switches, the prefix text only with usePrefix, the format entry, then slot instances only with useCondition |
| PropertyPane.EnumerateObjectInstances | src/visual.ts:599-722 | the listing is the visual's own for its four groups and is handed over for any other group |
| PropertyPane.ConditionSlotInstancesShape | src/visual.ts:635-646 | k slot instances, the i-th carrying slot i's properties |
| PropertyPane.ProgressionSlotInstancesShape | src/visual.ts:683-697 | the same for progression slots with label and prefix |
| PropertyPane.ConditionListing | src/visual.ts:622-647 | the listing has one header reporting the clamped count and n slot entries in order |
| PropertyPane.FifteenReportsTenListsFifteen | src/visual.ts:627-646 | 15 stored slots: 10 reported, 15 listed, slots 11-15 undefined |
| PropertyPane.ZeroReportsOne | src/visual.ts:627-635 | 0 stored slots: 1 reported, 1 listed |
| PropertyPane.ProgressionListing | src/visual.ts:649-699 | the progression listing's size and order follow usePrefix and useCondition |
| PropertyPane.UnknownGroupsAreDelegated | src/visual.ts:714-721 | exactly the four known groups are listed by the visual |
| PropertyPane.GetPropertyValue | src/visual.ts:724-735 | the stored property when objects, group and property exist, else the default |
| PropertyPane.StoredNullBeatsDefault | src/visual.ts:725-733 | a stored null is returned; only an absent property falls back |

## Behaviour of the code worth knowing

- **Rule count.** The engines loop over slots 1..`conditionNumbers` as stored, without clamping it (src/visual.ts:858, 898).
  - With 0 or fewer slots, no slot is examined.
  - Slots past the tenth read as undefined and never fire.
  - Only the property pane reports a clamped count (src/visual.ts:627).
- **Automatic display unit.** The codes handed to the formatter are 0, 1001, 1e6, 1e9 and 1e12 (src/visual.ts:815-845).
- **Vertically centred mode.** The progression card's y adds the main content height only when a main value is present (src/visual.ts:578-580).
- **Unrecognised alignment.** The card x coordinates are never assigned (`Layout.CardsX` returns None). Only the labels fall back to 0, with the diagnostic (src/visual.ts:394-411, 529-575).
- **Condition fallback.** Without a condition column, the condition value is the main value as it stood before the current column was read, so a lone main column leaves the condition value unset (src/visual.ts:113-114).
- **Background colour.** The background asks the main-card engine for its background colour whether or not any `applyTo` switch is on (src/visual.ts:168).
- **Blank cells.** A blank probe fires `>`, `>=`, `<` and `<=` rules as 0 would, but not `=` (src/visual.ts:863-881).

## Left out

- Building and removing the document's elements and the d3 calls. Font family, weight, style and size attributes are not modelled.
- The measurement of elements in the document, which is modelled as input sizes.
  - The widths and heights of the groups the code measures but never uses are not modelled: the progression card's width and height, and the category label group's height.
- The external number formatter. `Formatting.FormatMeasure` takes it as a function parameter and makes no claim about its text.
- Parsing the settings from the host's data view, and the framework's own enumeration for unknown groups. The latter is the `Delegated` result.
- Rendering numbers as text: the path data, the transform strings and the font sizes. The path is a list of commands.
- IEEE-754 arithmetic. All quantities are exact reals.
- `console.error` diagnostics, which are a boolean flag on label offsets.
- The version and help contacts, which are module-level constants in the source. They are a parameter of the enumeration.
- JavaScript's coercion of a text cell in a numeric comparison. A text probe is treated as making no comparison hold, so a numeric string compared with a number is not modelled.
- Styling.MainFormatted: a blank or text cell in a main column of non-text type is handed to the external formatter by the source; the model gives no formatted value for it, as the formatter is not modelled.
- Styling.ProgressionTexts: a blank progression cell is handed to `_abs` and to the formatter as null; the model takes the progression value as a number.
- Measures.ResolveMeasures: a table with columns but no data row makes the source's read of row 0 throw during the column scan; the model requires one cell per column and does not model that failure.
- A `conditionNumbers` that is not an integer. It is modelled as an integer.
- The font-size multiplier, which only scales rendered sizes.
- The constructor and host wiring.
