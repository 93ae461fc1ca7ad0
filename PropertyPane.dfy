/**
 * The property pane: the instances the visual lists for one settings group when
 * the host asks which properties to show, and the lookup of a stored property
 * with a default.
 */
module PropertyPane {
  import opened Values
  import opened Settings

  /** A property value as the pane receives it. */
  datatype Value = BoolValue(b: bool) | NumberValue(x: real) | TextValue(s: string) | NullValue | UndefinedValue

  /** A property name; a numbered slot property is its stem and the slot number. */
  datatype Key = Plain(name: string) | Numbered(stem: string, index: int)

  /** One listed instance: its group, an optional display name, and its properties in order. */
  datatype Instance = Instance(objectName: string, displayName: Option<string>, properties: seq<(Key, Value)>)

  /** The listing for a group, or the hand-over to the settings framework's own listing. */
  datatype Enumeration = Instances(items: seq<Instance>) | Delegated

  function TextOrNull(o: Option<string>): Value
  {
    if o.Some? then TextValue(o.value) else NullValue
  }

  function NumberOrNull(o: Option<real>): Value
  {
    if o.Some? then NumberValue(o.value) else NullValue
  }

  /** The slot count shown in the pane: at most 10, and 1 in place of 0. */
  function ReportedCount(n: int): (r: int)
    ensures r <= MaxConditions as int
    ensures n == 0 ==> r == 1
    ensures n > MaxConditions as int ==> r == MaxConditions as int
    ensures n != 0 && n <= MaxConditions as int ==> r == n
  {
    if n > MaxConditions as int then MaxConditions as int else if n == 0 then 1 else n
  }

  /**
   * How many slot instances are listed: the count itself, which is reset to 1 when
   * it is 0 but never lowered to 10.
   */
  function ListedCount(n: int): int
  {
    if n == 0 then 1 else n
  }

  /** The properties of main-card slot `i`; a slot past the last one reads as undefined. */
  function ConditionSlotProperties(slots: seq<ConditionSlot>, i: int): seq<(Key, Value)>
  {
    if 1 <= i <= |slots| then
      var slot := slots[i - 1];
      [(Numbered("condition", i), TextValue(slot.condition)),
       (Numbered("value", i), NumberOrNull(slot.value)),
       (Numbered("foregroundColor", i), TextOrNull(slot.foregroundColor)),
       (Numbered("backgroundColor", i), TextOrNull(slot.backgroundColor))]
    else
      [(Numbered("condition", i), UndefinedValue), (Numbered("value", i), UndefinedValue),
       (Numbered("foregroundColor", i), UndefinedValue), (Numbered("backgroundColor", i), UndefinedValue)]
  }

  /** The properties of progression slot `i`: a main-card slot's plus its label and prefix. */
  function ProgressionSlotProperties(slots: seq<ProgressionSlot>, i: int): seq<(Key, Value)>
  {
    if 1 <= i <= |slots| then
      var slot := slots[i - 1];
      [(Numbered("condition", i), TextValue(slot.rule.condition)),
       (Numbered("value", i), NumberOrNull(slot.rule.value)),
       (Numbered("foregroundColor", i), TextOrNull(slot.rule.foregroundColor)),
       (Numbered("backgroundColor", i), TextOrNull(slot.rule.backgroundColor)),
       (Numbered("customLabel", i), TextOrNull(slot.customLabel)),
       (Numbered("customPrefix", i), TextOrNull(slot.customPrefix))]
    else
      [(Numbered("condition", i), UndefinedValue), (Numbered("value", i), UndefinedValue),
       (Numbered("foregroundColor", i), UndefinedValue), (Numbered("backgroundColor", i), UndefinedValue),
       (Numbered("customLabel", i), UndefinedValue), (Numbered("customPrefix", i), UndefinedValue)]
  }

  /** The instances of main-card slots 1..k, in order. */
  function ConditionSlotInstances(objectName: string, slots: seq<ConditionSlot>, k: int): seq<Instance>
    decreases k
  {
    if k <= 0 then []
    else ConditionSlotInstances(objectName, slots, k - 1) + [Instance(objectName, None, ConditionSlotProperties(slots, k))]
  }

  /** The instances of progression slots 1..k, in order. */
  function ProgressionSlotInstances(objectName: string, slots: seq<ProgressionSlot>, k: int): seq<Instance>
    decreases k
  {
    if k <= 0 then []
    else ProgressionSlotInstances(objectName, slots, k - 1) + [Instance(objectName, None, ProgressionSlotProperties(slots, k))]
  }

  function GeneralInstance(objectName: string, g: GeneralSettings): Instance
  {
    Instance(objectName, None, [(Plain("alignment"), TextValue(g.alignment)),
                                (Plain("alignmentSpacing"), NumberValue(g.alignmentSpacing))])
  }

  function ConditionHeader(objectName: string, cs: ConditionSettings): Instance
  {
    Instance(objectName, None, [(Plain("show"), BoolValue(cs.show)),
                                (Plain("conditionNumbers"), NumberValue(ReportedCount(cs.conditionNumbers) as real)),
                                (Plain("applyToDataLabel"), BoolValue(cs.applyToDataLabel)),
                                (Plain("applyToCategoryLabel"), BoolValue(cs.applyToCategoryLabel)),
                                (Plain("applyToPrefix"), BoolValue(cs.applyToPrefix)),
                                (Plain("applyToPostfix"), BoolValue(cs.applyToPostfix))])
  }

  function ProgressionSwitches(objectName: string, ps: ProgressionSettings): Instance
  {
    Instance(objectName, None, [(Plain("useCondition"), BoolValue(ps.useCondition)),
                                (Plain("marginTop"), NumberValue(ps.marginTop)),
                                (Plain("applyTolabel"), BoolValue(ps.applyTolabel)),
                                (Plain("displayAbsoluteValue"), BoolValue(ps.displayAbsoluteValue)),
                                (Plain("usePrefix"), BoolValue(ps.usePrefix))])
  }

  function ProgressionPrefixInstance(objectName: string, ps: ProgressionSettings): Instance
  {
    Instance(objectName, None, [(Plain("prefixText"), TextOrNull(ps.prefixText))])
  }

  function ProgressionFormat(objectName: string, ps: ProgressionSettings): Instance
  {
    Instance(objectName, None, [(Plain("displayUnit"), NumberValue(ps.displayUnit)),
                                (Plain("decimalPlaces"), NumberValue(ps.decimalPlaces)),
                                (Plain("fontSize"), NumberValue(ps.fontSize)),
                                (Plain("fontFamily"), TextValue(ps.fontFamily)),
                                (Plain("isBold"), BoolValue(ps.isBold)),
                                (Plain("isItalic"), BoolValue(ps.isItalic)),
                                (Plain("conditionNumbers"), NumberValue(ReportedCount(ps.conditionNumbers) as real))])
  }

  function AboutInstance(objectName: string, about: AboutSettings): Instance
  {
    Instance(objectName, Some("About"), [(Plain("version"), TextValue(about.version)),
                                         (Plain("helpUrl"), TextValue(about.helpUrl)),
                                         (Plain("helpMail"), TextValue(about.helpMail))])
  }

  /** What the pane lists for `objectName`; `about` holds the visual's version and help contacts. */
  function Enumerated(objectName: string, s: VisualSettings, about: AboutSettings): Enumeration
  {
    if objectName == "general" then
      Instances([GeneralInstance(objectName, s.general)])
    else if objectName == "conditionSettings" then
      var cs := s.conditionSettings;
      Instances([ConditionHeader(objectName, cs)] +
                ConditionSlotInstances(objectName, cs.slots, ListedCount(cs.conditionNumbers)))
    else if objectName == "progressionSettings" then
      var ps := s.progressionSettings;
      Instances([ProgressionSwitches(objectName, ps)] +
                (if ps.usePrefix then [ProgressionPrefixInstance(objectName, ps)] else []) +
                [ProgressionFormat(objectName, ps)] +
                (if ps.useCondition
                 then ProgressionSlotInstances(objectName, ps.slots, ListedCount(ps.conditionNumbers))
                 else []))
    else if objectName == "aboutSettings" then
      Instances([AboutInstance(objectName, about)])
    else Delegated
  }

  /** The main-card rule group's listing: header, then slots 1..n with n reset to 1 from 0. */
  method ListConditionSettings(objectName: string, cs: ConditionSettings) returns (settings: seq<Instance>)
    ensures settings == [ConditionHeader(objectName, cs)] +
                        ConditionSlotInstances(objectName, cs.slots, ListedCount(cs.conditionNumbers))
  {
    var conditionNumbers := cs.conditionNumbers;
    if conditionNumbers <= MaxConditions as int && conditionNumbers == 0 {
      conditionNumbers := 1;
    }
    settings := [ConditionHeader(objectName, cs)];
    var index := 1;
    while index <= conditionNumbers
      invariant 1 <= index
      invariant index <= conditionNumbers + 1 || index == 1
      invariant settings == [ConditionHeader(objectName, cs)] + ConditionSlotInstances(objectName, cs.slots, index - 1)
      decreases conditionNumbers - index
    {
      settings := settings + [Instance(objectName, None, ConditionSlotProperties(cs.slots, index))];
      index := index + 1;
    }
    assert index - 1 == (if conditionNumbers <= 0 then 0 else conditionNumbers);
  }

  /** The progression group's listing: switches, prefix text, format, then the slots when rules are used. */
  method ListProgressionSettings(objectName: string, ps: ProgressionSettings) returns (settings: seq<Instance>)
    ensures settings == [ProgressionSwitches(objectName, ps)] +
                        (if ps.usePrefix then [ProgressionPrefixInstance(objectName, ps)] else []) +
                        [ProgressionFormat(objectName, ps)] +
                        (if ps.useCondition
                         then ProgressionSlotInstances(objectName, ps.slots, ListedCount(ps.conditionNumbers))
                         else [])
  {
    var progressionConditionNumbers := ps.conditionNumbers;
    settings := [ProgressionSwitches(objectName, ps)];
    if ps.usePrefix {
      settings := settings + [ProgressionPrefixInstance(objectName, ps)];
    }
    if progressionConditionNumbers <= MaxConditions as int && progressionConditionNumbers == 0 {
      progressionConditionNumbers := 1;
    }
    settings := settings + [ProgressionFormat(objectName, ps)];
    ghost var head := settings;
    assert head == [ProgressionSwitches(objectName, ps)] +
                   (if ps.usePrefix then [ProgressionPrefixInstance(objectName, ps)] else []) +
                   [ProgressionFormat(objectName, ps)];
    if ps.useCondition {
      var index := 1;
      while index <= progressionConditionNumbers
        invariant 1 <= index
        invariant index <= progressionConditionNumbers + 1 || index == 1
        invariant settings == head + ProgressionSlotInstances(objectName, ps.slots, index - 1)
        decreases progressionConditionNumbers - index
      {
        var item := Instance(objectName, None, ProgressionSlotProperties(ps.slots, index));
        assert ProgressionSlotInstances(objectName, ps.slots, index) ==
               ProgressionSlotInstances(objectName, ps.slots, index - 1) + [item];
        settings := settings + [item];
        index := index + 1;
      }
      assert index - 1 == (if progressionConditionNumbers <= 0 then 0 else progressionConditionNumbers);
    } else {
      assert settings == head + [];
    }
  }

  /** `enumerateObjectInstances`: the visual's own listing for its four groups, else the framework's. */
  method EnumerateObjectInstances(objectName: string, s: VisualSettings, about: AboutSettings)
    returns (r: Enumeration)
    ensures r == Enumerated(objectName, s, about)
  {
    var settings: seq<Instance> := [];
    if objectName == "general" {
      settings := [GeneralInstance(objectName, s.general)];
    } else if objectName == "conditionSettings" {
      settings := ListConditionSettings(objectName, s.conditionSettings);
    } else if objectName == "progressionSettings" {
      settings := ListProgressionSettings(objectName, s.progressionSettings);
    } else if objectName == "aboutSettings" {
      settings := [AboutInstance(objectName, about)];
    }
    if |settings| > 0 {
      r := Instances(settings);
    } else {
      r := Delegated;
    }
  }

  /**
   * `getPropertyValue`: the stored property when the objects exist, hold the group,
   * and the group holds the property (even a stored null); the default otherwise.
   */
  function GetPropertyValue<T>(objects: Option<map<string, map<string, T>>>, objectName: string,
                               propertyName: string, defaultValue: T): (r: T)
    ensures objects.Some? && objectName in objects.value && propertyName in objects.value[objectName]
            ==> r == objects.value[objectName][propertyName]
    ensures !(objects.Some? && objectName in objects.value && propertyName in objects.value[objectName])
            ==> r == defaultValue
  {
    if objects.Some? && objectName in objects.value && propertyName in objects.value[objectName]
    then objects.value[objectName][propertyName]
    else defaultValue
  }

  // ---------------------------------------------------------------------------
  // Properties of the listing

  /** The k-th listed main-card slot instance carries slot k's properties. */
  lemma {:induction false} ConditionSlotInstancesShape(objectName: string, slots: seq<ConditionSlot>, k: int)
    ensures |ConditionSlotInstances(objectName, slots, k)| == (if k <= 0 then 0 else k)
    ensures forall i :: 0 <= i < |ConditionSlotInstances(objectName, slots, k)| ==>
              ConditionSlotInstances(objectName, slots, k)[i] == Instance(objectName, None, ConditionSlotProperties(slots, i + 1))
    decreases k
  {
    if k > 0 {
      ConditionSlotInstancesShape(objectName, slots, k - 1);
    }
  }

  /** The k-th listed progression slot instance carries slot k's properties. */
  lemma {:induction false} ProgressionSlotInstancesShape(objectName: string, slots: seq<ProgressionSlot>, k: int)
    ensures |ProgressionSlotInstances(objectName, slots, k)| == (if k <= 0 then 0 else k)
    ensures forall i :: 0 <= i < |ProgressionSlotInstances(objectName, slots, k)| ==>
              ProgressionSlotInstances(objectName, slots, k)[i] == Instance(objectName, None, ProgressionSlotProperties(slots, i + 1))
    decreases k
  {
    if k > 0 {
      ProgressionSlotInstancesShape(objectName, slots, k - 1);
    }
  }

  /**
   * The main-card rule group lists a header reporting the clamped count, then one
   * instance per slot 1..n, where n is the stored count (1 in place of 0), not the
   * clamped one.
   */
  lemma ConditionListing(s: VisualSettings, about: AboutSettings)
    ensures var e := Enumerated("conditionSettings", s, about);
            var n := s.conditionSettings.conditionNumbers;
            e.Instances? && |e.items| == 1 + (if n < 0 then 0 else ListedCount(n)) &&
            e.items[0].properties[1] == (Plain("conditionNumbers"), NumberValue(ReportedCount(n) as real)) &&
            forall i :: 1 <= i < |e.items| ==>
              e.items[i].properties == ConditionSlotProperties(s.conditionSettings.slots, i)
  {
    var cs := s.conditionSettings;
    ConditionSlotInstancesShape("conditionSettings", cs.slots, ListedCount(cs.conditionNumbers));
  }

  /** Fifteen stored slots: the pane reports 10 but lists 15 slot instances, slots 11 to 15 undefined. */
  lemma FifteenReportsTenListsFifteen(s: VisualSettings, about: AboutSettings)
    requires s.conditionSettings.conditionNumbers == 15 && |s.conditionSettings.slots| == 10
    ensures var e := Enumerated("conditionSettings", s, about);
            |e.items| == 16 &&
            e.items[0].properties[1] == (Plain("conditionNumbers"), NumberValue(10.0)) &&
            e.items[15].properties[0] == (Numbered("condition", 15), UndefinedValue)
  {
    ConditionListing(s, about);
  }

  /** Zero stored slots: the pane reports 1 and lists slot 1. */
  lemma ZeroReportsOne(s: VisualSettings, about: AboutSettings)
    requires s.conditionSettings.conditionNumbers == 0
    ensures var e := Enumerated("conditionSettings", s, about);
            |e.items| == 2 && e.items[0].properties[1] == (Plain("conditionNumbers"), NumberValue(1.0))
  {
    ConditionListing(s, about);
  }

  /**
   * The progression group lists its switches, the prefix text exactly when
   * prefixes are used, its format with the clamped count, and slot instances
   * exactly when rules are used.
   */
  lemma ProgressionListing(s: VisualSettings, about: AboutSettings)
    ensures var e := Enumerated("progressionSettings", s, about);
            var ps := s.progressionSettings;
            var n := ps.conditionNumbers;
            var p := if ps.usePrefix then 1 else 0;
            e.Instances? &&
            |e.items| == 2 + p + (if ps.useCondition && n >= 0 then ListedCount(n) else 0) &&
            e.items[0] == ProgressionSwitches("progressionSettings", ps) &&
            (ps.usePrefix ==> e.items[1] == ProgressionPrefixInstance("progressionSettings", ps)) &&
            e.items[1 + p] == ProgressionFormat("progressionSettings", ps) &&
            forall i :: 2 + p <= i < |e.items| ==>
              e.items[i].properties == ProgressionSlotProperties(ps.slots, i - 1 - p)
  {
    var ps := s.progressionSettings;
    ProgressionSlotInstancesShape("progressionSettings", ps.slots, ListedCount(ps.conditionNumbers));
  }

  /** Only the four groups the visual knows are listed by it; any other is handed over. */
  lemma UnknownGroupsAreDelegated(objectName: string, s: VisualSettings, about: AboutSettings)
    ensures Enumerated(objectName, s, about).Delegated? <==>
            objectName != "general" && objectName != "conditionSettings" &&
            objectName != "progressionSettings" && objectName != "aboutSettings"
  {
  }

  /** A stored null is returned as such: only an absent property falls back to the default. */
  lemma StoredNullBeatsDefault(objectName: string, propertyName: string, d: string)
    ensures GetPropertyValue(Some(map[objectName := map[propertyName := None]]), objectName, propertyName, Some(d)) == None
    ensures GetPropertyValue<Option<string>>(Some(map[objectName := map[]]), objectName, propertyName, Some(d)) == Some(d)
    ensures GetPropertyValue<Option<string>>(None, objectName, propertyName, Some(d)) == Some(d)
  {
  }
}
