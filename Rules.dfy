/**
 * The two conditional rule engines of the card visual: the main-card engine over
 * the condition settings and the progression engine over the progression settings.
 * Both scan slots 1..conditionNumbers in order, skip a slot whose threshold is
 * null, and return one field of the first slot whose comparison holds.
 */
module Rules {
  import opened Values
  import opened Settings

  /** Which field of the matching slot is requested: "F", "B", "L" or "P". */
  datatype Field = Foreground | Background | Label | Prefix

  /**
   * What the engines compare against a slot's threshold: an unset value
   * (`undefined`, which no comparison accepts), a number, or a blank cell (`null`,
   * which JavaScript's relational operators read as 0 and which equals no number).
   */
  datatype Operand = Unset | Num(x: real) | Null

  /**
   * The slot's comparator on two numbers. An unknown comparator leaves the result
   * unset, which is not true.
   */
  predicate Compare(op: string, v: real, threshold: real)
    ensures Compare(op, v, threshold) ==> op == ">" || op == ">=" || op == "=" || op == "<" || op == "<="
    ensures op == ">=" ==> (Compare(op, v, threshold) <==> !(v < threshold))
    ensures op == "<=" ==> (Compare(op, v, threshold) <==> !(v > threshold))
  {
    if op == ">" then v > threshold
    else if op == ">=" then v >= threshold
    else if op == "=" then v == threshold
    else if op == "<" then v < threshold
    else if op == "<=" then v <= threshold
    else false
  }

  /** The slot's comparator applied to the probed operand. */
  predicate Holds(op: string, v: Operand, threshold: real)
  {
    match v
    case Unset => false
    case Num(x) => Compare(op, x, threshold)
    case Null => op != "=" && Compare(op, 0.0, threshold)
  }

  /**
   * Slot `k` (1-based) fires for the probe `v`: it exists, its threshold is not
   * null, and the comparison holds. Slots past the end read as `undefined` and
   * never fire.
   */
  predicate Fires(slots: seq<ConditionSlot>, v: Operand, k: int)
  {
    1 <= k <= |slots| && slots[k - 1].value.Some? &&
    Holds(slots[k - 1].condition, v, slots[k - 1].value.value)
  }

  /** The lowest slot in k..n that fires, if any. */
  function FirstFiring(slots: seq<ConditionSlot>, v: Operand, k: int, n: int): (r: Option<int>)
    ensures r.Some? ==> k <= r.value <= n && Fires(slots, v, r.value)
    ensures r.Some? ==> forall j :: k <= j < r.value ==> !Fires(slots, v, j)
    ensures r.None? ==> forall j :: k <= j <= n ==> !Fires(slots, v, j)
    decreases n - k
  {
    if k > n then None
    else if Fires(slots, v, k) then Some(k)
    else FirstFiring(slots, v, k + 1, n)
  }

  /** The requested field of a condition slot; these slots have no label or prefix. */
  function ConditionField(slot: ConditionSlot, field: Field): Option<string>
  {
    match field
    case Foreground => slot.foregroundColor
    case Background => slot.backgroundColor
    case _ => None
  }

  /** The requested field of a progression slot. */
  function ProgressionField(slot: ProgressionSlot, field: Field): Option<string>
  {
    match field
    case Foreground => slot.rule.foregroundColor
    case Background => slot.rule.backgroundColor
    case Label => slot.customLabel
    case Prefix => slot.customPrefix
  }

  /** The comparison part of each progression slot. */
  function RulesOf(slots: seq<ProgressionSlot>): (r: seq<ConditionSlot>)
    ensures |r| == |slots|
    ensures forall i :: 0 <= i < |slots| ==> r[i] == slots[i].rule
  {
    seq(|slots|, i requires 0 <= i < |slots| => slots[i].rule)
  }

  /** What the main-card engine answers for the probe `v`. */
  function ConditionLookup(v: Operand, field: Field, cs: ConditionSettings): (r: Option<string>)
    ensures !cs.show ==> r.None?
    ensures field == Label || field == Prefix ==> r.None?
    ensures r.Some? ==> exists k :: 1 <= k <= cs.conditionNumbers && Fires(cs.slots, v, k) &&
                                    r == ConditionField(cs.slots[k - 1], field)
  {
    if !cs.show then None
    else match FirstFiring(cs.slots, v, 1, cs.conditionNumbers)
      case None => None
      case Some(k) => ConditionField(cs.slots[k - 1], field)
  }

  /** What the progression engine answers for the probe `v`. */
  function ProgressionLookup(v: Operand, field: Field, ps: ProgressionSettings): (r: Option<string>)
    ensures !ps.useCondition ==> r.None?
    ensures r.Some? ==> exists k :: 1 <= k <= ps.conditionNumbers && Fires(RulesOf(ps.slots), v, k) &&
                                    r == ProgressionField(ps.slots[k - 1], field)
  {
    if !ps.useCondition then None
    else match FirstFiring(RulesOf(ps.slots), v, 1, ps.conditionNumbers)
      case None => None
      case Some(k) => ProgressionField(ps.slots[k - 1], field)
  }

  /** The main-card engine as the source runs it: a loop that returns at the first match. */
  method GetCardgrpColors(v: Operand, field: Field, cs: ConditionSettings) returns (r: Option<string>)
    ensures r == ConditionLookup(v, field, cs)
  {
    if !cs.show {
      return None;
    }
    var k := 1;
    while k <= cs.conditionNumbers
      invariant 1 <= k
      invariant forall j :: 1 <= j < k ==> !Fires(cs.slots, v, j)
      decreases cs.conditionNumbers - k
    {
      if k <= |cs.slots| && cs.slots[k - 1].value.Some? {
        var slot := cs.slots[k - 1];
        if Holds(slot.condition, v, slot.value.value) {
          assert Fires(cs.slots, v, k);
          assert FirstFiring(cs.slots, v, 1, cs.conditionNumbers) == Some(k);
          if field == Foreground {
            return slot.foregroundColor;
          } else if field == Background {
            return slot.backgroundColor;
          }
          // any other field: the loop is left and null is returned
          return None;
        }
      }
      k := k + 1;
    }
    return None;
  }

  /** The progression engine as the source runs it. */
  method GetCardgrpColorsForProgression(v: Operand, field: Field, ps: ProgressionSettings)
    returns (r: Option<string>)
    ensures r == ProgressionLookup(v, field, ps)
  {
    if !ps.useCondition {
      return None;
    }
    ghost var rules := RulesOf(ps.slots);
    var k := 1;
    while k <= ps.conditionNumbers
      invariant 1 <= k
      invariant forall j :: 1 <= j < k ==> !Fires(rules, v, j)
      decreases ps.conditionNumbers - k
    {
      if k <= |ps.slots| && ps.slots[k - 1].rule.value.Some? {
        var slot := ps.slots[k - 1];
        if Holds(slot.rule.condition, v, slot.rule.value.value) {
          assert Fires(rules, v, k);
          assert FirstFiring(rules, v, 1, ps.conditionNumbers) == Some(k);
          match field
          case Foreground => return slot.rule.foregroundColor;
          case Background => return slot.rule.backgroundColor;
          case Label => return slot.customLabel;
          case Prefix => return slot.customPrefix;
        }
      }
      k := k + 1;
    }
    return None;
  }

  // ---------------------------------------------------------------------------
  // Properties of the engines

  /**
   * First match wins: the answer is the field of the lowest firing slot, even
   * when that field is null and a later slot also fires.
   */
  lemma FirstMatchWins(v: Operand, field: Field, cs: ConditionSettings, k: int)
    requires cs.show && 1 <= k <= cs.conditionNumbers
    requires Fires(cs.slots, v, k)
    requires forall j :: 1 <= j < k ==> !Fires(cs.slots, v, j)
    ensures ConditionLookup(v, field, cs) == ConditionField(cs.slots[k - 1], field)
  {
    var first := FirstFiring(cs.slots, v, 1, cs.conditionNumbers);
    assert first.Some?;
    assert first.value == k;
  }

  /** No answer when no slot 1..n fires, when the group is off, or when n <= 0. */
  lemma NoMatchIsNull(v: Operand, field: Field, cs: ConditionSettings)
    requires !cs.show || cs.conditionNumbers <= 0 ||
             forall j :: 1 <= j <= cs.conditionNumbers ==> !Fires(cs.slots, v, j)
    ensures ConditionLookup(v, field, cs) == None
  {
    if cs.show {
      var first := FirstFiring(cs.slots, v, 1, cs.conditionNumbers);
      assert first.None?;
    }
  }

  /** The progression engine on its colour fields is the main-card engine run on the slots' comparison parts. */
  lemma {:induction false} ProgressionColoursFollowConditionEngine(v: Operand, field: Field, ps: ProgressionSettings)
    requires field == Foreground || field == Background
    ensures ProgressionLookup(v, field, ps) ==
            ConditionLookup(v, field, ConditionSettings(ps.useCondition, ps.conditionNumbers,
                                                        false, false, false, false, RulesOf(ps.slots)))
  {
  }

  /** Default slots are inert: whatever the switch and the slot count, neither engine answers. */
  lemma DefaultSlotsInert(v: Operand, field: Field, show: bool, n: int)
    ensures ConditionLookup(v, field, DefaultConditionSettings.(show := show, conditionNumbers := n)) == None
    ensures ProgressionLookup(v, field, DefaultProgressionSettings.(useCondition := show, conditionNumbers := n)) == None
  {
    var cs := DefaultConditionSettings.(show := show, conditionNumbers := n);
    forall j | 1 <= j <= n ensures !Fires(cs.slots, v, j) {
    }
    var rules := RulesOf(DefaultProgressionSettings.slots);
    forall j | 1 <= j <= n ensures !Fires(rules, v, j) {
    }
  }

  /** Both rule groups default to two slots and are switched off, so they never answer by default. */
  lemma DefaultSwitchesOff(v: Operand, field: Field)
    ensures DefaultConditionSettings.conditionNumbers == 2 && !DefaultConditionSettings.show
    ensures DefaultProgressionSettings.conditionNumbers == 2 && !DefaultProgressionSettings.useCondition
    ensures ConditionLookup(v, field, DefaultConditionSettings) == None
    ensures ProgressionLookup(v, field, DefaultProgressionSettings) == None
  {
  }

  /** Slot 1 wins over slot 2 when both fire: rules [> 100 red, > 0 yellow] on 150 give red. */
  lemma LowestSlotExample()
    ensures ConditionLookup(Num(150.0), Foreground,
              DefaultConditionSettings.(show := true, slots :=
                [ConditionSlot(">", Some(100.0), Some("red"), None),
                 ConditionSlot(">", Some(0.0), Some("yellow"), None)])) == Some("red")
  {
    var cs := DefaultConditionSettings.(show := true, slots :=
                [ConditionSlot(">", Some(100.0), Some("red"), None),
                 ConditionSlot(">", Some(0.0), Some("yellow"), None)]);
    assert Fires(cs.slots, Num(150.0), 1);
  }

  /**
   * A blank cell compares as 0 under the relational comparators and equals no
   * threshold; an unset value satisfies none of them.
   */
  lemma NullComparesAsZero(t: real)
    ensures Holds(">", Null, t) <==> t < 0.0
    ensures Holds(">=", Null, t) <==> t <= 0.0
    ensures Holds("<", Null, t) <==> 0.0 < t
    ensures Holds("<=", Null, t) <==> 0.0 <= t
    ensures !Holds("=", Null, t)
    ensures forall op :: !Holds(op, Unset, t)
  {
  }

  /** A blank main value fires rule ">= 0" but not rule "= 0": rules [= 0 red, >= 0 green] give green. */
  lemma BlankValueSkipsEquality()
    ensures ConditionLookup(Null, Foreground,
              DefaultConditionSettings.(show := true, slots :=
                [ConditionSlot("=", Some(0.0), Some("red"), None),
                 ConditionSlot(">=", Some(0.0), Some("green"), None)])) == Some("green")
  {
    var cs := DefaultConditionSettings.(show := true, slots :=
                [ConditionSlot("=", Some(0.0), Some("red"), None),
                 ConditionSlot(">=", Some(0.0), Some("green"), None)]);
    assert !Fires(cs.slots, Null, 1);
    assert Fires(cs.slots, Null, 2);
  }
}
