/**
 * The settings form: preset chips, the "same time for both" checkbox, six
 * three-digit text fields, and the apply button that validates the fields and
 * converts them to milliseconds for the clock.
 */
module SettingsScreen {
  import opened Wrappers
  import opened Numerals
  import ViewModel
  import M = ClockMachine

  datatype TimePreset = TimePreset(labelText: string, minutes: int, seconds: int, increment: int)

  datatype TimeCategory = TimeCategory(name: string, presets: seq<TimePreset>)

  /** The preset chips, by category, as listed on the screen. */
  const TimeCategories: seq<TimeCategory> := [
    TimeCategory("Bullet", [
      TimePreset("1+0", 1, 0, 0),
      TimePreset("1+1", 1, 0, 1),
      TimePreset("2+1", 2, 0, 1)]),
    TimeCategory("Blitz", [
      TimePreset("3+0", 3, 0, 0),
      TimePreset("3+2", 3, 0, 2),
      TimePreset("5+0", 5, 0, 0),
      TimePreset("5+3", 5, 0, 3)]),
    TimeCategory("Rapid", [
      TimePreset("10+0", 10, 0, 0),
      TimePreset("10+5", 10, 0, 5),
      TimePreset("15+10", 15, 0, 10),
      TimePreset("30+0", 30, 0, 0)]),
    TimeCategory("Classical", [
      TimePreset("60+0", 60, 0, 0),
      TimePreset("90+30", 90, 0, 30)])
  ]

  function Flatten(cs: seq<TimeCategory>): seq<TimePreset> {
    if cs == [] then [] else cs[0].presets + Flatten(cs[1..])
  }

  /** Every preset chip on the screen. */
  function AllPresets(): seq<TimePreset> {
    Flatten(TimeCategories)
  }

  /** Preset values are small: whole minutes from 1 to 90 and an increment of at most 30 s. */
  predicate PresetInRange(p: TimePreset) {
    1 <= p.minutes <= 90 && p.seconds == 0 && 0 <= p.increment <= 30
  }

  lemma PresetsInRange()
    ensures |AllPresets()| == 13
    ensures forall p :: p in AllPresets() ==> PresetInRange(p)
    ensures TimePreset("5+0", 5, 0, 0) in AllPresets()
  {
    var c := TimeCategories;
    assert Flatten(c[4..]) == [];
    assert Flatten(c[3..]) == c[3].presets;
    assert Flatten(c[2..]) == c[2].presets + c[3].presets;
    assert Flatten(c[1..]) == c[1].presets + (c[2].presets + c[3].presets);
    assert AllPresets() == c[0].presets + (c[1].presets + (c[2].presets + c[3].presets));
    assert c[1].presets[2] == TimePreset("5+0", 5, 0, 0);
  }

  /** The text filter: only digits, at most three of them. */
  predicate AcceptsInput(s: string) {
    AllDigits(s) && |s| <= 3
  }

  /** Which of a player's three text fields. */
  datatype Field = Minutes | Seconds | Increment

  /** The form's state: six text fields, the checkbox and the highlighted preset. */
  datatype Form = Form(
    whiteMinutes: string, whiteSeconds: string, whiteIncrement: string,
    blackMinutes: string, blackSeconds: string, blackIncrement: string,
    sameTimeForBoth: bool,
    selectedPresetLabel: Option<string>)

  function InitialForm(): Form {
    Form("5", "0", "0", "5", "0", "0", true, Some("5+0"))
  }

  /** A preset chip: White takes its values, and Black too when both play the same time. */
  function SelectPreset(f: Form, p: TimePreset): Form
    requires p.minutes >= 0 && p.seconds >= 0 && p.increment >= 0
  {
    var m, s, i := Decimal(p.minutes), Decimal(p.seconds), Decimal(p.increment);
    var g := f.(selectedPresetLabel := Some(p.labelText), whiteMinutes := m, whiteSeconds := s, whiteIncrement := i);
    if f.sameTimeForBoth then g.(blackMinutes := m, blackSeconds := s, blackIncrement := i) else g
  }

  /** The checkbox: checking it copies White's three fields to Black. */
  function SetSameTime(f: Form, checked: bool): Form {
    var g := f.(sameTimeForBoth := checked);
    if checked then g.(blackMinutes := f.whiteMinutes, blackSeconds := f.whiteSeconds, blackIncrement := f.whiteIncrement)
    else g
  }

  /**
   * Typing in one of White's fields: refused by the filter unless digits only,
   * at most three; otherwise clears the preset highlight and mirrors the text
   * to Black's field when both play the same time.
   */
  function EditWhite(f: Form, field: Field, newValue: string): Form {
    if !AcceptsInput(newValue) then f
    else
      var g := f.(selectedPresetLabel := None);
      match field
      case Minutes => var h := g.(whiteMinutes := newValue); if f.sameTimeForBoth then h.(blackMinutes := newValue) else h
      case Seconds => var h := g.(whiteSeconds := newValue); if f.sameTimeForBoth then h.(blackSeconds := newValue) else h
      case Increment => var h := g.(whiteIncrement := newValue); if f.sameTimeForBoth then h.(blackIncrement := newValue) else h
  }

  /** Typing in one of Black's fields (shown only when the players have different times). */
  function EditBlack(f: Form, field: Field, newValue: string): Form {
    if !AcceptsInput(newValue) then f
    else
      var g := f.(selectedPresetLabel := None);
      match field
      case Minutes => g.(blackMinutes := newValue)
      case Seconds => g.(blackSeconds := newValue)
      case Increment => g.(blackIncrement := newValue)
  }

  /** What every reachable form satisfies: each field passes the filter, and Black mirrors White when asked to. */
  predicate FormOk(f: Form) {
    && AcceptsInput(f.whiteMinutes) && AcceptsInput(f.whiteSeconds) && AcceptsInput(f.whiteIncrement)
    && AcceptsInput(f.blackMinutes) && AcceptsInput(f.blackSeconds) && AcceptsInput(f.blackIncrement)
    && (f.sameTimeForBoth ==>
          f.blackMinutes == f.whiteMinutes && f.blackSeconds == f.whiteSeconds
          && f.blackIncrement == f.whiteIncrement)
  }

  lemma InitialFormOk()
    ensures FormOk(InitialForm())
    ensures InitialForm().sameTimeForBoth && InitialForm().selectedPresetLabel == Some("5+0")
  {
  }

  /**
   * Selecting an on-screen preset keeps the form well formed, highlights its
   * chip, writes its three values to White, and to Black as well exactly when
   * both play the same time (Black is left alone otherwise).
   */
  lemma SelectPresetOk(f: Form, p: TimePreset)
    requires FormOk(f) && p in AllPresets()
    ensures PresetInRange(p)
    ensures FormOk(SelectPreset(f, p))
    ensures var g := SelectPreset(f, p);
      && g.selectedPresetLabel == Some(p.labelText)
      && g.sameTimeForBoth == f.sameTimeForBoth
      && g.whiteMinutes == Decimal(p.minutes)
      && g.whiteSeconds == Decimal(p.seconds)
      && g.whiteIncrement == Decimal(p.increment)
    ensures var g := SelectPreset(f, p);
      f.sameTimeForBoth ==>
        g.blackMinutes == Decimal(p.minutes) && g.blackSeconds == Decimal(p.seconds)
        && g.blackIncrement == Decimal(p.increment)
    ensures var g := SelectPreset(f, p);
      !f.sameTimeForBoth ==>
        g.blackMinutes == f.blackMinutes && g.blackSeconds == f.blackSeconds && g.blackIncrement == f.blackIncrement
  {
    PresetsInRange();
    assert PresetInRange(p);
  }

  /**
   * The checkbox keeps the form well formed and sets the flag. Checking it
   * copies White's three fields to Black and keeps White and the highlighted
   * preset; unchecking changes nothing else.
   */
  lemma SetSameTimeOk(f: Form, checked: bool)
    requires FormOk(f)
    ensures FormOk(SetSameTime(f, checked))
    ensures SetSameTime(f, checked).sameTimeForBoth == checked
    ensures checked ==> var g := SetSameTime(f, true);
      && g.whiteMinutes == f.whiteMinutes && g.whiteSeconds == f.whiteSeconds
      && g.whiteIncrement == f.whiteIncrement
      && g.blackMinutes == f.whiteMinutes && g.blackSeconds == f.whiteSeconds
      && g.blackIncrement == f.whiteIncrement
      && g.selectedPresetLabel == f.selectedPresetLabel
    ensures !checked ==> SetSameTime(f, checked) == f.(sameTimeForBoth := false)
  {
  }

  /**
   * An edit is taken iff it passes the filter; a taken White edit clears the
   * preset highlight and keeps the form well formed, mirroring to Black when
   * both play the same time.
   */
  lemma EditWhiteOk(f: Form, field: Field, newValue: string)
    requires FormOk(f)
    ensures FormOk(EditWhite(f, field, newValue))
    ensures !AcceptsInput(newValue) ==> EditWhite(f, field, newValue) == f
    ensures AcceptsInput(newValue) ==>
      && WhiteField(EditWhite(f, field, newValue), field) == newValue
      && EditWhite(f, field, newValue).selectedPresetLabel == None
      && (f.sameTimeForBoth ==> BlackField(EditWhite(f, field, newValue), field) == newValue)
      && (!f.sameTimeForBoth ==> BlackField(EditWhite(f, field, newValue), field) == BlackField(f, field))
      && EditWhite(f, field, newValue).sameTimeForBoth == f.sameTimeForBoth
      && (forall other :: other != field ==>
            WhiteField(EditWhite(f, field, newValue), other) == WhiteField(f, other)
            && BlackField(EditWhite(f, field, newValue), other) == BlackField(f, other))
  {
  }

  /**
   * A Black edit, possible only while the players have different times, is
   * taken iff it passes the filter; a taken one clears the preset highlight and
   * changes no other field.
   */
  lemma EditBlackOk(f: Form, field: Field, newValue: string)
    requires FormOk(f) && !f.sameTimeForBoth
    ensures FormOk(EditBlack(f, field, newValue))
    ensures !AcceptsInput(newValue) ==> EditBlack(f, field, newValue) == f
    ensures AcceptsInput(newValue) ==>
      && BlackField(EditBlack(f, field, newValue), field) == newValue
      && EditBlack(f, field, newValue).selectedPresetLabel == None
      && EditBlack(f, field, newValue).sameTimeForBoth == f.sameTimeForBoth
      && (forall other :: WhiteField(EditBlack(f, field, newValue), other) == WhiteField(f, other))
      && (forall other :: other != field ==>
            BlackField(EditBlack(f, field, newValue), other) == BlackField(f, other))
  {
  }

  function WhiteField(f: Form, field: Field): string {
    match field
    case Minutes => f.whiteMinutes
    case Seconds => f.whiteSeconds
    case Increment => f.whiteIncrement
  }

  function BlackField(f: Form, field: Field): string {
    match field
    case Minutes => f.blackMinutes
    case Seconds => f.blackSeconds
    case Increment => f.blackIncrement
  }

  /** `s.toIntOrNull() ?: 0` */
  function ParseOrZero(s: string): int {
    ToIntOrNull(s).GetOr(0)
  }

  /** A field that passed the filter parses to its digits' value; an empty one to 0. */
  lemma ParseOrZeroField(s: string)
    requires AcceptsInput(s)
    ensures ParseOrZero(s) == DigitsValue(s)
    ensures 0 <= ParseOrZero(s) <= 999
    ensures s == [] ==> ParseOrZero(s) == 0
  {
    DigitsValueBound(s);
  }

  /** What pressing apply leads to. */
  datatype ApplyOutcome =
    | WhiteTimeZero
    | BlackTimeZero
    | Applied(p1Time: int, p2Time: int, increment: int)

  /**
   * The apply button: parse each field (unreadable or empty as 0), refuse a
   * side with no time, and convert to milliseconds. Black's increment field
   * is never read; with the same time for both, Black's time is White's.
   */
  function Submit(f: Form): ApplyOutcome {
    var wMin := ParseOrZero(f.whiteMinutes);
    var wSec := ParseOrZero(f.whiteSeconds);
    var wInc := ParseOrZero(f.whiteIncrement);
    var bMin := if f.sameTimeForBoth then wMin else ParseOrZero(f.blackMinutes);
    var bSec := if f.sameTimeForBoth then wSec else ParseOrZero(f.blackSeconds);
    if wMin == 0 && wSec == 0 then WhiteTimeZero
    else if bMin == 0 && bSec == 0 then BlackTimeZero
    else Applied((wMin * 60 + wSec) * 1000, (bMin * 60 + bSec) * 1000, wInc * 1000)
  }

  /** Black's time as the apply button reads it. */
  function BlackMinutesRead(f: Form): int {
    if f.sameTimeForBoth then ParseOrZero(f.whiteMinutes) else ParseOrZero(f.blackMinutes)
  }

  function BlackSecondsRead(f: Form): int {
    if f.sameTimeForBoth then ParseOrZero(f.whiteSeconds) else ParseOrZero(f.blackSeconds)
  }

  /** Apply goes through iff neither side has zero minutes and zero seconds; White is checked first. */
  lemma SubmitRejectsZero(f: Form)
    ensures Submit(f) == WhiteTimeZero <==>
      ParseOrZero(f.whiteMinutes) == 0 && ParseOrZero(f.whiteSeconds) == 0
    ensures Submit(f) == BlackTimeZero <==>
      !(ParseOrZero(f.whiteMinutes) == 0 && ParseOrZero(f.whiteSeconds) == 0)
      && BlackMinutesRead(f) == 0 && BlackSecondsRead(f) == 0
    ensures Submit(f).Applied? <==>
      !(ParseOrZero(f.whiteMinutes) == 0 && ParseOrZero(f.whiteSeconds) == 0)
      && !(BlackMinutesRead(f) == 0 && BlackSecondsRead(f) == 0)
  {
  }

  /**
   * On a well-formed form, an accepted apply sends each side's minutes and
   * seconds in milliseconds, positive multiples of 1000, and White's
   * increment in milliseconds; with the same time for both, the two times agree.
   */
  lemma SubmitConverts(f: Form)
    requires FormOk(f) && Submit(f).Applied?
    ensures var o := Submit(f);
      && o.p1Time == (DigitsValue(f.whiteMinutes) * 60 + DigitsValue(f.whiteSeconds)) * 1000
      && o.p2Time == (DigitsValue(f.blackMinutes) * 60 + DigitsValue(f.blackSeconds)) * 1000
      && o.increment == DigitsValue(f.whiteIncrement) * 1000
      && o.p1Time > 0 && o.p1Time % 1000 == 0 && o.p1Time <= (999 * 60 + 999) * 1000
      && o.p2Time > 0 && o.p2Time % 1000 == 0 && o.p2Time <= (999 * 60 + 999) * 1000
      && o.increment >= 0 && o.increment % 1000 == 0
      && (f.sameTimeForBoth ==> o.p1Time == o.p2Time)
  {
    ParseOrZeroField(f.whiteMinutes);
    ParseOrZeroField(f.whiteSeconds);
    ParseOrZeroField(f.whiteIncrement);
    ParseOrZeroField(f.blackMinutes);
    ParseOrZeroField(f.blackSeconds);
  }

  /** Black's increment field has no effect on what apply sends. */
  lemma SubmitIgnoresBlackIncrement(f: Form, text: string)
    ensures Submit(f.(blackIncrement := text)) == Submit(f)
  {
  }

  /**
   * Choosing a preset and pressing apply sends the preset's time control:
   * both sides' when both play the same time; otherwise White's, with Black's
   * own fields deciding Black's time (and refusal if they read zero).
   */
  lemma PresetThenApply(f: Form, p: TimePreset)
    requires FormOk(f) && PresetInRange(p)
    ensures Submit(SelectPreset(f, p)) != WhiteTimeZero
    ensures f.sameTimeForBoth ==>
      Submit(SelectPreset(f, p)) == Applied(p.minutes * 60000, p.minutes * 60000, p.increment * 1000)
    ensures !f.sameTimeForBoth ==>
      Submit(SelectPreset(f, p)) == if BlackMinutesRead(f) == 0 && BlackSecondsRead(f) == 0 then BlackTimeZero
        else Applied(p.minutes * 60000, (BlackMinutesRead(f) * 60 + BlackSecondsRead(f)) * 1000, p.increment * 1000)
  {
    ToStringToIntOrNull(p.minutes);
    ToStringToIntOrNull(p.seconds);
    ToStringToIntOrNull(p.increment);
    var g := SelectPreset(f, p);
    assert ParseOrZero(g.whiteMinutes) == p.minutes;
    assert ParseOrZero(g.whiteSeconds) == 0;
    assert ParseOrZero(g.whiteIncrement) == p.increment;
    assert g.sameTimeForBoth == f.sameTimeForBoth;
    assert !f.sameTimeForBoth ==> BlackMinutesRead(g) == BlackMinutesRead(f) && BlackSecondsRead(g) == BlackSecondsRead(f);
  }

  /** The form's remembered state, changed in place by the chips, the checkbox and the text fields. */
  class SettingsForm {
    var whiteMinutes: string
    var whiteSeconds: string
    var whiteIncrement: string
    var blackMinutes: string
    var blackSeconds: string
    var blackIncrement: string
    var sameTimeForBoth: bool
    var selectedPresetLabel: Option<string>

    function Fields(): Form
      reads this
    {
      Form(whiteMinutes, whiteSeconds, whiteIncrement, blackMinutes, blackSeconds, blackIncrement,
           sameTimeForBoth, selectedPresetLabel)
    }

    ghost predicate Valid()
      reads this
    {
      FormOk(Fields())
    }

    constructor ()
      ensures Fields() == InitialForm() && Valid()
    {
      whiteMinutes, whiteSeconds, whiteIncrement := "5", "0", "0";
      blackMinutes, blackSeconds, blackIncrement := "5", "0", "0";
      sameTimeForBoth := true;
      selectedPresetLabel := Some("5+0");
    }

    /** A tap on one of the preset chips. */
    method PresetClicked(p: TimePreset)
      requires Valid() && p in AllPresets()
      modifies this
      ensures PresetInRange(p)
      ensures Fields() == SelectPreset(old(Fields()), p) && Valid()
    {
      SelectPresetOk(Fields(), p);
      selectedPresetLabel := Some(p.labelText);
      whiteMinutes := Decimal(p.minutes);
      whiteSeconds := Decimal(p.seconds);
      whiteIncrement := Decimal(p.increment);
      if sameTimeForBoth {
        blackMinutes := Decimal(p.minutes);
        blackSeconds := Decimal(p.seconds);
        blackIncrement := Decimal(p.increment);
      }
    }

    /** The "same time for both players" checkbox. */
    method SameTimeChecked(checked: bool)
      requires Valid()
      modifies this
      ensures Fields() == SetSameTime(old(Fields()), checked) && Valid()
    {
      SetSameTimeOk(Fields(), checked);
      sameTimeForBoth := checked;
      if checked {
        blackMinutes := whiteMinutes;
        blackSeconds := whiteSeconds;
        blackIncrement := whiteIncrement;
      }
    }

    /** New text typed into one of White's fields, passed through the input filter. */
    method EditWhiteField(field: Field, newValue: string)
      requires Valid()
      modifies this
      ensures Fields() == EditWhite(old(Fields()), field, newValue) && Valid()
    {
      EditWhiteOk(Fields(), field, newValue);
      if AllDigits(newValue) && |newValue| <= 3 {
        match field {
          case Minutes =>
            whiteMinutes := newValue;
            selectedPresetLabel := None;
            if sameTimeForBoth { blackMinutes := newValue; }
          case Seconds =>
            whiteSeconds := newValue;
            selectedPresetLabel := None;
            if sameTimeForBoth { blackSeconds := newValue; }
          case Increment =>
            whiteIncrement := newValue;
            selectedPresetLabel := None;
            if sameTimeForBoth { blackIncrement := newValue; }
        }
      }
    }

    /** New text typed into one of Black's fields; they are on screen only while the times differ. */
    method EditBlackField(field: Field, newValue: string)
      requires Valid() && !sameTimeForBoth
      modifies this
      ensures Fields() == EditBlack(old(Fields()), field, newValue) && Valid()
    {
      EditBlackOk(Fields(), field, newValue);
      if AllDigits(newValue) && |newValue| <= 3 {
        match field {
          case Minutes => blackMinutes := newValue; selectedPresetLabel := None;
          case Seconds => blackSeconds := newValue; selectedPresetLabel := None;
          case Increment => blackIncrement := newValue; selectedPresetLabel := None;
        }
      }
    }

    /**
     * The apply button: on a zero time nothing is sent to the clock; otherwise
     * the clock gets the converted time control and starts afresh.
     */
    method ApplyClicked(vm: ViewModel.ChessTimerViewModel) returns (outcome: ApplyOutcome)
      requires Valid() && vm.Valid()
      modifies vm
      ensures outcome == Submit(Fields())
      ensures vm.Valid()
      ensures outcome.Applied? ==>
        vm.Snapshot() == M.ApplySettings(old(vm.Snapshot()), outcome.p1Time, outcome.p2Time, outcome.increment)
      ensures !outcome.Applied? ==> vm.Snapshot() == old(vm.Snapshot())
    {
      var wMin := ParseOrZero(whiteMinutes);
      var wSec := ParseOrZero(whiteSeconds);
      var wInc := ParseOrZero(whiteIncrement);
      var bMin := if sameTimeForBoth then wMin else ParseOrZero(blackMinutes);
      var bSec := if sameTimeForBoth then wSec else ParseOrZero(blackSeconds);
      if wMin == 0 && wSec == 0 {
        return WhiteTimeZero;
      }
      if bMin == 0 && bSec == 0 {
        return BlackTimeZero;
      }
      outcome := Applied((wMin * 60 + wSec) * 1000, (bMin * 60 + bSec) * 1000, wInc * 1000);
      SubmitConverts(Fields());
      vm.ApplySettings(outcome.p1Time, outcome.p2Time, outcome.increment);
    }
  }
}
