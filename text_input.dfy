/**
 * The text input's local state (`localValue`, `showPassword`) and the
 * decisions derived from it and from the props: the effective input type,
 * the clear button, the trailing action, the error flag and helper line,
 * and the element id slugged from the label.
 *
 * Whitespace and case mapping are restricted to ASCII. Callbacks are
 * present-or-absent flags; a handler that runs is reported as a returned flag.
 */
module TextInputs {
  import opened Wrappers

  datatype TextInputProps = TextInputProps(
    labelText: string,
    id: Option<string>,
    helpText: Option<string>,
    error: Option<string>,
    isError: bool,
    hasTrailingIcon: bool,
    clearable: bool,
    hasOnClear: bool,
    hasOnChange: bool,
    value: Option<string>,
    htmlType: Option<string>,
    disabled: bool)

  datatype InputState = InputState(localValue: string, showPassword: bool)

  /** What occupies the right-hand slot of the field. */
  datatype Trailing = PasswordToggle(showing: bool) | ClearButton | TrailingIcon | NoTrailing

  const DefaultType := "text"
  const IdPrefix := "text-input-"

  /** A string prop that is present and not empty (JavaScript truthiness). */
  predicate Filled(s: Option<string>) {
    s.Some? && s.value != ""
  }

  // ---------------------------------------------------------------------------
  // State and events
  // ---------------------------------------------------------------------------

  /** The first render: `localValue` starts as `value || ''`, the password hidden. */
  function Initial(p: TextInputProps): (s: InputState)
    ensures !s.showPassword
    ensures s.localValue == (if p.value.Some? then p.value.value else "")
  {
    InputState(p.value.GetOr(""), false)
  }

  /** The state after `handleChange` with the new text; `TextInput.HandleChange` is the stateful form. */
  function Changed(s: InputState, text: string): (r: InputState)
    ensures r.localValue == text && r.showPassword == s.showPassword
  {
    s.(localValue := text)
  }

  /** The state after `handleClear`; `TextInput.HandleClear` is the stateful form. */
  function Cleared(s: InputState): (r: InputState)
    ensures r.localValue == "" && r.showPassword == s.showPassword
  {
    s.(localValue := "")
  }

  /** The state after `togglePasswordVisibility`; `TextInput.TogglePasswordVisibility` is the stateful form. */
  function Toggled(s: InputState): (r: InputState)
    ensures r.showPassword == !s.showPassword && r.localValue == s.localValue
  {
    s.(showPassword := !s.showPassword)
  }

  /**
   * A change event as the element is wired: the caller's props are spread
   * after `onChange={handleChange}`, so a caller `onChange` replaces
   * `handleChange` and `localValue` keeps its old text.
   */
  function ChangedAsWired(p: TextInputProps, s: InputState, text: string): (r: InputState)
    ensures p.hasOnChange ==> r == s
    ensures !p.hasOnChange ==> r == Changed(s, text)
  {
    if p.hasOnChange then s else Changed(s, text)
  }

  // ---------------------------------------------------------------------------
  // Derived decisions
  // ---------------------------------------------------------------------------

  function TypeOf(p: TextInputProps): string {
    p.htmlType.GetOr(DefaultType)
  }

  predicate IsPassword(p: TextInputProps) {
    TypeOf(p) == "password"
  }

  /** The `type` attribute actually rendered. */
  function EffectiveType(p: TextInputProps, s: InputState): (t: string)
    ensures t == "password" <==> IsPassword(p) && !s.showPassword
    ensures IsPassword(p) && s.showPassword ==> t == "text"
    ensures !IsPassword(p) ==> t == TypeOf(p)
  {
    if IsPassword(p) then (if s.showPassword then "text" else "password") else TypeOf(p)
  }

  /** The clear button is wanted: clearable, enabled, and the local text is not empty. */
  function ShouldShowClear(p: TextInputProps, s: InputState): (b: bool)
    ensures b <==> p.clearable && !p.disabled && |s.localValue| > 0
  {
    p.clearable && s.localValue != "" && !p.disabled
  }

  /** The error styling: the `isError` flag, or a non-empty `error` message. */
  function HasError(p: TextInputProps): (b: bool)
    ensures b <==> p.isError || (p.error.Some? && |p.error.value| > 0)
    ensures b && !p.isError ==> HelperLine(p) == p.error
  {
    p.isError || Filled(p.error)
  }

  /** A password toggle or a clear button is due, and no caller icon takes the slot. */
  function HasTrailingAction(p: TextInputProps, s: InputState): (b: bool)
    ensures b ==> !p.hasTrailingIcon && (IsPassword(p) || ShouldShowClear(p, s))
    ensures !p.hasTrailingIcon && IsPassword(p) ==> b
    ensures !p.hasTrailingIcon && ShouldShowClear(p, s) ==> b
  {
    (IsPassword(p) || ShouldShowClear(p, s)) && !p.hasTrailingIcon
  }

  /** The right-hand slot, as the markup chooses it. */
  function TrailingSlot(p: TextInputProps, s: InputState): (r: Trailing)
    ensures r.PasswordToggle? <==> IsPassword(p) && !p.hasTrailingIcon
    ensures r.PasswordToggle? ==> r.showing == s.showPassword
    ensures r == ClearButton <==> ShouldShowClear(p, s) && !IsPassword(p) && !p.hasTrailingIcon
    ensures r == TrailingIcon <==> p.hasTrailingIcon
    ensures r == NoTrailing <==> !HasTrailingAction(p, s) && !p.hasTrailingIcon
  {
    if HasTrailingAction(p, s) then
      if IsPassword(p) then PasswordToggle(s.showPassword)
      else if ShouldShowClear(p, s) then ClearButton
      else NoTrailing
    else if p.hasTrailingIcon then TrailingIcon
    else NoTrailing
  }

  /** The helper line under the field: the error in preference to the help text. */
  function HelperLine(p: TextInputProps): (r: Option<string>)
    ensures r.None? <==> !Filled(p.helpText) && !Filled(p.error)
    ensures Filled(p.error) ==> r == p.error
    ensures !Filled(p.error) && Filled(p.helpText) ==> r == p.helpText
  {
    if Filled(p.helpText) || Filled(p.error) then
      Some(if Filled(p.error) then p.error.value else p.helpText.value)
    else None
  }

  /** The value the element shows: the `value` prop when given, otherwise the local text. */
  function DisplayedValue(p: TextInputProps, s: InputState): (v: string)
    ensures p.value.Some? ==> v == p.value.value
    ensures p.value.None? ==> v == s.localValue
    ensures s == Initial(p) ==> v == (if p.value.Some? then p.value.value else "")
  {
    if p.value.Some? then p.value.value else s.localValue
  }

  // ---------------------------------------------------------------------------
  // The id slug: whitespace runs to '-', then lower case
  // ---------------------------------------------------------------------------

  /** ASCII whitespace: space, tab, line feed, vertical tab, form feed, carriage return. */
  predicate IsSpace(c: char) {
    c == ' ' || ('\t' <= c <= '\r')
  }

  predicate NoSpace(s: string) {
    forall i :: 0 <= i < |s| ==> !IsSpace(s[i])
  }

  predicate AllSpace(s: string) {
    forall i :: 0 <= i < |s| ==> IsSpace(s[i])
  }

  /** `s` with its leading whitespace run removed. */
  function DropSpaces(s: string): (r: string)
    ensures |r| <= |s| && (r == [] || !IsSpace(r[0]))
    ensures AllSpace(s[..|s| - |r|]) && s[|s| - |r|..] == r
  {
    if s != [] && IsSpace(s[0]) then
      var r := DropSpaces(s[1..]);
      assert s[1..][..|s| - 1 - |r|] == s[1..|s| - |r|];
      r
    else s
  }

  /** `s.replace(/\s+/g, '-')`: every maximal whitespace run becomes one '-'. */
  function ReplaceSpaceRuns(s: string): (r: string)
    ensures NoSpace(r) && |r| <= |s|
    decreases |s|
  {
    if s == [] then []
    else if IsSpace(s[0]) then "-" + ReplaceSpaceRuns(DropSpaces(s))
    else [s[0]] + ReplaceSpaceRuns(s[1..])
  }

  /** ASCII lower-casing: an upper-case letter moves up by 32, anything else is kept. */
  function LowerChar(c: char): (d: char)
    ensures 'A' <= c <= 'Z' ==> d as int == c as int + 32
    ensures !('A' <= c <= 'Z') ==> d == c
    ensures !('A' <= d <= 'Z')
    ensures IsSpace(d) <==> IsSpace(c)
  {
    if 'A' <= c <= 'Z' then (c as int + 32) as char else c
  }

  /** `toLowerCase`, restricted to ASCII letters. */
  function Lower(s: string): (r: string)
    ensures |r| == |s| && forall i :: 0 <= i < |s| ==> r[i] == LowerChar(s[i])
  {
    seq(|s|, i requires 0 <= i < |s| => LowerChar(s[i]))
  }

  /** The id: a non-empty `id` prop, otherwise the prefix and the slugged label. */
  function InputId(p: TextInputProps): (r: string)
    ensures Filled(p.id) ==> r == p.id.value
    ensures !Filled(p.id) ==> |r| >= |IdPrefix| && r[..|IdPrefix|] == IdPrefix
    ensures !Filled(p.id) ==> NoSpace(r[|IdPrefix|..])
  {
    if Filled(p.id) then p.id.value else IdPrefix + Lower(ReplaceSpaceRuns(p.labelText))
  }

  /** Text without whitespace passes through the run replacement unchanged. */
  lemma {:induction false} ReplaceWithoutSpaces(s: string)
    requires NoSpace(s)
    ensures ReplaceSpaceRuns(s) == s
  {
    if s != [] {
      assert NoSpace(s[1..]) by {
        forall i | 0 <= i < |s[1..]| ensures !IsSpace(s[1..][i]) {
          assert s[1..][i] == s[i + 1];
        }
      }
      ReplaceWithoutSpaces(s[1..]);
    }
  }

  /** Replacing the runs twice is the same as replacing them once. */
  lemma {:induction false} ReplaceIdempotent(s: string)
    ensures ReplaceSpaceRuns(ReplaceSpaceRuns(s)) == ReplaceSpaceRuns(s)
  {
    ReplaceWithoutSpaces(ReplaceSpaceRuns(s));
  }

  /** A whitespace run, however long, at the head of the text turns into a single '-'. */
  lemma {:induction false} ReplaceRunPrefix(w: string, rest: string)
    requires w != [] && AllSpace(w)
    requires rest == [] || !IsSpace(rest[0])
    ensures ReplaceSpaceRuns(w + rest) == "-" + ReplaceSpaceRuns(rest)
  {
    DropSpacesOfRun(w, rest);
  }

  lemma {:induction false} DropSpacesOfRun(w: string, rest: string)
    requires AllSpace(w)
    requires rest == [] || !IsSpace(rest[0])
    ensures DropSpaces(w + rest) == rest
  {
    if w != [] {
      assert (w + rest)[0] == w[0];
      assert (w + rest)[1..] == w[1..] + rest;
      DropSpacesOfRun(w[1..], rest);
    } else {
      assert w + rest == rest;
    }
  }

  /** Text that does not start with whitespace keeps its leading word in front of the rest. */
  lemma {:induction false} ReplaceWordPrefix(x: string, rest: string)
    requires NoSpace(x)
    ensures ReplaceSpaceRuns(x + rest) == x + ReplaceSpaceRuns(rest)
  {
    if x != [] {
      assert (x + rest)[0] == x[0];
      assert (x + rest)[1..] == x[1..] + rest;
      assert NoSpace(x[1..]) by {
        forall i | 0 <= i < |x[1..]| ensures !IsSpace(x[1..][i]) {
          assert x[1..][i] == x[i + 1];
        }
      }
      ReplaceWordPrefix(x[1..], rest);
    } else {
      assert x + rest == rest;
    }
  }

  /**
   * Two words separated by any whitespace run slug to the two words joined
   * by a single '-': the run's length and kind do not matter.
   */
  lemma ReplaceBetweenWords(x: string, w: string, y: string)
    requires NoSpace(x) && w != [] && AllSpace(w)
    requires y == [] || !IsSpace(y[0])
    ensures ReplaceSpaceRuns(x + w + y) == x + "-" + ReplaceSpaceRuns(y)
  {
    assert x + w + y == x + (w + y);
    ReplaceWordPrefix(x, w + y);
    ReplaceRunPrefix(w, y);
  }

  /** Lower-casing before or after the replacement gives the same slug. */
  lemma {:induction false} LowerCommutesWithReplace(s: string)
    ensures Lower(ReplaceSpaceRuns(s)) == ReplaceSpaceRuns(Lower(s))
    decreases |s|
  {
    if s != [] {
      var ls := Lower(s);
      assert ls[0] == LowerChar(s[0]);
      if IsSpace(s[0]) {
        var d := DropSpaces(s);
        DropSpacesLower(s);
        calc {
          ReplaceSpaceRuns(ls);
          "-" + ReplaceSpaceRuns(Lower(d));
          { LowerCommutesWithReplace(d); }
          "-" + Lower(ReplaceSpaceRuns(d));
          { LowerAppend("-", ReplaceSpaceRuns(d)); LowerDash(); }
          Lower("-" + ReplaceSpaceRuns(d));
        }
      } else {
        LowerTail(s);
        calc {
          ReplaceSpaceRuns(ls);
          [LowerChar(s[0])] + ReplaceSpaceRuns(Lower(s[1..]));
          { LowerCommutesWithReplace(s[1..]); }
          [LowerChar(s[0])] + Lower(ReplaceSpaceRuns(s[1..]));
          { LowerAppend([s[0]], ReplaceSpaceRuns(s[1..])); }
          Lower([s[0]] + ReplaceSpaceRuns(s[1..]));
        }
      }
    }
  }

  lemma LowerDash()
    ensures Lower("-") == "-"
  {
  }

  lemma LowerTail(s: string)
    requires s != []
    ensures Lower(s)[1..] == Lower(s[1..])
  {
  }

  /** Whitespace is unaffected by lower-casing. */
  lemma LowerOfSpaces(w: string)
    requires AllSpace(w)
    ensures Lower(w) == w
  {
  }

  /** Dropping the leading whitespace commutes with lower-casing. */
  lemma DropSpacesLower(s: string)
    ensures DropSpaces(Lower(s)) == Lower(DropSpaces(s))
  {
    var d := DropSpaces(s);
    var w := s[..|s| - |d|];
    assert s == w + d;
    LowerAppend(w, d);
    LowerOfSpaces(w);
    assert d == [] || !IsSpace(Lower(d)[0]);
    DropSpacesOfRun(w, Lower(d));
  }

  lemma LowerAppend(a: string, b: string)
    ensures Lower(a + b) == Lower(a) + Lower(b)
  {
  }

  /** Labels that differ only in letter case and in the length of their whitespace runs share an id. */
  lemma LabelsCollide(p: TextInputProps, q: TextInputProps)
    requires !Filled(p.id) && !Filled(q.id)
    requires ReplaceSpaceRuns(Lower(p.labelText)) == ReplaceSpaceRuns(Lower(q.labelText))
    ensures InputId(p) == InputId(q)
  {
    LowerCommutesWithReplace(p.labelText);
    LowerCommutesWithReplace(q.labelText);
  }

  // ---------------------------------------------------------------------------
  // Properties of the events
  // ---------------------------------------------------------------------------

  /** Toggling the password visibility twice restores the rendered type. */
  lemma ToggleTwice(p: TextInputProps, s: InputState)
    ensures Toggled(Toggled(s)) == s
    ensures IsPassword(p) ==> EffectiveType(p, Toggled(s)) != EffectiveType(p, s)
  {
  }

  /** After clearing, the clear button is gone and an uncontrolled field shows nothing. */
  lemma ClearHidesButton(p: TextInputProps, s: InputState)
    ensures !ShouldShowClear(p, Cleared(s))
    ensures p.value.None? ==> DisplayedValue(p, Cleared(s)) == ""
    ensures TrailingSlot(p, Cleared(s)) != ClearButton
  {
  }

  /**
   * The helper line and the error styling agree: error text, when given, is
   * what the line shows and puts the field in the error state; a field not in
   * the error state shows only its help text. `isError` alone styles the help
   * text as an error.
   */
  lemma HelperMatchesErrorState(p: TextInputProps)
    ensures Filled(p.error) ==> HasError(p) && HelperLine(p) == p.error
    ensures !HasError(p) ==> HelperLine(p) == (if Filled(p.helpText) then p.helpText else None)
    ensures HasError(p) && !Filled(p.error) ==> p.isError
  {
  }

  /** A controlled field shows its `value` prop whatever the local state does. */
  lemma ControlledValueWins(p: TextInputProps, s: InputState, text: string)
    requires p.value.Some?
    ensures DisplayedValue(p, Changed(s, text)) == p.value.value
    ensures DisplayedValue(p, Cleared(s)) == p.value.value
    ensures DisplayedValue(p, Initial(p)) == p.value.value
  {
  }

  /** Through `handleChange`, an uncontrolled field shows exactly what was typed. */
  lemma ChangeDisplaysTypedText(p: TextInputProps, s: InputState, text: string)
    requires p.value.None?
    ensures DisplayedValue(p, Changed(s, text)) == text
    ensures ShouldShowClear(p, Changed(s, text)) <==> p.clearable && !p.disabled && text != ""
  {
  }

  /**
   * As wired, a caller `onChange` on an uncontrolled field freezes it: the
   * typed "a" never reaches `localValue`, so the field keeps showing "".
   */
  lemma CallerOnChangeFreezesInput(p: TextInputProps)
    requires p.hasOnChange && p.value.None? && p.clearable && !p.disabled
    ensures DisplayedValue(p, ChangedAsWired(p, Initial(p), "a")) == ""
    ensures DisplayedValue(p, Changed(Initial(p), "a")) == "a"
    ensures !ShouldShowClear(p, ChangedAsWired(p, Initial(p), "a"))
  {
  }

  /**
   * A controlled field hides the wiring: whatever the caller passes, it shows
   * the `value` prop. An uncontrolled field with a caller `onChange` shows
   * its old text instead of the typed one.
   */
  lemma ControlledFieldHidesWiring(p: TextInputProps, s: InputState, text: string)
    ensures p.value.Some? ==> DisplayedValue(p, ChangedAsWired(p, s, text)) == DisplayedValue(p, Changed(s, text))
    ensures p.value.None? && p.hasOnChange ==> DisplayedValue(p, ChangedAsWired(p, s, text)) == s.localValue
    ensures !p.hasOnChange ==> DisplayedValue(p, ChangedAsWired(p, s, text)) == DisplayedValue(p, Changed(s, text))
  {
  }

  // ---------------------------------------------------------------------------
  // The component instance
  // ---------------------------------------------------------------------------

  class TextInput {
    const props: TextInputProps
    var localValue: string
    var showPassword: bool

    function State(): InputState
      reads this
    {
      InputState(localValue, showPassword)
    }

    constructor (props: TextInputProps)
      ensures this.props == props && State() == Initial(props)
    {
      this.props := props;
      localValue := props.value.GetOr("");
      showPassword := false;
    }

    /** Stores the new text (`Changed`) and forwards the event to the caller's `onChange`, if any. */
    method HandleChange(text: string) returns (forwarded: bool)
      modifies this
      ensures State() == Changed(old(State()), text)
      ensures forwarded == props.hasOnChange
    {
      localValue := text;
      forwarded := props.hasOnChange;
    }

    /** Empties the local text (`Cleared`) and calls `onClear`, if any. */
    method HandleClear() returns (onClearCalled: bool)
      modifies this
      ensures State() == Cleared(old(State()))
      ensures !ShouldShowClear(props, State())
      ensures onClearCalled == props.hasOnClear
    {
      localValue := "";
      onClearCalled := props.hasOnClear;
    }

    /** Shows or hides the password; its effect on the state is `Toggled`. */
    method TogglePasswordVisibility()
      modifies this
      ensures State() == Toggled(old(State()))
    {
      showPassword := !showPassword;
    }
  }
}
