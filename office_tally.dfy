/**
 * The office-tally form (views/office_tally.go).
 *
 * Phase 0 collects the restaurant name exactly as the lunch-order form does.
 * Phase 1 has a single numeric input: enter submits it when its trimmed text
 * is a base-10 64-bit integer and is otherwise ignored without a message.
 * There are no navigation keys; every message other than enter goes to the
 * input of the current phase.
 */
module OfficeTally {
  import opened Text
  import opened Input

  datatype TallyState = TallyState(
    phase: int,                // 0: restaurant, 1: tally
    restaurantInput: TextInput,
    restaurant: string,
    tallyInput: TextInput,
    tally: Int64,
    submitted: bool)

  /** What holds of every state the form can reach from NewOfficeTallyModel. */
  predicate Invariant(s: TallyState) {
    && (s.phase == 0 || s.phase == 1)
    && (s.phase == 0 ==> s.restaurant == "")
    && (s.phase == 1 ==> s.restaurant != "" && !s.restaurantInput.focused)
    && (s.submitted ==> s.phase == 1)
    && (!s.submitted ==> s.tally == 0)
  }

  /** NewOfficeTallyModel: phase 0, both inputs empty and blurred. */
  function Initial(): (s: TallyState)
    ensures Invariant(s) && s.phase == 0 && !s.submitted && s.tally == 0
    ensures s.restaurantInput == NewTextInput && s.tallyInput == NewTextInput
  {
    TallyState(0, NewTextInput, "", NewTextInput, 0, false)
  }

  /** The input that receives forwarded messages. */
  function Active(s: TallyState): TextInput {
    if s.phase == 0 then s.restaurantInput else s.tallyInput
  }

  /** The tally the text `v` of the number input stands for, if any. */
  function TallyOf(v: string): (n: Option<Int64>)
    ensures TrimSpace(v) == "" ==> n == None
    ensures n.Some? <==> IsDecimal(TrimSpace(v)) && MinInt64 <= DecimalValue(TrimSpace(v)) <= MaxInt64
    ensures n.Some? ==> n.value == DecimalValue(TrimSpace(v))
  {
    var t := TrimSpace(v);
    if t == "" then None else ParseInt(t)
  }

  /** Hand a message to the input of the current phase; nothing else changes. */
  function Forward(s: TallyState, k: Key): (r: TallyState)
    requires Invariant(s)
    ensures Invariant(r)
    ensures r.phase == s.phase && r.restaurant == s.restaurant
    ensures r.tally == s.tally && r.submitted == s.submitted
    ensures Active(r) == HandleKey(Active(s), k)
    ensures s.phase == 0 ==> r.tallyInput == s.tallyInput
    ensures s.phase == 1 ==> r.restaurantInput == s.restaurantInput
  {
    if s.phase == 0 then s.(restaurantInput := HandleKey(s.restaurantInput, k))
    else s.(tallyInput := HandleKey(s.tallyInput, k))
  }

  /** OfficeTallyModel.Update on one key. */
  function Step(s: TallyState, k: Key): (r: TallyState)
    requires Invariant(s)
    ensures Invariant(r)
    // phase 0: an empty name is refused (no trimming), a non-empty one is captured
    ensures k.Enter? && s.phase == 0 && s.restaurantInput.value == "" ==> r == s
    ensures k.Enter? && s.phase == 0 && s.restaurantInput.value != "" ==>
              && r.phase == 1 && r.restaurant == s.restaurantInput.value
              && r.restaurantInput == Input.Blur(s.restaurantInput)
              && r.tallyInput == Input.Focus(s.tallyInput)
              && r.tally == s.tally && r.submitted == s.submitted
    // phase 1: blank or unparsable text is ignored, a number is stored and submitted
    ensures k.Enter? && s.phase == 1 && TrimSpace(s.tallyInput.value) == "" ==> r == s
    ensures k.Enter? && s.phase == 1 && TallyOf(s.tallyInput.value).None? ==> r == s
    ensures k.Enter? && s.phase == 1 && TallyOf(s.tallyInput.value).Some? ==>
              r == s.(tally := TallyOf(s.tallyInput.value).value, submitted := true)
    // every other message goes to the current input only
    ensures !k.Enter? ==> r == Forward(s, k)
    // what a submission looks like
    ensures r.submitted && !s.submitted ==>
              && k.Enter? && r.phase == 1 && r.restaurant != ""
              && r.tallyInput == s.tallyInput
              && ParseInt(TrimSpace(r.tallyInput.value)) == Some(r.tally)
    ensures s.submitted ==> r.submitted
  {
    match k
    case Enter =>
      if s.phase == 0 then
        var name := s.restaurantInput.value;
        if name == "" then s.(restaurant := name)
        else s.(restaurant := name, phase := 1, restaurantInput := Input.Blur(s.restaurantInput),
                tallyInput := Input.Focus(s.tallyInput))
      else
        var tallyStr := TrimSpace(s.tallyInput.value);
        if tallyStr == "" then s
        else
          (match ParseInt(tallyStr)
           case None => s
           case Some(n) => s.(tally := n, submitted := true))
    case _ => Forward(s, k)
  }

  /** The form after a sequence of keys. */
  function Run(s: TallyState, keys: seq<Key>): (r: TallyState)
    requires Invariant(s)
    ensures Invariant(r)
    ensures s.phase == 1 ==> r.phase == 1 && r.restaurant == s.restaurant
    decreases |keys|
  {
    if keys == [] then s else Run(Step(s, keys[0]), keys[1..])
  }

  /** Without an enter the phase, the name, the tally and the flag stay as they are. */
  lemma {:induction false} NoEnterChangesNothingButText(s: TallyState, keys: seq<Key>)
    requires Invariant(s)
    requires forall i :: 0 <= i < |keys| ==> !keys[i].Enter?
    ensures var r := Run(s, keys);
      r.phase == s.phase && r.restaurant == s.restaurant && r.tally == s.tally && r.submitted == s.submitted
    decreases |keys|
  {
    if keys != [] {
      NoEnterChangesNothingButText(Step(s, keys[0]), keys[1..]);
    }
  }

  /** Enter on text that is not a number is ignored. */
  lemma NotANumberIgnored(s: TallyState)
    requires Invariant(s) && s.phase == 1 && s.tallyInput.value == "abc"
    ensures Step(s, Enter) == s
  {
    assert !IsSpace('a') && !IsSpace('c');
    assert TrimSpace("abc") == "abc";
    ParseIntRejects();
  }

  /** Enter on the rendering of a number outside the 64-bit range is ignored. */
  lemma OutOfRangeIgnored(s: TallyState, n: int)
    requires Invariant(s) && s.phase == 1 && s.tallyInput.value == FormatInt(n)
    requires n < MinInt64 || MaxInt64 < n
    ensures Step(s, Enter) == s
  {
    FormatIntUntrimmed(n);
    ParseRejectsOutOfRange(n);
  }

  /** Enter on the rendering of any 64-bit value submits exactly that value. */
  lemma FormattedTallySubmits(s: TallyState, n: Int64)
    requires Invariant(s) && s.phase == 1 && s.tallyInput.value == FormatInt(n)
    ensures Step(s, Enter) == s.(tally := n, submitted := true)
  {
    FormatIntUntrimmed(n);
    ParseFormatRoundTrip(n);
  }

  /** The name "Deli", then " 5 " in the number field: submitted with the tally 5. */
  lemma DeliTally()
    ensures var r := Run(FocusForm(Initial()), [Type("Deli"), Enter, Type(" 5 "), Enter]);
      r.submitted && r.restaurant == "Deli" && r.tally == 5
  {
    var s0 := FocusForm(Initial());
    var s1 := Step(s0, Type("Deli"));
    var s2 := Step(s1, Enter);
    var s3 := Step(s2, Type(" 5 "));
    assert s3.tallyInput.value == [' ', '5', ' '];
    TrimPadded('5');
    ParseIntAccepts();
    var keys := [Type("Deli"), Enter, Type(" 5 "), Enter];
    assert Run(s0, keys) == Run(s1, keys[1..]);
    assert Run(s1, keys[1..]) == Run(s2, keys[2..]);
    assert Run(s2, keys[2..]) == Run(s3, keys[3..]);
    assert keys[3..] == [Enter];
  }

  /** OfficeTallyModel.Focus: focus the input of the current phase. */
  function FocusForm(s: TallyState): (r: TallyState)
    requires Invariant(s)
    ensures Invariant(r) && Active(r) == Input.Focus(Active(s))
    ensures r.phase == s.phase && r.restaurant == s.restaurant
    ensures r.restaurantInput.value == s.restaurantInput.value && r.tallyInput.value == s.tallyInput.value
    ensures r.tally == s.tally && r.submitted == s.submitted
    ensures s.phase == 0 ==> r.tallyInput == s.tallyInput
    ensures s.phase == 1 ==> r.restaurantInput == s.restaurantInput
  {
    if s.phase == 0 then s.(restaurantInput := Input.Focus(s.restaurantInput))
    else s.(tallyInput := Input.Focus(s.tallyInput))
  }

  /** OfficeTallyModel.Blur: blur the input of the current phase. */
  function BlurForm(s: TallyState): (r: TallyState)
    requires Invariant(s)
    ensures Invariant(r) && Active(r) == Input.Blur(Active(s))
    ensures r.phase == s.phase && r.restaurant == s.restaurant
    ensures r.restaurantInput.value == s.restaurantInput.value && r.tallyInput.value == s.tallyInput.value
    ensures r.tally == s.tally && r.submitted == s.submitted
    ensures s.phase == 0 ==> r.tallyInput == s.tallyInput
    ensures s.phase == 1 ==> r.restaurantInput == s.restaurantInput
  {
    if s.phase == 0 then s.(restaurantInput := Input.Blur(s.restaurantInput))
    else s.(tallyInput := Input.Blur(s.tallyInput))
  }

  /** OfficeTallyModel.Clear: back to phase 0 with both texts empty; focus flags are left as they were. */
  function ClearForm(s: TallyState): (r: TallyState)
    ensures Invariant(r)
    ensures r.phase == 0 && r.restaurant == "" && r.tally == 0 && !r.submitted
    ensures r.restaurantInput == s.restaurantInput.(value := "")
    ensures r.tallyInput == s.tallyInput.(value := "")
  {
    TallyState(0, s.restaurantInput.(value := ""), "", s.tallyInput.(value := ""), 0, false)
  }

  lemma ClearIdempotent(s: TallyState)
    ensures ClearForm(ClearForm(s)) == ClearForm(s)
  {
  }

  // ------------------------------------------------------------------ object

  /** OfficeTallyModel: the form as the source keeps it. */
  class OfficeTallyModel {
    var phase: int
    var restaurantInput: TextInput
    var restaurant: string
    var tallyInput: TextInput
    var tally: Int64
    var submitted: bool

    function State(): TallyState
      reads this
    {
      TallyState(phase, restaurantInput, restaurant, tallyInput, tally, submitted)
    }

    ghost predicate Valid()
      reads this
    {
      Invariant(State())
    }

    /** NewOfficeTallyModel. */
    constructor ()
      ensures Valid() && State() == Initial()
    {
      phase := 0;
      restaurantInput := NewTextInput;
      restaurant := "";
      tallyInput := NewTextInput;
      tally := 0;
      submitted := false;
    }

    method Update(k: Key)
      requires Valid()
      modifies this
      ensures Valid() && State() == Step(old(State()), k)
    {
      if k.Enter? {
        if phase == 0 {
          restaurant := restaurantInput.value;
          if restaurant == "" {
            return;
          }
          phase := 1;
          restaurantInput := Input.Blur(restaurantInput);
          tallyInput := Input.Focus(tallyInput);
          return;
        } else {
          var tallyStr := TrimSpace(tallyInput.value);
          if tallyStr == "" {
            return;
          }
          var parsed := ParseInt(tallyStr);
          if parsed.None? {
            return;
          }
          tally := parsed.value;
          submitted := true;
          return;
        }
      }
      if phase == 0 {
        restaurantInput := HandleKey(restaurantInput, k);
      } else {
        tallyInput := HandleKey(tallyInput, k);
      }
    }

    method Focus()
      requires Valid()
      modifies this
      ensures Valid() && State() == FocusForm(old(State()))
    {
      if phase == 0 {
        restaurantInput := Input.Focus(restaurantInput);
      } else {
        tallyInput := Input.Focus(tallyInput);
      }
    }

    method Blur()
      requires Valid()
      modifies this
      ensures Valid() && State() == BlurForm(old(State()))
    {
      if phase == 0 {
        restaurantInput := Input.Blur(restaurantInput);
      } else {
        tallyInput := Input.Blur(tallyInput);
      }
    }

    function IsSubmitted(): (b: bool)
      reads this
      requires Valid()
      ensures b ==> phase == 1 && restaurant != ""
    {
      submitted
    }

    function SubmittedRestaurant(): (name: string)
      reads this
      requires Valid()
      ensures submitted ==> name != ""
      ensures phase == 0 ==> name == ""
    {
      restaurant
    }

    function SubmittedTally(): (n: Int64)
      reads this
      requires Valid()
      ensures !submitted ==> n == 0
    {
      tally
    }

    method Clear()
      modifies this
      ensures Valid() && State() == ClearForm(old(State()))
    {
      phase := 0;
      restaurant := "";
      restaurantInput := SetValue(restaurantInput, "");
      tallyInput := SetValue(tallyInput, "");
      tally := 0;
      submitted := false;
    }
  }
}
