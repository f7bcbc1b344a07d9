/**
 * The lunch-order form (views/lunch_order.go).
 *
 * Phase 0 collects the restaurant name in one text input. Enter with a
 * non-empty name captures it and moves to phase 1, which shows the five
 * detail questions of `MetadataKeys`, one text input each, with a focus index
 * that enter/down/tab move forward and up/shift+tab move back, stopping at
 * both ends. Enter on the last question marks the form submitted. Every
 * other message goes to the input that has the focus.
 *
 * `LunchState` is the form's value and `Step` its reaction to one key; the
 * class `LunchOrderModel` is the form as the source keeps it, updated field by
 * field, and each of its methods is proved to produce the state the
 * corresponding function describes.
 */
module LunchOrder {
  import opened Text
  import opened Input

  /** The detail questions, in the order they are shown and stored. */
  const MetadataKeys: seq<string> :=
    ["score (1-10)", "food ordered", "order again?", "visit outside of work?", "notes"]

  /** The index of the last question. */
  const LastField: int := |MetadataKeys| - 1

  datatype LunchState = LunchState(
    phase: int,                     // 0: restaurant, 1: details
    restaurantInput: TextInput,
    restaurant: string,             // the name captured when phase 1 began
    metadataInputs: seq<TextInput>,
    focusIndex: int,
    submitted: bool)

  /** What holds of every state the form can reach from NewLunchOrderModel. */
  predicate Invariant(s: LunchState) {
    && |s.metadataInputs| == |MetadataKeys|
    && (s.phase == 0 || s.phase == 1)
    && 0 <= s.focusIndex <= LastField
    && (s.phase == 0 ==> s.focusIndex == 0 && s.restaurant == "")
    && (s.phase == 1 ==> s.restaurant != "" && !s.restaurantInput.focused)
    && (s.submitted ==> s.phase == 1)
    && (forall j :: 0 <= j < |s.metadataInputs| && s.metadataInputs[j].focused ==>
          s.phase == 1 && j == s.focusIndex)
  }

  /** The texts of the five detail inputs. */
  function Values(s: LunchState): (vs: seq<string>)
    ensures |vs| == |s.metadataInputs|
    ensures forall j :: 0 <= j < |vs| ==> vs[j] == s.metadataInputs[j].value
  {
    seq(|s.metadataInputs|, j requires 0 <= j < |s.metadataInputs| => s.metadataInputs[j].value)
  }

  /** NewLunchOrderModel: phase 0, every input empty and blurred. */
  function Initial(): (s: LunchState)
    ensures Invariant(s)
    ensures s.phase == 0 && s.restaurant == "" && !s.submitted && s.focusIndex == 0
    ensures s.restaurantInput == NewTextInput
    ensures forall j :: 0 <= j < |s.metadataInputs| ==> s.metadataInputs[j] == NewTextInput
  {
    LunchState(0, NewTextInput, "", seq(|MetadataKeys|, _ => NewTextInput), 0, false)
  }

  /** The input that receives forwarded messages: the name in phase 0, the focused question in phase 1. */
  function Active(s: LunchState): TextInput
    requires Invariant(s)
  {
    if s.phase == 0 then s.restaurantInput else s.metadataInputs[s.focusIndex]
  }

  /** Field `to` holds the only focused question; every text and every other field are as in `s`. */
  predicate FocusMoved(s: LunchState, r: LunchState, to: int) {
    && r.focusIndex == to
    && r.phase == s.phase && r.restaurantInput == s.restaurantInput
    && r.restaurant == s.restaurant && r.submitted == s.submitted
    && |r.metadataInputs| == |s.metadataInputs|
    && (forall j :: 0 <= j < |r.metadataInputs| ==>
          r.metadataInputs[j].value == s.metadataInputs[j].value
          && (r.metadataInputs[j].focused <==> j == to))
  }

  /** Blur the focused question, move the index to `to`, focus that question. */
  function MoveFocus(s: LunchState, to: int): (r: LunchState)
    requires Invariant(s) && s.phase == 1 && 0 <= to <= LastField
    ensures Invariant(r)
    ensures FocusMoved(s, r, to)
  {
    var blurred := s.metadataInputs[s.focusIndex := Input.Blur(s.metadataInputs[s.focusIndex])];
    s.(focusIndex := to, metadataInputs := blurred[to := Input.Focus(blurred[to])])
  }

  /** Hand a message to the active input; nothing else changes. */
  function Forward(s: LunchState, k: Key): (r: LunchState)
    requires Invariant(s)
    ensures Invariant(r)
    ensures r.phase == s.phase && r.restaurant == s.restaurant
    ensures r.focusIndex == s.focusIndex && r.submitted == s.submitted
    ensures Active(r) == HandleKey(Active(s), k)
    ensures s.phase == 0 ==> r.metadataInputs == s.metadataInputs
    ensures s.phase == 1 ==> r.restaurantInput == s.restaurantInput
    ensures forall j :: 0 <= j < |s.metadataInputs| && j != s.focusIndex ==>
              r.metadataInputs[j] == s.metadataInputs[j]
  {
    if s.phase == 0 then s.(restaurantInput := HandleKey(s.restaurantInput, k))
    else s.(metadataInputs := s.metadataInputs[s.focusIndex := HandleKey(s.metadataInputs[s.focusIndex], k)])
  }

  /** Whether one of Update's key branches handles `k` itself (otherwise it is forwarded). */
  predicate Consumes(s: LunchState, k: Key) {
    || k.Enter?
    || (s.phase == 1 && (k.Up? || k.ShiftTab?) && s.focusIndex > 0)
    || (s.phase == 1 && (k.Down? || k.Tab?) && s.focusIndex < LastField)
  }

  /** LunchOrderModel.Update on one key. */
  function Step(s: LunchState, k: Key): (r: LunchState)
    requires Invariant(s)
    ensures Invariant(r)
    // phase 0: an empty name is refused (no trimming), a non-empty one is captured
    ensures k.Enter? && s.phase == 0 && s.restaurantInput.value == "" ==> r == s
    ensures k.Enter? && s.phase == 0 && s.restaurantInput.value != "" ==>
              && r.phase == 1 && r.restaurant == s.restaurantInput.value
              && r.restaurantInput == Input.Blur(s.restaurantInput)
              && FocusMoved(s.(phase := 1, restaurant := r.restaurant, restaurantInput := r.restaurantInput), r, 0)
    // phase 1: clamped focus movement
    ensures (k.Enter? || k.Down? || k.Tab?) && s.phase == 1 && s.focusIndex < LastField ==>
              FocusMoved(s, r, s.focusIndex + 1)
    ensures (k.Up? || k.ShiftTab?) && s.phase == 1 && s.focusIndex > 0 ==>
              FocusMoved(s, r, s.focusIndex - 1)
    // enter on the last question submits, whatever the answers
    ensures k.Enter? && s.phase == 1 && s.focusIndex == LastField ==> r == s.(submitted := true)
    // everything else goes to the focused input only
    ensures !Consumes(s, k) ==> r == Forward(s, k)
    // what a submission looks like
    ensures r.submitted && !s.submitted ==>
              k.Enter? && r.phase == 1 && r.restaurant != "" && r.focusIndex == LastField
              && Values(r) == Values(s)
    ensures s.submitted ==> r.submitted
  {
    match k
    case Enter =>
      if s.phase == 0 then
        var name := s.restaurantInput.value;
        if name == "" then s.(restaurant := name)
        else
          s.(restaurant := name, phase := 1, restaurantInput := Input.Blur(s.restaurantInput),
             metadataInputs := s.metadataInputs[0 := Input.Focus(s.metadataInputs[0])])
      else if s.focusIndex < LastField then MoveFocus(s, s.focusIndex + 1)
      else s.(submitted := true)
    case Up | ShiftTab =>
      if s.phase == 1 && s.focusIndex > 0 then MoveFocus(s, s.focusIndex - 1) else Forward(s, k)
    case Down | Tab =>
      if s.phase == 1 && s.focusIndex < LastField then MoveFocus(s, s.focusIndex + 1) else Forward(s, k)
    case _ => Forward(s, k)
  }

  /** The form after a sequence of keys. */
  function Run(s: LunchState, keys: seq<Key>): (r: LunchState)
    requires Invariant(s)
    ensures Invariant(r)
    ensures s.phase == 1 ==> r.phase == 1 && r.restaurant == s.restaurant
    decreases |keys|
  {
    if keys == [] then s else Run(Step(s, keys[0]), keys[1..])
  }

  /** Without an enter the form never leaves phase 0, and the questions are untouched. */
  lemma {:induction false} NoEnterStaysInPhase0(s: LunchState, keys: seq<Key>)
    requires Invariant(s) && s.phase == 0
    requires forall i :: 0 <= i < |keys| ==> !keys[i].Enter?
    ensures Run(s, keys).phase == 0 && !Run(s, keys).submitted
    ensures Run(s, keys).metadataInputs == s.metadataInputs
    decreases |keys|
  {
    if keys != [] {
      NoEnterStaysInPhase0(Step(s, keys[0]), keys[1..]);
    }
  }

  /** `n` enters in a row. */
  function Enters(n: nat): (keys: seq<Key>)
    ensures |keys| == n && forall i :: 0 <= i < n ==> keys[i] == Enter
  {
    seq(n, _ => Enter)
  }

  /** From question `i` of phase 1, exactly LastField - i + 1 enters submit the form, whatever the answers, and change no answer. */
  lemma {:induction false} EntersSubmit(s: LunchState)
    requires Invariant(s) && s.phase == 1 && !s.submitted
    ensures var r := Run(s, Enters(LastField - s.focusIndex + 1));
      && r.submitted && r.focusIndex == LastField
      && r.restaurant == s.restaurant && Values(r) == Values(s)
    ensures !Run(s, Enters(LastField - s.focusIndex)).submitted
    decreases LastField - s.focusIndex
  {
    var n := LastField - s.focusIndex;
    var t := Step(s, Enter);
    if n == 0 {
      assert Enters(1)[1..] == [];
      assert Enters(0) == [];
    } else {
      assert Enters(n + 1)[1..] == Enters(n);
      assert Enters(n)[1..] == Enters(n - 1);
      EntersSubmit(t);
    }
  }

  /** Answers where only the score is given, as " 8 ", become a one-entry object. */
  lemma ScoreOnlyMetadata(vs: seq<string>)
    requires |vs| == |MetadataKeys| && vs[0] == " 8 " && forall j :: 1 <= j < |vs| ==> vs[j] == ""
    ensures MetadataOf(vs) == JsonObject(map["score (1-10)" := "8"])
  {
    TrimPadded('8');
    assert vs[0] == [' ', '8', ' '];
    assert TrimSpace("") == "";
    var one := map["score (1-10)" := "8"];
    assert MetadataUpTo(vs, 1) == one;
    assert MetadataUpTo(vs, 2) == one;
    assert MetadataUpTo(vs, 3) == one;
    assert MetadataUpTo(vs, 4) == one;
    assert MetadataUpTo(vs, 5) == one;
  }

  /**
   * A whole order: the name "Torched Hop", a score of " 8 ", then enter
   * through the remaining questions. The form is submitted and its metadata
   * holds the one trimmed answer.
   */
  lemma TorchedHopOrder()
    ensures var r := Run(FocusForm(Initial()), [Type("Torched Hop"), Enter, Type(" 8 ")] + Enters(5));
      && r.submitted && r.restaurant == "Torched Hop"
      && MetadataOf(Values(r)) == JsonObject(map["score (1-10)" := "8"])
  {
    var s0 := FocusForm(Initial());
    var s1 := Step(s0, Type("Torched Hop"));
    assert s1.restaurantInput.value == "Torched Hop";
    var s2 := Step(s1, Enter);
    assert s2.phase == 1 && s2.focusIndex == 0 && s2.metadataInputs[0].focused;
    assert forall j :: 0 <= j < |s2.metadataInputs| ==> s2.metadataInputs[j].value == "";
    var s3 := Step(s2, Type(" 8 "));
    assert Values(s3)[0] == " 8 ";
    var keys := [Type("Torched Hop"), Enter, Type(" 8 ")] + Enters(5);
    assert Run(s0, keys) == Run(s1, keys[1..]);
    assert Run(s1, keys[1..]) == Run(s2, keys[2..]);
    assert Run(s2, keys[2..]) == Run(s3, keys[3..]);
    assert keys[3..] == Enters(5);
    EntersSubmit(s3);
    ScoreOnlyMetadata(Values(s3));
  }

  /** A name of spaces only is still a name: the test for an empty name does not trim. */
  lemma BlankNameAdvances()
    ensures var r := Run(FocusForm(Initial()), [Type("  "), Enter]);
      r.phase == 1 && r.restaurant == "  "
  {
    var s1 := Step(FocusForm(Initial()), Type("  "));
    assert [Type("  "), Enter][1..] == [Enter];
  }

  /** LunchOrderModel.Focus: focus the active input. */
  function FocusForm(s: LunchState): (r: LunchState)
    requires Invariant(s)
    ensures Invariant(r) && Active(r) == Input.Focus(Active(s))
    ensures Values(r) == Values(s) && r.restaurant == s.restaurant && r.phase == s.phase
    ensures r.focusIndex == s.focusIndex && r.submitted == s.submitted
    ensures s.phase == 0 ==> r.metadataInputs == s.metadataInputs
    ensures s.phase == 1 ==> r.restaurantInput == s.restaurantInput
    ensures forall j :: 0 <= j < |s.metadataInputs| && j != s.focusIndex ==>
              r.metadataInputs[j] == s.metadataInputs[j]
  {
    if s.phase == 0 then s.(restaurantInput := Input.Focus(s.restaurantInput))
    else s.(metadataInputs := s.metadataInputs[s.focusIndex := Input.Focus(s.metadataInputs[s.focusIndex])])
  }

  /** LunchOrderModel.Blur: blur the active input. */
  function BlurForm(s: LunchState): (r: LunchState)
    requires Invariant(s)
    ensures Invariant(r) && Active(r) == Input.Blur(Active(s))
    ensures Values(r) == Values(s) && r.restaurant == s.restaurant && r.phase == s.phase
    ensures r.focusIndex == s.focusIndex && r.submitted == s.submitted
    ensures s.phase == 0 ==> r.metadataInputs == s.metadataInputs
    ensures s.phase == 1 ==> r.restaurantInput == s.restaurantInput
    ensures forall j :: 0 <= j < |s.metadataInputs| && j != s.focusIndex ==>
              r.metadataInputs[j] == s.metadataInputs[j]
  {
    if s.phase == 0 then s.(restaurantInput := Input.Blur(s.restaurantInput))
    else s.(metadataInputs := s.metadataInputs[s.focusIndex := Input.Blur(s.metadataInputs[s.focusIndex])])
  }

  /**
   * LunchOrderModel.Clear: back to phase 0 with every text empty and every
   * question blurred. The focus flag of the name input is left as it was.
   */
  function ClearForm(s: LunchState): (r: LunchState)
    ensures r.phase == 0 && r.restaurant == "" && r.focusIndex == 0 && !r.submitted
    ensures r.restaurantInput == s.restaurantInput.(value := "")
    ensures |r.metadataInputs| == |s.metadataInputs|
    ensures forall j :: 0 <= j < |r.metadataInputs| ==> r.metadataInputs[j] == NewTextInput
    ensures |s.metadataInputs| == |MetadataKeys| ==> Invariant(r)
  {
    LunchState(0, s.restaurantInput.(value := ""), "", seq(|s.metadataInputs|, _ => NewTextInput), 0, false)
  }

  lemma ClearIdempotent(s: LunchState)
    ensures ClearForm(ClearForm(s)) == ClearForm(s)
  {
  }

  // ---------------------------------------------------------------- metadata

  /** The saved metadata: "" when no answer is left after trimming, else a JSON object. */
  datatype MetadataText = EmptyText | JsonObject(fields: map<string, string>)

  /** The map SubmittedMetadata has built after looking at the first `n` questions. */
  function MetadataUpTo(values: seq<string>, n: nat): map<string, string>
    requires n <= |values| <= |MetadataKeys|
  {
    if n == 0 then map[]
    else
      var data := MetadataUpTo(values, n - 1);
      var v := TrimSpace(values[n - 1]);
      if v != "" then data[MetadataKeys[n - 1] := v] else data
  }

  lemma KeysDistinct()
    ensures forall i, j :: 0 <= i < j < |MetadataKeys| ==> MetadataKeys[i] != MetadataKeys[j]
  {
    assert MetadataKeys[0][0] == 's' && MetadataKeys[1][0] == 'f' && MetadataKeys[2][0] == 'o';
    assert MetadataKeys[3][0] == 'v' && MetadataKeys[4][0] == 'n';
  }

  /** After `n` questions, question `j < n` has its key in the map exactly when its trimmed answer is non-empty, and then that answer. */
  lemma {:induction false} MetadataUpToAt(values: seq<string>, n: nat, j: nat)
    requires j < n <= |values| <= |MetadataKeys|
    ensures MetadataKeys[j] in MetadataUpTo(values, n) <==> TrimSpace(values[j]) != ""
    ensures MetadataKeys[j] in MetadataUpTo(values, n) ==>
              MetadataUpTo(values, n)[MetadataKeys[j]] == TrimSpace(values[j])
  {
    KeysDistinct();
    if j < n - 1 {
      MetadataUpToAt(values, n - 1, j);
      assert MetadataKeys[j] != MetadataKeys[n - 1];
    } else {
      MetadataUpToKeys(values, n - 1);
      assert MetadataKeys[j] !in MetadataKeys[..n - 1];
    }
  }

  /** Every key of the map after `n` questions is the key of one of them. */
  lemma {:induction false} MetadataUpToKeys(values: seq<string>, n: nat)
    requires n <= |values| <= |MetadataKeys|
    ensures forall key :: key in MetadataUpTo(values, n) ==> key in MetadataKeys[..n]
  {
    if n > 0 {
      MetadataUpToKeys(values, n - 1);
      assert MetadataKeys[..n] == MetadataKeys[..n - 1] + [MetadataKeys[n - 1]];
    }
  }

  /** SubmittedMetadata's result for the given answers. */
  function MetadataOf(values: seq<string>): (t: MetadataText)
    requires |values| == |MetadataKeys|
    ensures t == EmptyText <==> forall j :: 0 <= j < |values| ==> TrimSpace(values[j]) == ""
    ensures t.JsonObject? ==>
              && (forall j :: 0 <= j < |values| ==>
                    (MetadataKeys[j] in t.fields <==> TrimSpace(values[j]) != ""))
              && (forall j :: 0 <= j < |values| && TrimSpace(values[j]) != "" ==>
                    t.fields[MetadataKeys[j]] == TrimSpace(values[j]))
              && (forall key :: key in t.fields ==> key in MetadataKeys)
  {
    var data := MetadataUpTo(values, |values|);
    MetadataUpToKeys(values, |values|);
    assert MetadataKeys[..|values|] == MetadataKeys;
    assert forall j :: 0 <= j < |values| ==>
      (MetadataKeys[j] in data <==> TrimSpace(values[j]) != "")
      && (MetadataKeys[j] in data ==> data[MetadataKeys[j]] == TrimSpace(values[j])) by {
      forall j | 0 <= j < |values| ensures
        && (MetadataKeys[j] in data <==> TrimSpace(values[j]) != "")
        && (MetadataKeys[j] in data ==> data[MetadataKeys[j]] == TrimSpace(values[j]))
      {
        MetadataUpToAt(values, |values|, j);
      }
    }
    if |data| == 0 then EmptyText else JsonObject(data)
  }

  // ------------------------------------------------------------------ object

  /** LunchOrderModel: the form as the source keeps it. */
  class LunchOrderModel {
    var phase: int
    var restaurantInput: TextInput
    var restaurant: string
    const metadataInputs: array<TextInput>
    var focusIndex: int
    var submitted: bool

    function State(): LunchState
      reads this, metadataInputs
    {
      LunchState(phase, restaurantInput, restaurant, metadataInputs[..], focusIndex, submitted)
    }

    ghost predicate Valid()
      reads this, metadataInputs
    {
      Invariant(State())
    }

    /** NewLunchOrderModel. */
    constructor ()
      ensures Valid() && State() == Initial() && fresh(metadataInputs)
    {
      var inputs := new TextInput[|MetadataKeys|];
      for i := 0 to |MetadataKeys|
        invariant forall j :: 0 <= j < i ==> inputs[j] == NewTextInput
      {
        inputs[i] := NewTextInput;
      }
      phase := 0;
      restaurantInput := NewTextInput;
      restaurant := "";
      metadataInputs := inputs;
      focusIndex := 0;
      submitted := false;
      new;
      assert State().metadataInputs == Initial().metadataInputs;
    }

    /** Blur the question at focusIndex, move to `to`, focus it (the repeated navigation stanza). */
    method MoveTo(to: int)
      requires Valid() && phase == 1 && 0 <= to <= LastField
      modifies this, metadataInputs
      ensures State() == MoveFocus(old(State()), to)
    {
      metadataInputs[focusIndex] := Input.Blur(metadataInputs[focusIndex]);
      focusIndex := to;
      metadataInputs[focusIndex] := Input.Focus(metadataInputs[focusIndex]);
    }

    /** Hand the message to the active input. */
    method ForwardKey(k: Key)
      requires Valid()
      modifies this, metadataInputs
      ensures State() == Forward(old(State()), k)
    {
      if phase == 0 {
        restaurantInput := HandleKey(restaurantInput, k);
      } else {
        metadataInputs[focusIndex] := HandleKey(metadataInputs[focusIndex], k);
      }
    }

    method Update(k: Key)
      requires Valid()
      modifies this, metadataInputs
      ensures Valid() && State() == Step(old(State()), k)
    {
      match k {
        case Enter =>
          if phase == 0 {
            restaurant := restaurantInput.value;
            if restaurant == "" {
              return;
            }
            phase := 1;
            restaurantInput := Input.Blur(restaurantInput);
            metadataInputs[0] := Input.Focus(metadataInputs[0]);
          } else if focusIndex < metadataInputs.Length - 1 {
            MoveTo(focusIndex + 1);
          } else {
            submitted := true;
          }
        case Up | ShiftTab =>
          if phase == 1 && focusIndex > 0 {
            MoveTo(focusIndex - 1);
          } else {
            ForwardKey(k);
          }
        case Down | Tab =>
          if phase == 1 && focusIndex < metadataInputs.Length - 1 {
            MoveTo(focusIndex + 1);
          } else {
            ForwardKey(k);
          }
        case _ =>
          ForwardKey(k);
      }
    }

    method Focus()
      requires Valid()
      modifies this, metadataInputs
      ensures Valid() && State() == FocusForm(old(State()))
    {
      if phase == 0 {
        restaurantInput := Input.Focus(restaurantInput);
      } else {
        metadataInputs[focusIndex] := Input.Focus(metadataInputs[focusIndex]);
      }
    }

    method Blur()
      requires Valid()
      modifies this, metadataInputs
      ensures Valid() && State() == BlurForm(old(State()))
    {
      if phase == 0 {
        restaurantInput := Input.Blur(restaurantInput);
      } else {
        metadataInputs[focusIndex] := Input.Blur(metadataInputs[focusIndex]);
      }
    }

    function IsSubmitted(): (b: bool)
      reads this, metadataInputs
      requires Valid()
      ensures b ==> phase == 1 && restaurant != ""
    {
      submitted
    }

    function SubmittedRestaurant(): (name: string)
      reads this, metadataInputs
      requires Valid()
      ensures submitted ==> name != ""
      ensures phase == 0 ==> name == ""
    {
      restaurant
    }

    /** Collect the trimmed, non-empty answers under their question keys. */
    method SubmittedMetadata() returns (text: MetadataText)
      requires Valid()
      ensures text == MetadataOf(Values(State()))
    {
      var data: map<string, string> := map[];
      ghost var values := Values(State());
      for i := 0 to metadataInputs.Length
        invariant data == MetadataUpTo(values, i)
      {
        var val := TrimSpace(metadataInputs[i].value);
        if val != "" {
          data := data[MetadataKeys[i] := val];
        }
      }
      if |data| == 0 {
        return EmptyText;
      }
      text := JsonObject(data);
    }

    method Clear()
      modifies this, metadataInputs
      ensures State() == ClearForm(old(State()))
    {
      phase := 0;
      restaurant := "";
      restaurantInput := SetValue(restaurantInput, "");
      focusIndex := 0;
      submitted := false;
      for i := 0 to metadataInputs.Length
        invariant phase == 0 && restaurant == "" && focusIndex == 0 && !submitted
        invariant restaurantInput == old(restaurantInput).(value := "")
        invariant forall j :: 0 <= j < i ==> metadataInputs[j] == NewTextInput
      {
        metadataInputs[i] := SetValue(metadataInputs[i], "");
        metadataInputs[i] := Input.Blur(metadataInputs[i]);
      }
      assert State().metadataInputs == ClearForm(old(State())).metadataInputs;
    }
  }
}
