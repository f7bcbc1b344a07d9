/**
 * The navigation controller (main.go): the top-level model that owns the
 * current view, routes each message to the home menu or to the active form,
 * hands a submitted form's record to the store and resets the form.
 *
 * Two collaborators stand outside the model. The home menu (views.HomeModel)
 * is reduced to the choice it reports: what its Update makes of a message is
 * a parameter of the controller's Update, and its Clear forgets the choice.
 * The store is an append-only sequence of records; whether an insert
 * succeeds is likewise a parameter.
 */
module App {
  import opened Text
  import opened Input
  import LunchOrder
  import OfficeTally

  datatype ViewState = ViewHome | ViewLunchOrder | ViewOfficeTally

  /** The two menu entries the controller acts on. */
  const LunchOrderChoice: string := "Post your own lunch order"
  const OfficeTallyChoice: string := "Post the office tally"

  /** One row handed to the store: db.LunchOrder or db.OfficeTally (id, timestamp and soft-delete flag are the store's). */
  datatype Record =
    | LunchOrderRecord(restaurant: string, metadata: LunchOrder.MetadataText)
    | OfficeTallyRecord(restaurant: string, tally: Int64)

  /** The text of an error returned by the store. */
  datatype StoreError = StoreError(message: string)

  /**
   * How the store answers one insert: the row is written and its id returned;
   * Exec fails and nothing is written; or the row is written but reading back
   * its id fails.
   */
  datatype InsertOutcome = Stored | Rejected(error: StoreError) | StoredWithError(error: StoreError)

  /** The rows after an insert, and the error the insert returns. */
  function Inserted(rows: seq<Record>, rec: Record, outcome: InsertOutcome): (res: (seq<Record>, Option<StoreError>))
    ensures res.0 == (if outcome.Rejected? then rows else rows + [rec])
    ensures res.1 == (if outcome.Stored? then None else Some(outcome.error))
  {
    match outcome
    case Stored => (rows + [rec], None)
    case Rejected(e) => (rows, Some(e))
    case StoredWithError(e) => (rows + [rec], Some(e))
  }

  /** A record as the forms produce it: a non-empty name, and only answered questions in the metadata. */
  predicate WellFormed(rec: Record) {
    && rec.restaurant != ""
    && (rec.LunchOrderRecord? && rec.metadata.JsonObject? ==>
          && |rec.metadata.fields| > 0
          && forall key :: key in rec.metadata.fields ==>
               key in LunchOrder.MetadataKeys && rec.metadata.fields[key] != "")
  }

  datatype AppState = AppState(
    view: ViewState,
    homeChoice: string,                 // what home.Choice() reports
    lunch: LunchOrder.LunchState,
    tally: OfficeTally.TallyState,
    err: Option<StoreError>,
    rows: seq<Record>)                  // the store's contents

  /** What holds between messages, from initialModel on. */
  predicate Invariant(s: AppState) {
    && LunchOrder.Invariant(s.lunch)
    && OfficeTally.Invariant(s.tally)
    && !s.lunch.submitted && !s.tally.submitted
    && s.homeChoice == ""
    && (s.view != ViewLunchOrder ==> s.lunch.phase == 0)
    && (s.view != ViewOfficeTally ==> s.tally.phase == 0)
    && (s.view == ViewLunchOrder ==> LunchOrder.Active(s.lunch).focused)
    && (s.view == ViewOfficeTally ==> OfficeTally.Active(s.tally).focused)
  }

  /** initialModel: the home view, fresh forms, no error, the store as opened. */
  function Initial(rows: seq<Record>): (s: AppState)
    ensures Invariant(s) && s.view == ViewHome && s.err == None && s.rows == rows
  {
    AppState(ViewHome, "", LunchOrder.Initial(), OfficeTally.Initial(), None, rows)
  }

  /** The home branch: `choice` is what home.Choice() reports after home.Update(msg). */
  function HomeStep(s: AppState, choice: string): (r: AppState)
    requires Invariant(s) && s.view == ViewHome
    ensures Invariant(r)
    ensures r.rows == s.rows && r.err == s.err
    ensures choice == LunchOrderChoice ==>
              r == s.(view := ViewLunchOrder, lunch := LunchOrder.FocusForm(s.lunch))
    ensures choice == OfficeTallyChoice ==>
              r == s.(view := ViewOfficeTally, tally := OfficeTally.FocusForm(s.tally))
    ensures choice != LunchOrderChoice && choice != OfficeTallyChoice ==> r == s
  {
    if choice != "" then
      var cleared := s.(homeChoice := "");
      if choice == LunchOrderChoice then
        cleared.(view := ViewLunchOrder, lunch := LunchOrder.FocusForm(s.lunch))
      else if choice == OfficeTallyChoice then
        cleared.(view := ViewOfficeTally, tally := OfficeTally.FocusForm(s.tally))
      else cleared
    else s.(homeChoice := choice)
  }

  /** The lunch-order branch: update the form; on submission store the order, reset the form, go home. */
  function LunchStep(s: AppState, k: Key, outcome: InsertOutcome): (r: AppState)
    requires Invariant(s) && s.view == ViewLunchOrder
    ensures Invariant(r)
    ensures r.tally == s.tally
    ensures var form := LunchOrder.Step(s.lunch, k);
      if form.submitted then
        && r.view == ViewHome && r.lunch == LunchOrder.ClearForm(form)
        && var rec := LunchOrderRecord(form.restaurant, LunchOrder.MetadataOf(LunchOrder.Values(form)));
           (r.rows, r.err) == (Inserted(s.rows, rec, outcome).0, if outcome.Stored? then s.err else Some(outcome.error))
      else
        r == s.(lunch := form)
  {
    var form := LunchOrder.Step(s.lunch, k);
    if form.submitted then
      var order := LunchOrderRecord(form.restaurant, LunchOrder.MetadataOf(LunchOrder.Values(form)));
      var (rows, e) := Inserted(s.rows, order, outcome);
      s.(lunch := LunchOrder.ClearForm(form), rows := rows, err := if e.Some? then e else s.err,
         view := ViewHome, homeChoice := "")
    else s.(lunch := form)
  }

  /** The office-tally branch: update the form; on submission store the tally, reset and refocus the form, stay. */
  function TallyStep(s: AppState, k: Key, outcome: InsertOutcome): (r: AppState)
    requires Invariant(s) && s.view == ViewOfficeTally
    ensures Invariant(r)
    ensures r.lunch == s.lunch && r.view == ViewOfficeTally
    ensures var form := OfficeTally.Step(s.tally, k);
      if form.submitted then
        && r.tally == OfficeTally.FocusForm(OfficeTally.ClearForm(form))
        && var rec := OfficeTallyRecord(form.restaurant, form.tally);
           (r.rows, r.err) == (Inserted(s.rows, rec, outcome).0, if outcome.Stored? then s.err else Some(outcome.error))
      else
        r == s.(tally := form)
  {
    var form := OfficeTally.Step(s.tally, k);
    if form.submitted then
      var entry := OfficeTallyRecord(form.restaurant, form.tally);
      var (rows, e) := Inserted(s.rows, entry, outcome);
      s.(tally := OfficeTally.FocusForm(OfficeTally.ClearForm(form)), rows := rows,
         err := if e.Some? then e else s.err)
    else s.(tally := form)
  }

  /** Whether a record list only grew by well-formed records. */
  predicate Appended(before: seq<Record>, after: seq<Record>) {
    && |before| <= |after|
    && after[..|before|] == before
    && forall i :: |before| <= i < |after| ==> WellFormed(after[i])
  }

  lemma AppendedTransitive(a: seq<Record>, b: seq<Record>, c: seq<Record>)
    requires Appended(a, b) && Appended(b, c)
    ensures Appended(a, c)
  {
    assert c[..|a|] == c[..|b|][..|a|];
  }

  /**
   * model.Update on one message: the new state and whether the program quits.
   * `choice` is what the home menu reports after seeing the message and
   * `outcome` how the store answers an insert, if one is made.
   */
  function Step(s: AppState, k: Key, choice: string, outcome: InsertOutcome): (res: (AppState, bool))
    requires Invariant(s)
    ensures Invariant(res.0)
    ensures !res.0.lunch.submitted && !res.0.tally.submitted
    ensures res.1 <==> k.CtrlC?
    ensures k.CtrlC? ==> res.0 == s
    ensures k.Esc? && s.view == ViewLunchOrder ==>
              res.0 == s.(view := ViewHome, lunch := LunchOrder.ClearForm(s.lunch))
    ensures k.Esc? && s.view == ViewOfficeTally ==>
              res.0 == s.(view := ViewHome, tally := OfficeTally.ClearForm(s.tally))
    ensures !k.CtrlC? && s.view == ViewHome ==> res.0 == HomeStep(s, choice)
    ensures !k.CtrlC? && !k.Esc? && s.view == ViewLunchOrder ==> res.0 == LunchStep(s, k, outcome)
    ensures !k.CtrlC? && !k.Esc? && s.view == ViewOfficeTally ==> res.0 == TallyStep(s, k, outcome)
    ensures s.view != ViewLunchOrder ==> res.0.lunch == s.lunch || res.0.lunch == LunchOrder.FocusForm(s.lunch)
    ensures s.view != ViewOfficeTally ==> res.0.tally == s.tally || res.0.tally == OfficeTally.FocusForm(s.tally)
    ensures Appended(s.rows, res.0.rows) && |res.0.rows| <= |s.rows| + 1
    ensures outcome.Stored? ==> res.0.err == s.err
  {
    match k
    case CtrlC => (s, true)
    case Esc =>
      if s.view == ViewLunchOrder then
        (s.(lunch := LunchOrder.ClearForm(s.lunch), view := ViewHome, homeChoice := ""), false)
      else if s.view == ViewOfficeTally then
        (s.(tally := OfficeTally.ClearForm(s.tally), view := ViewHome, homeChoice := ""), false)
      else (Route(s, k, choice, outcome), false)
    case _ => (Route(s, k, choice, outcome), false)
  }

  /** The second half of model.Update: hand the message to the current view. */
  function Route(s: AppState, k: Key, choice: string, outcome: InsertOutcome): (r: AppState)
    requires Invariant(s)
    requires s.view != ViewHome ==> !k.Esc? && !k.CtrlC?
    ensures Invariant(r)
    ensures Appended(s.rows, r.rows) && |r.rows| <= |s.rows| + 1
  {
    match s.view
    case ViewHome => HomeStep(s, choice)
    case ViewLunchOrder =>
      SubmittedLunchIsWellFormed(s.lunch, k);
      LunchStep(s, k, outcome)
    case ViewOfficeTally => TallyStep(s, k, outcome)
  }

  /** The record built from a lunch order that Step has just submitted is well formed. */
  lemma SubmittedLunchIsWellFormed(form: LunchOrder.LunchState, k: Key)
    requires LunchOrder.Invariant(form) && !form.submitted
    ensures var r := LunchOrder.Step(form, k);
      r.submitted ==>
        WellFormed(LunchOrderRecord(r.restaurant, LunchOrder.MetadataOf(LunchOrder.Values(r))))
  {
    var r := LunchOrder.Step(form, k);
    if r.submitted {
      var vs := LunchOrder.Values(r);
      var m := LunchOrder.MetadataOf(vs);
      if m.JsonObject? {
        forall key | key in m.fields ensures m.fields[key] != "" {
          var j :| 0 <= j < |LunchOrder.MetadataKeys| && LunchOrder.MetadataKeys[j] == key;
          assert TrimSpace(vs[j]) != "";
        }
        assert exists j :: 0 <= j < |vs| && TrimSpace(vs[j]) != "";
        var j :| 0 <= j < |vs| && TrimSpace(vs[j]) != "";
        assert LunchOrder.MetadataKeys[j] in m.fields;
      }
    }
  }

  /** One message of a session: the key, the menu's reported choice, the store's answer. */
  datatype Event = Event(key: Key, choice: string, outcome: InsertOutcome)

  /** The controller after a session of messages, stopping at the first ctrl+c. */
  function Session(s: AppState, events: seq<Event>): (r: AppState)
    requires Invariant(s)
    ensures Invariant(r)
    ensures Appended(s.rows, r.rows)
    decreases |events|
  {
    if events == [] then s
    else
      var e := events[0];
      var (next, quit) := Step(s, e.key, e.choice, e.outcome);
      if quit then next
      else
        var r := Session(next, events[1..]);
        AppendedTransitive(s.rows, next.rows, r.rows);
        r
  }

  /** A successful insert never sets an error, so a session in which every insert succeeds keeps the error it started with. */
  lemma {:induction false} StoredSessionKeepsError(s: AppState, events: seq<Event>)
    requires Invariant(s)
    requires forall i :: 0 <= i < |events| ==> events[i].outcome.Stored?
    ensures Session(s, events).err == s.err
    decreases |events|
  {
    if events != [] {
      var e := events[0];
      var (next, quit) := Step(s, e.key, e.choice, e.outcome);
      if !quit {
        StoredSessionKeepsError(next, events[1..]);
      }
    }
  }

  /**
   * From the start: pick the office tally on the menu, type "Deli", enter,
   * type "12", enter. One tally row is stored and the tally screen is shown
   * again, back at the name question with its input focused.
   */
  lemma DeliTallySession(rows: seq<Record>)
    ensures var r := Session(Initial(rows), [
        Event(Enter, OfficeTallyChoice, Stored),
        Event(Type("Deli"), "", Stored),
        Event(Enter, "", Stored),
        Event(Type("12"), "", Stored),
        Event(Enter, "", Stored)]);
      && r.rows == rows + [OfficeTallyRecord("Deli", 12)]
      && r.view == ViewOfficeTally && r.err == None
      && r.tally.phase == 0 && r.tally.restaurantInput.focused
  {
    var events := [
        Event(Enter, OfficeTallyChoice, Stored),
        Event(Type("Deli"), "", Stored),
        Event(Enter, "", Stored),
        Event(Type("12"), "", Stored),
        Event(Enter, "", Stored)];
    var s0 := Initial(rows);
    var s1 := Step(s0, Enter, OfficeTallyChoice, Stored).0;
    assert s1.view == ViewOfficeTally && s1.tally.restaurantInput.focused;
    var s2 := Step(s1, Type("Deli"), "", Stored).0;
    assert s2.tally.restaurantInput.value == "Deli";
    var s3 := Step(s2, Enter, "", Stored).0;
    assert s3.tally.phase == 1 && s3.tally.restaurant == "Deli" && s3.tally.tallyInput.focused;
    var s4 := Step(s3, Type("12"), "", Stored).0;
    assert s4.tally.tallyInput.value == "12";
    ParseIntAccepts();
    assert TrimSpace("12") == "12" by {
      DigitNotSpace('1');
      DigitNotSpace('2');
    }
    var s5 := Step(s4, Enter, "", Stored).0;
    assert Session(s0, events) == Session(s1, events[1..]);
    assert Session(s1, events[1..]) == Session(s2, events[2..]);
    assert Session(s2, events[2..]) == Session(s3, events[3..]);
    assert Session(s3, events[3..]) == Session(s4, events[4..]);
    assert Session(s4, events[4..]) == s5;
  }

  // ------------------------------------------------------------------ objects

  /** views.HomeModel, reduced to the choice it reports. */
  class HomeModel {
    var choice: string

    /** NewHomeModel: nothing chosen yet. */
    constructor ()
      ensures choice == ""
    {
      choice := "";
    }

    /** home.Update: its handling of `k` is not modelled; `selected` is the choice it reports afterwards. */
    method Update(k: Key, selected: string)
      modifies this
      ensures choice == selected
    {
      choice := selected;
    }

    /** The menu entry the user picked, or "" before a pick. */
    function Choice(): (c: string)
      reads this
      ensures c == choice
    {
      choice
    }

    method Clear()
      modifies this
      ensures choice == ""
    {
      choice := "";
    }
  }

  /** The database handle, reduced to the rows it holds. */
  class Store {
    var rows: seq<Record>

    constructor (existing: seq<Record>)
      ensures rows == existing
    {
      rows := existing;
    }

    /** db.InsertLunchOrder / db.InsertOfficeTally: append the row unless the store rejects it. */
    method Insert(rec: Record, outcome: InsertOutcome) returns (err: Option<StoreError>)
      modifies this
      ensures (rows, err) == Inserted(old(rows), rec, outcome)
    {
      if !outcome.Rejected? {
        rows := rows + [rec];
      }
      err := if outcome.Stored? then None else Some(outcome.error);
    }
  }

  /** main.go's model. */
  class Model {
    var currentView: ViewState
    const home: HomeModel
    const lunchOrder: LunchOrder.LunchOrderModel
    const officeTally: OfficeTally.OfficeTallyModel
    const database: Store
    var err: Option<StoreError>

    function State(): AppState
      reads this, home, lunchOrder, lunchOrder.metadataInputs, officeTally, database
    {
      AppState(currentView, home.choice, lunchOrder.State(), officeTally.State(), err, database.rows)
    }

    ghost predicate Valid()
      reads this, home, lunchOrder, lunchOrder.metadataInputs, officeTally, database
    {
      Invariant(State())
    }

    /** initialModel. */
    constructor (db: Store)
      ensures Valid() && State() == Initial(old(db.rows)) && database == db
      ensures fresh(home) && fresh(lunchOrder) && fresh(lunchOrder.metadataInputs) && fresh(officeTally)
    {
      currentView := ViewHome;
      home := new HomeModel();
      lunchOrder := new LunchOrder.LunchOrderModel();
      officeTally := new OfficeTally.OfficeTallyModel();
      database := db;
      err := None;
    }

    method Update(k: Key, choice: string, outcome: InsertOutcome) returns (quit: bool)
      requires Valid()
      modifies this, home, lunchOrder, lunchOrder.metadataInputs, officeTally, database
      ensures Valid() && (State(), quit) == Step(old(State()), k, choice, outcome)
    {
      if k.CtrlC? {
        return true;
      }
      quit := false;
      if k.Esc? {
        if currentView == ViewLunchOrder {
          lunchOrder.Clear();
          currentView := ViewHome;
          home.Clear();
          return;
        } else if currentView == ViewOfficeTally {
          officeTally.Clear();
          currentView := ViewHome;
          home.Clear();
          return;
        }
      }
      match currentView {
        case ViewHome => HomeBranch(k, choice);
        case ViewLunchOrder => LunchBranch(k, outcome);
        case ViewOfficeTally => TallyBranch(k, outcome);
      }
    }

    /** The home case of model.Update. */
    method HomeBranch(k: Key, choice: string)
      requires Valid() && currentView == ViewHome
      modifies this, home, lunchOrder, lunchOrder.metadataInputs, officeTally
      ensures Valid() && State() == HomeStep(old(State()), choice)
    {
      home.Update(k, choice);
      var chosen := home.Choice();
      if chosen != "" {
        home.Clear();
        if chosen == LunchOrderChoice {
          currentView := ViewLunchOrder;
          lunchOrder.Focus();
        } else if chosen == OfficeTallyChoice {
          currentView := ViewOfficeTally;
          officeTally.Focus();
        }
      }
    }

    /** The lunch-order case of model.Update. */
    method LunchBranch(k: Key, outcome: InsertOutcome)
      requires Valid() && currentView == ViewLunchOrder && !k.Esc? && !k.CtrlC?
      modifies this, home, lunchOrder, lunchOrder.metadataInputs, database
      ensures Valid() && State() == LunchStep(old(State()), k, outcome)
    {
      lunchOrder.Update(k);
      if lunchOrder.IsSubmitted() {
        var metadata := lunchOrder.SubmittedMetadata();
        var order := LunchOrderRecord(lunchOrder.SubmittedRestaurant(), metadata);
        var e := database.Insert(order, outcome);
        if e.Some? {
          err := e;
        }
        lunchOrder.Clear();
        currentView := ViewHome;
        home.Clear();
      }
    }

    /** The office-tally case of model.Update. */
    method TallyBranch(k: Key, outcome: InsertOutcome)
      requires Valid() && currentView == ViewOfficeTally && !k.Esc? && !k.CtrlC?
      modifies this, officeTally, database
      ensures Valid() && State() == TallyStep(old(State()), k, outcome)
    {
      officeTally.Update(k);
      if officeTally.IsSubmitted() {
        var entry := OfficeTallyRecord(officeTally.SubmittedRestaurant(), officeTally.SubmittedTally());
        var e := database.Insert(entry, outcome);
        if e.Some? {
          err := e;
        }
        officeTally.Clear();
        officeTally.Focus();
      }
    }
  }
}
