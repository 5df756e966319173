/** The state of the two components of the game screen and the handlers that replace it: the
    screen itself (secret stand, guess table, current selection) and the search box (query,
    offered stands, focus). */
module Game {
  import opened Stands
  import opened History
  import opened Search

  /** The game screen. */
  class App {
    /** The stand dataset, fixed for the whole session. */
    const stands: seq<Stand>
    /** The stand to be guessed; unset until the start-up sequence has chosen it. */
    var secret: Option<Stand>
    /** The guess table, header first. */
    var history: seq<Row>
    /** The stand last picked in the search box; unset until the first pick. */
    var selected: Option<Stand>

    ghost predicate Valid()
      reads this
    {
      WellFormed(history) &&
      (secret.Some? ==> secret.value in stands) &&
      (selected.Some? ==> selected.value in stands)
    }

    /** The screen as first mounted: no secret, no selection, a table holding only the header. */
    constructor (stands: seq<Stand>)
      ensures Valid()
      ensures this.stands == stands
      ensures secret == None && selected == None && history == [Header]
    {
      this.stands := stands;
      secret := None;
      history := [Header];
      selected := None;
    }

    /** Picks the secret at `randomIndex`, the position the random draw lands on. */
    method SetSecretStandForUser(randomIndex: nat)
      requires Valid()
      requires randomIndex < |stands|
      modifies this
      ensures Valid()
      ensures secret == Some(stands[randomIndex])
      ensures history == old(history) && selected == old(selected)
    {
      secret := Some(stands[randomIndex]);
    }

    /** Records the stand picked in the search box. */
    method SetSelectedStand(item: Stand)
      requires Valid()
      requires item in stands
      modifies this
      ensures Valid()
      ensures selected == Some(item)
      ensures history == old(history) && secret == old(secret)
    {
      selected := Some(item);
    }

    /** Scores the selected stand against the secret and puts the new row right under the
        header; fails, leaving the table as it was, when there is no selection or no secret.
        `id` stands for the row's random key. */
    method AddRow(id: string) returns (outcome: Result<Row>)
      requires Valid()
      modifies this
      ensures Valid()
      ensures outcome == NewRow(old(selected), old(secret), id)
      ensures outcome.Ok? ==> history == InsertAfterHeader(old(history), outcome.value)
      ensures outcome.Err? ==> history == old(history)
      ensures secret == old(secret) && selected == old(selected)
    {
      outcome := NewRow(selected, secret, id);
      if outcome.Ok? {
        InsertKeepsWellFormed(history, outcome.value);
        history := InsertAfterHeader(history, outcome.value);
      }
    }
  }

  /** The search box. */
  class StandSearch {
    /** The stand dataset, the same one the screen holds. */
    const stands: seq<Stand>
    /** The text in the box. */
    var query: string
    /** The stands offered under the box. */
    var filtered: seq<Stand>
    /** Whether the box counts as focused. */
    var focused: bool

    ghost predicate Valid()
      reads this
    {
      forall x :: x in filtered ==> x in stands
    }

    /** The box as first mounted: empty, offering nothing, not focused. */
    constructor (stands: seq<Stand>)
      ensures Valid()
      ensures this.stands == stands
      ensures query == "" && filtered == [] && !focused
    {
      this.stands := stands;
      query := "";
      filtered := [];
      focused := false;
    }

    /** Typing: the box holds `text` and offers the stands whose name contains it, ignoring case. */
    method HandleInputChange(text: string)
      requires Valid()
      modifies this
      ensures Valid()
      ensures query == text && filtered == Filter(stands, text)
      ensures focused == old(focused)
    {
      query := text;
      filtered := Filter(stands, text);
    }

    /** Picking an offered stand: the box shows its name, the screen records it as the
        selection, the offers are cleared and the box loses focus. */
    method HandleItemPress(item: Stand, app: App)
      requires Valid() && app.Valid()
      requires app.stands == stands && item in filtered
      modifies this, app
      ensures Valid() && app.Valid()
      ensures query == item.name && app.selected == Some(item)
      ensures filtered == [] && !focused
      ensures app.history == old(app.history) && app.secret == old(app.secret)
    {
      query := item.name;
      app.SetSelectedStand(item);
      focused := false;
      filtered := [];
    }

    /** The search button: submits the current selection to the screen's table. */
    method HandleSearch(app: App, id: string) returns (outcome: Result<Row>)
      requires app.Valid()
      modifies app
      ensures app.Valid()
      ensures outcome == NewRow(old(app.selected), old(app.secret), id)
      ensures outcome.Ok? ==> app.history == InsertAfterHeader(old(app.history), outcome.value)
      ensures outcome.Err? ==> app.history == old(app.history)
      ensures app.secret == old(app.secret) && app.selected == old(app.selected)
    {
      outcome := app.AddRow(id);
    }
  }

  /** One round played to the end: the secret is drawn, its name typed, the offered secret picked
      and submitted. The submission succeeds, every flag of the new row is set, and the table
      holds the header and that row. */
  method GuessSecretByName(stands: seq<Stand>, randomIndex: nat, id: string)
    returns (outcome: Result<Row>, table: seq<Row>)
    requires randomIndex < |stands|
    ensures outcome.Ok? && outcome.value.GuessRow? && AllFlagsSet(outcome.value)
    ensures table == [Header, outcome.value]
  {
    var app := new App(stands);
    app.SetSecretStandForUser(randomIndex);
    var search := new StandSearch(stands);
    var secret := stands[randomIndex];
    search.HandleInputChange(secret.name);
    NameFindsItself(stands, secret);
    search.HandleItemPress(secret, app);
    outcome := search.HandleSearch(app, id);
    EvaluateSelf(secret, id);
    table := app.history;
  }
}
