/** Stands, the rows of the guess table, and how one guess is scored against the secret stand. */
module Stands {

  /** One record of the stand dataset: six plain strings. */
  datatype Stand = Stand(
    name: string,
    part: string,
    standType: string,
    color: string,
    design: string,
    defeatedBy: string)

  /** The six attributes of a stand, in the order of the table's columns. */
  datatype Field = Name | Part | StandType | Color | Design | DefeatedBy

  /** Reads one attribute of a stand. */
  function Get(s: Stand, f: Field): string
  {
    match f
    case Name => s.name
    case Part => s.part
    case StandType => s.standType
    case Color => s.color
    case Design => s.design
    case DefeatedBy => s.defeatedBy
  }

  /** A row of the table: either the fixed header holding the column labels, or one evaluated
      guess holding the guess's six attributes and one match flag per column. */
  datatype Row =
    | HeaderRow(id: string, col1: string, col2: string, col3: string, col4: string, col5: string, col6: string)
    | GuessRow(id: string, col1: string, col2: string, col3: string, col4: string, col5: string, col6: string,
               isMatch: bool, partMatch: bool, typeMatch: bool, colorMatch: bool, designMatch: bool,
               defeatedByMatch: bool)

  /** The header row the table starts with. */
  const Header: Row := HeaderRow("1", "Name", "Part", "Type", "Color", "Design", "Defeated by")

  /** The column of a row that shows field `f`. */
  function Column(r: Row, f: Field): string
  {
    match f
    case Name => r.col1
    case Part => r.col2
    case StandType => r.col3
    case Color => r.col4
    case Design => r.col5
    case DefeatedBy => r.col6
  }

  /** The match flag a guess row carries for field `f`; the name column's flag is the overall match. */
  function Flag(r: Row, f: Field): bool
    requires r.GuessRow?
  {
    match f
    case Name => r.isMatch
    case Part => r.partMatch
    case StandType => r.typeMatch
    case Color => r.colorMatch
    case Design => r.designMatch
    case DefeatedBy => r.defeatedByMatch
  }

  /** Scores `guess` against `secret`: the row shows the guess's attributes column by column, and
      each flag is set exactly when that attribute equals the secret's, as case-sensitive strings.
      The overall match flag therefore looks at the name alone. */
  function Evaluate(guess: Stand, secret: Stand, id: string): (r: Row)
    ensures r.GuessRow? && r.id == id
    ensures forall f :: Column(r, f) == Get(guess, f)
    ensures forall f :: Flag(r, f) <==> Get(guess, f) == Get(secret, f)
  {
    GuessRow(id, guess.name, guess.part, guess.standType, guess.color, guess.design, guess.defeatedBy,
             guess.name == secret.name,
             guess.part == secret.part,
             guess.standType == secret.standType,
             guess.color == secret.color,
             guess.design == secret.design,
             guess.defeatedBy == secret.defeatedBy)
  }

  /** True when every flag of a guess row is set. */
  predicate AllFlagsSet(r: Row)
    requires r.GuessRow?
  {
    forall f :: Flag(r, f)
  }

  /** Guessing the secret itself lights every column. */
  lemma EvaluateSelf(s: Stand, id: string)
    ensures Evaluate(s, s, id).isMatch
    ensures AllFlagsSet(Evaluate(s, s, id))
  {
  }

  /** The overall match depends on the names only: two guesses with the same name get the same
      overall flag whatever their other attributes are. */
  lemma MatchDependsOnlyOnName(g1: Stand, g2: Stand, secret: Stand, id1: string, id2: string)
    requires g1.name == g2.name
    ensures Evaluate(g1, secret, id1).isMatch == Evaluate(g2, secret, id2).isMatch
    ensures Evaluate(g1, secret, id1).isMatch <==> g1.name == secret.name
  {
  }

  /** A worked example: guessing Star Platinum when the secret is The World matches only on
      stand type and design. */
  lemma StarPlatinumAgainstTheWorld(id: string)
    ensures var starPlatinum := Stand("Star Platinum", "Jotaro", "Close-range", "Purple", "Humanoid", "The World");
            var theWorld := Stand("The World", "Dio", "Close-range", "Yellow", "Humanoid", "Star Platinum");
            var r := Evaluate(starPlatinum, theWorld, id);
            !r.isMatch && !r.partMatch && r.typeMatch && !r.colorMatch && r.designMatch && !r.defeatedByMatch
  {
  }

  /** Why `addRow` may fail: it reads the selected stand's attributes first, then the secret's. */
  datatype AddRowError = NoSelection | NoSecret

  datatype Result<T> = Ok(value: T) | Err(error: AddRowError)

  /** The row `addRow` builds from the current selection and secret, or the reason it cannot: with
      no stand selected the first attribute read fails, and with a selection but no secret the
      first read of the secret fails. */
  function NewRow(selected: Option<Stand>, secret: Option<Stand>, id: string): (r: Result<Row>)
    ensures selected.None? ==> r == Err(NoSelection)
    ensures selected.Some? && secret.None? ==> r == Err(NoSecret)
    ensures r.Ok? <==> selected.Some? && secret.Some?
    ensures r.Ok? ==> r.value == Evaluate(selected.value, secret.value, id)
    ensures r.Ok? ==> r.value.GuessRow? && r.value.id == id
    ensures r.Ok? ==> forall f :: Column(r.value, f) == Get(selected.value, f)
    ensures r.Ok? ==> forall f :: Flag(r.value, f) <==> Get(selected.value, f) == Get(secret.value, f)
  {
    match selected
    case None => Err(NoSelection)
    case Some(g) =>
      match secret
      case None => Err(NoSecret)
      case Some(s) => Ok(Evaluate(g, s, id))
  }

  /** A reference that may be unset (the source's `null`). */
  datatype Option<T> = None | Some(value: T)
}
