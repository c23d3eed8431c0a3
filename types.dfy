/** The application's records: players, expenses and sessions as they are stored, and the
    result of splitting a session's expenses. */
module Types {
  import opened Wrappers

  /** Ids are opaque strings made by the id generator. */
  type Id = string

  /** A point in time in milliseconds, read in the device's local time. */
  type Timestamp = int

  datatype Player = Player(id: Id, name: string)

  /** The five expense categories, in declaration order. */
  datatype ExpenseType = CourtFee | Shuttle | Drink | Equipment | Other

  const AllTypes: seq<ExpenseType> := [CourtFee, Shuttle, Drink, Equipment, Other]

  /** The string an expense type is stored as. */
  function Tag(t: ExpenseType): string {
    match t
    case CourtFee => "court_fee"
    case Shuttle => "shuttle"
    case Drink => "drink"
    case Equipment => "equipment"
    case Other => "other"
  }

  /** The expense type a stored tag denotes, if any. */
  function TypeOfTag(tag: string): (r: Option<ExpenseType>)
    ensures r.Some? ==> Tag(r.value) == tag
  {
    if tag == "court_fee" then Some(CourtFee)
    else if tag == "shuttle" then Some(Shuttle)
    else if tag == "drink" then Some(Drink)
    else if tag == "equipment" then Some(Equipment)
    else if tag == "other" then Some(Other)
    else None
  }

  /** The five types each occur once in `AllTypes`, and each has its own tag, which reads back. */
  lemma ExpenseTypesAreFive(t: ExpenseType, u: ExpenseType)
    ensures |AllTypes| == 5 && t in AllTypes
    ensures forall i, j :: 0 <= i < j < |AllTypes| ==> AllTypes[i] != AllTypes[j]
    ensures TypeOfTag(Tag(t)) == Some(t)
    ensures Tag(t) == Tag(u) ==> t == u
  {
  }

  /** The display label for a stored tag, "Chi phí" for any tag outside the five. */
  function TagLabel(tag: string): string {
    if tag == "court_fee" then "Tiền sân"
    else if tag == "shuttle" then "Tiền cầu"
    else if tag == "drink" then "Tiền nước"
    else if tag == "equipment" then "Tiền phụ kiện"
    else if tag == "other" then "Chi phí khác"
    else "Chi phí"
  }

  /** The label of an expense type, never the generic one. */
  function Label(t: ExpenseType): (r: string)
    ensures r != "Chi phí"
  {
    TagLabel(Tag(t))
  }

  /** Only a tag outside the five falls back to the generic label. */
  lemma TagLabelDefault(tag: string)
    ensures TagLabel(tag) == "Chi phí" <==> TypeOfTag(tag).None?
  {
  }

  /** One expense. `divideAmong`, when present, names the players who share it. */
  datatype Expense = Expense(
    id: Id,
    kind: ExpenseType,
    amount: real,
    description: string,
    divideAmong: Option<seq<Id>>)

  /** One session; players are embedded copies, not references. */
  datatype Session = Session(
    id: Id,
    date: Timestamp,
    endTime: Option<Timestamp>,
    duration: Option<int>,
    courtFeePerHour: Option<real>,
    players: seq<Player>,
    expenses: seq<Expense>,
    location: string,
    notes: Option<string>,
    paymentStatus: Option<map<Id, bool>>)

  /** A session without its id, as handed to the store to be added. */
  datatype SessionDraft = SessionDraft(
    date: Timestamp,
    endTime: Option<Timestamp>,
    duration: Option<int>,
    courtFeePerHour: Option<real>,
    players: seq<Player>,
    expenses: seq<Expense>,
    location: string,
    notes: Option<string>,
    paymentStatus: Option<map<Id, bool>>)

  /** `new Date(s.date).getTime()`, the key the lists are sorted by. */
  function DateKey(s: Session): real {
    s.date as real
  }

  /** `{...draft, id}`. */
  function WithId(d: SessionDraft, id: Id): (s: Session)
    ensures s.id == id && s.date == d.date && s.endTime == d.endTime && s.duration == d.duration
    ensures s.courtFeePerHour == d.courtFeePerHour && s.players == d.players
    ensures s.expenses == d.expenses && s.location == d.location && s.notes == d.notes
    ensures s.paymentStatus == d.paymentStatus
  {
    Session(id, d.date, d.endTime, d.duration, d.courtFeePerHour, d.players, d.expenses,
            d.location, d.notes, d.paymentStatus)
  }

  /** The grand total and each player's share of one session. */
  datatype ExpenseCalculation = ExpenseCalculation(totalAmount: real, splitByPlayer: map<Id, real>)

  /** The flat sum of the expenses' amounts, as `reduce((sum, e) => sum + e.amount, 0)` adds them. */
  function FlatTotal(expenses: seq<Expense>): real {
    if expenses == [] then 0.0
    else FlatTotal(expenses[..|expenses| - 1]) + expenses[|expenses| - 1].amount
  }

  lemma {:induction false} FlatTotalNonNegative(expenses: seq<Expense>)
    requires forall i :: 0 <= i < |expenses| ==> expenses[i].amount >= 0.0
    ensures FlatTotal(expenses) >= 0.0
  {
    if expenses != [] {
      FlatTotalNonNegative(expenses[..|expenses| - 1]);
    }
  }

  lemma {:induction false} FlatTotalAppend(a: seq<Expense>, b: seq<Expense>)
    ensures FlatTotal(a + b) == FlatTotal(a) + FlatTotal(b)
    decreases |b|
  {
    if b != [] {
      assert (a + b)[..|a + b| - 1] == a + b[..|b| - 1];
      FlatTotalAppend(a, b[..|b| - 1]);
    } else {
      assert a + b == a;
    }
  }

  /** The ids of a list of players, in order. */
  function PlayerIds(players: seq<Player>): (ids: seq<Id>)
    ensures |ids| == |players|
    ensures forall i :: 0 <= i < |players| ==> ids[i] == players[i].id
  {
    if players == [] then [] else [players[0].id] + PlayerIds(players[1..])
  }

  /** No two players share an id. */
  predicate UniqueIds(players: seq<Player>) {
    forall i, j :: 0 <= i < j < |players| ==> players[i].id != players[j].id
  }

  /** `Math.round`: the nearest integer, halves rounded up. */
  function Round(x: real): (r: int)
    ensures x - 0.5 < r as real <= x + 0.5
  {
    (x + 0.5).Floor
  }
}
