/** The session form that the new-session and edit-session screens share: the players taking
    part, the expense being typed, the list of expenses, the end time and the hourly court
    rate, with the handlers that change them and the rules that check them. */
module SessionForm {
  import opened Wrappers
  import opened Types
  import opened Text
  import opened Lists
  import opened Clock
  import Storage

  /** Why a handler refused (the screens show an alert and change nothing). */
  datatype FormError =
    | InvalidAmount | NoDivideSelection
    | InvalidRate | NoEndTime | FeeNotComputable
    | BlankLocation | NoPlayersSelected | NoExpenses
    | BlankName | SessionNotFound | MissingOriginal
    | StoreFailed(cause: Storage.StoreError)

  /** The expense being typed: the amount is the text of its input. */
  datatype ExpenseDraft = ExpenseDraft(kind: ExpenseType, amount: string, description: string, divideAmong: seq<Id>)

  /** The draft the form starts with and goes back to after an expense is added. */
  const EmptyDraft := ExpenseDraft(CourtFee, "", "", [])

  function ExpenseId(e: Expense): Id {
    e.id
  }

  // ---------------------------------------------------------------------------
  // The expense being typed

  /** `shouldShowPlayerSelection`: only drinks, equipment and other costs are shared by a
      chosen group. */
  predicate NeedsPlayerSelection(t: ExpenseType): (r: bool)
    ensures r <==> t != CourtFee && t != Shuttle
  {
    t == Drink || t == Equipment || t == Other
  }

  /** `handleExpenseTypeChange`: the type changes; the chosen group is kept for the three
      types that use one and cleared for the other two. */
  function WithType(d: ExpenseDraft, t: ExpenseType): (r: ExpenseDraft)
    ensures r.kind == t && r.amount == d.amount && r.description == d.description
    ensures NeedsPlayerSelection(t) ==> r.divideAmong == d.divideAmong
    ensures t == CourtFee || t == Shuttle ==> r.divideAmong == []
  {
    d.(kind := t, divideAmong := if NeedsPlayerSelection(t) then d.divideAmong else [])
  }

  /** `handleAddExpense`'s decision on the draft: a missing or zero amount is refused, then a
      type that needs a group without one; otherwise the expense with the amount read as a
      number and an empty group left out. The amount input keeps digits only, so its text
      always reads as a number. */
  function NewExpense(d: ExpenseDraft, id: Id): (r: Result<Expense, FormError>)
    requires IsDigits(d.amount)
    ensures r == Err(InvalidAmount) <==> d.amount == "" || DigitsValue(d.amount) == 0
    ensures r == Err(NoDivideSelection) <==>
      d.amount != "" && DigitsValue(d.amount) > 0 && NeedsPlayerSelection(d.kind) && d.divideAmong == []
    ensures r.Ok? ==> r.value.id == id && r.value.kind == d.kind && r.value.description == d.description
    ensures r.Ok? ==> r.value.amount == DigitsValue(d.amount) as real && r.value.amount > 0.0
    ensures r.Ok? ==> r.value.divideAmong == if d.divideAmong == [] then None else Some(d.divideAmong)
  {
    if d.amount == "" then Err(InvalidAmount)
    else
      ParseFloatDigits(d.amount);
      var amount := ParseFloat(d.amount).value;
      if amount <= 0.0 then Err(InvalidAmount)
      else if NeedsPlayerSelection(d.kind) && |d.divideAmong| == 0 then Err(NoDivideSelection)
      else Ok(Expense(id, d.kind, amount, d.description, if |d.divideAmong| > 0 then Some(d.divideAmong) else None))
  }

  /** An expense the form adds is never charged to an empty group: a type that needs a group
      has one, and a group is never stored empty. */
  lemma AddedExpenseHasPayers(d: ExpenseDraft, id: Id)
    requires IsDigits(d.amount) && NewExpense(d, id).Ok?
    ensures var e := NewExpense(d, id).value;
      && (NeedsPlayerSelection(e.kind) ==> e.divideAmong.Some?)
      && (e.divideAmong.Some? ==> e.divideAmong.value != [])
  {
  }

  // ---------------------------------------------------------------------------
  // Duration and court fee

  /** The minute of the day a timestamp falls in. */
  function MinuteOfDay(t: Timestamp): (m: int)
    ensures 0 <= m < 1440
  {
    TimeOfDay(t) / MinuteMs
  }

  /** The length in minutes from `start` to the next `end` time of day: the end time moved
      onto the start's day, a day later when that is before the start, then rounded to
      the minute. */
  function DurationMinutes(start: Timestamp, end: Timestamp): (d: int)
    ensures 0 <= d <= 1440
  {
    var ms := (TimeOfDay(end) - TimeOfDay(start)) % DayMs;
    assert ms as real / 60000.0 < 1440.0;
    Round(ms as real / 60000.0)
  }

  /** `calculateDuration`: nothing without an end time. */
  function DurationOf(date: Timestamp, endTime: Option<Timestamp>): Option<int> {
    if endTime.None? then None else Some(DurationMinutes(date, endTime.value))
  }

  lemma ModDay(x: int)
    requires -DayMs < x < DayMs
    ensures x % DayMs == if x >= 0 then x else x + DayMs
  {
    if x >= 0 {
      DivModUnique(0, x, DayMs);
    } else {
      DivModUnique(-1, x + DayMs, DayMs);
    }
  }

  lemma MinutesMod(k: int)
    ensures (k * MinuteMs) % DayMs == (k % 1440) * MinuteMs
  {
    DivModUnique(k / 1440, (k % 1440) * MinuteMs, DayMs);
    assert k * MinuteMs == (k / 1440) * DayMs + (k % 1440) * MinuteMs;
  }

  lemma RoundWhole(n: int)
    ensures Round(n as real) == n
  {
  }

  /** At whole minutes the duration is the difference of the minutes of the day modulo a
      day: below 1440, and 0 for equal times. */
  lemma DurationWholeMinutes(start: Timestamp, end: Timestamp)
    requires start % MinuteMs == 0 && end % MinuteMs == 0
    ensures DurationMinutes(start, end) == (MinuteOfDay(end) - MinuteOfDay(start)) % 1440
    ensures DurationMinutes(start, end) < 1440
    ensures MinuteOfDay(start) == MinuteOfDay(end) ==> DurationMinutes(start, end) == 0
  {
    FieldsOf(start);
    FieldsOf(end);
    var a, b := MinuteOfDay(end), MinuteOfDay(start);
    assert TimeOfDay(end) == a * MinuteMs;
    assert TimeOfDay(start) == b * MinuteMs;
    assert TimeOfDay(end) - TimeOfDay(start) == (a - b) * MinuteMs;
    MinutesMod(a - b);
    var r := (a - b) % 1440;
    assert (r * MinuteMs) as real / 60000.0 == r as real;
    RoundWhole(r);
  }

  /** `calculateCourtFee`: 0 without a non-zero duration or without rate text, otherwise
      the rate times the hours, rounded; `None` stands for NaN (rate text that does not
      read as a number). */
  function CourtFeeFor(duration: Option<int>, rateText: string): (fee: Option<int>)
    ensures duration.None? || duration.value == 0 || rateText == "" ==> fee == Some(0)
    ensures fee.None? <==>
      duration.Some? && duration.value != 0 && rateText != "" && ParseFloat(rateText).None?
    ensures fee.Some? && duration.Some? && duration.value != 0 && rateText != "" ==>
      var due := Due(ParseFloat(rateText).value, duration.value);
      due - 0.5 < fee.value as real <= due + 0.5
  {
    if duration.None? || duration.value == 0 || rateText == "" then Some(0)
    else match ParseFloat(rateText)
      case None => None
      case Some(rate) => Some(Round(Due(rate, duration.value)))
  }

  /** `hourlyRate * (duration / 60)`: what the time played costs before rounding. */
  function Due(rate: real, minutes: int): real {
    rate * (minutes as real / 60.0)
  }

  /** The checks of `addCourtFeeFromRate`, in order: a positive rate, an end time, a positive
      fee. Rate text that does not read as a number is refused as an invalid rate. */
  function CourtFeeCheck(rateText: string, endTime: Option<Timestamp>, fee: Option<int>): (r: Option<FormError>)
    ensures r.None? <==> rateText != "" && ParseFloat(rateText).Some? && ParseFloat(rateText).value > 0.0
                         && endTime.Some? && fee.Some? && fee.value > 0
  {
    if rateText == "" || ParseFloat(rateText).None? || ParseFloat(rateText).value <= 0.0 then Some(InvalidRate)
    else if endTime.None? then Some(NoEndTime)
    else if fee.None? || fee.value <= 0 then Some(FeeNotComputable)
    else None
  }

  /** The same checks as the code writes them: `parseFloat(text) <= 0` and `fee <= 0`, both
      false when the value is NaN. */
  function CourtFeeCheckAsWritten(rateText: string, endTime: Option<Timestamp>, fee: Option<int>): (r: Option<FormError>)
    ensures r.None? ==> rateText != "" && endTime.Some?
    ensures r.None? && ParseFloat(rateText).Some? ==> ParseFloat(rateText).value > 0.0
    ensures r.None? && fee.Some? ==> fee.value > 0
  {
    if rateText == "" || (ParseFloat(rateText).Some? && ParseFloat(rateText).value <= 0.0) then Some(InvalidRate)
    else if endTime.None? then Some(NoEndTime)
    else if fee.Some? && fee.value <= 0 then Some(FeeNotComputable)
    else None
  }

  /** A fee that passes the checks is a positive number, for a positive rate and a
      non-zero duration. */
  lemma CourtFeeCheckSound(date: Timestamp, endTime: Option<Timestamp>, rateText: string)
    requires CourtFeeCheck(rateText, endTime, CourtFeeFor(DurationOf(date, endTime), rateText)).None?
    ensures ParseFloat(rateText).Some? && ParseFloat(rateText).value > 0.0
    ensures var d := DurationOf(date, endTime); d.Some? && 0 < d.value <= 1440
    ensures var fee := CourtFeeFor(DurationOf(date, endTime), rateText); fee.Some? && fee.value > 0
  {
  }

  /** The two versions of the checks differ only on rate text that is not a number. */
  lemma CourtFeeChecksAgree(rateText: string, endTime: Option<Timestamp>, fee: Option<int>)
    requires rateText == "" || ParseFloat(rateText).Some?
    requires fee.Some?
    ensures CourtFeeCheck(rateText, endTime, fee) == CourtFeeCheckAsWritten(rateText, endTime, fee)
  {
  }

  /** "abc" is such text, and so is "." alone, which a numeric keyboard lets through. */
  lemma ParseFloatLetters()
    ensures ParseFloat("abc") == None
    ensures ParseFloat(".") == None
  {
    var s := "abc";
    assert !IsSpace(s[0]);
    assert TrimStart(s) == s;
    assert DigitPrefix(s) == [];
    assert s[0] != '.';
    var dot := ".";
    assert !IsSpace(dot[0]) && !IsDigit(dot[0]);
    assert TrimStart(dot) == dot;
    assert DigitPrefix(dot) == [];
    assert dot[1..] == [];
    assert DigitPrefix(dot[1..]) == [];
  }

  /** As written, rate text that is not a number (such as "abc" or ".") passes every check of
      `addCourtFeeFromRate` when the end time gives a non-zero duration, and the fee it goes
      on to add is NaN. */
  lemma NaNRateSlipsThrough(rateText: string, date: Timestamp, end: Timestamp)
    requires rateText != "" && ParseFloat(rateText).None?
    requires DurationMinutes(date, end) != 0
    ensures var fee := CourtFeeFor(DurationOf(date, Some(end)), rateText);
      && fee.None?
      && CourtFeeCheckAsWritten(rateText, Some(end), fee).None?
      && CourtFeeCheck(rateText, Some(end), fee) == Some(InvalidRate)
  {
  }

  /** The duration is zero exactly when the end time of day falls within the half minute
      that starts at the date's time of day; then the fee is 0 and even the checks as
      written refuse it. */
  lemma ZeroDurationRefused(rateText: string, date: Timestamp, end: Timestamp)
    requires rateText != ""
    ensures DurationMinutes(date, end) == 0 <==> (TimeOfDay(end) - TimeOfDay(date)) % DayMs < 30_000
    ensures DurationMinutes(date, end) == 0 ==>
      CourtFeeCheckAsWritten(rateText, Some(end), CourtFeeFor(DurationOf(date, Some(end)), rateText)).Some?
  {
    var ms := (TimeOfDay(end) - TimeOfDay(date)) % DayMs;
    assert DurationMinutes(date, end) == Round(ms as real / 60000.0);
  }

  /** `hours + " giờ "` and `minutes + " phút"`, each left out when zero. */
  function DurationText(d: nat): (text: string)
    ensures text == "" <==> d == 0
  {
    var hours, minutes := d / 60, d % 60;
    (if hours > 0 then ShowNat(hours) + " giờ " else "") + (if minutes > 0 then ShowNat(minutes) + " phút" else "")
  }

  /** The description of the court-fee expense: the duration and the formatted rate. */
  function CourtFeeDescription(d: nat, rateLabel: string): string {
    "Sân " + DurationText(d) + " (" + rateLabel + "/giờ)"
  }

  /** What `addCourtFeeFromRate` does with the form's date, end time and rate text: one of
      the refusals, or an undivided court-fee expense for the fee whose description names
      the duration and the rate as `currency` formats it. */
  function CourtFeeOutcome(date: Timestamp, endTime: Option<Timestamp>, rateText: string, id: Id,
                           currency: real -> string): (r: Result<Expense, FormError>)
    ensures r.Ok? ==> r.value.kind == CourtFee && r.value.divideAmong.None? && r.value.amount > 0.0
    ensures r.Ok? ==> ParseFloat(rateText).Some? && ParseFloat(rateText).value > 0.0 && endTime.Some?
  {
    var duration := DurationOf(date, endTime);
    var fee := CourtFeeFor(duration, rateText);
    match CourtFeeCheck(rateText, endTime, fee)
    case Some(err) => Err(err)
    case None =>
      CourtFeeCheckSound(date, endTime, rateText);
      Ok(Expense(id, CourtFee, fee.value as real,
                 CourtFeeDescription(duration.value, currency(ParseFloat(rateText).value)), None))
  }

  /** The added fee is the cost of the time played rounded to the nearest unit, and the
      description names the whole hours and the remaining minutes of that time. */
  lemma CourtFeeOutcomeAmount(date: Timestamp, endTime: Option<Timestamp>, rateText: string, id: Id,
                              currency: real -> string)
    requires CourtFeeOutcome(date, endTime, rateText, id, currency).Ok?
    ensures var e := CourtFeeOutcome(date, endTime, rateText, id, currency).value;
      var d := DurationMinutes(date, endTime.value);
      var due := Due(ParseFloat(rateText).value, d);
      && 0 < d <= 1440
      && due - 0.5 < e.amount <= due + 0.5
      && e.description == CourtFeeDescription(d, currency(ParseFloat(rateText).value))
      && DurationText(d) != ""
  {
    CourtFeeCheckSound(date, endTime, rateText);
  }

  lemma DescriptionShape(durationText: string, rateLabel: string)
    ensures "Sân " + durationText + " (" + (rateLabel + "/giờ") + ")" == "Sân " + durationText + " (" + rateLabel + "/giờ)"
  {
    assert (rateLabel + "/giờ") + ")" == rateLabel + "/giờ)";
  }

  // ---------------------------------------------------------------------------
  // Submitting

  /** `allPlayers.filter(p => selectedPlayers.includes(p.id))`. */
  function SelectPlayers(all: seq<Player>, selected: seq<Id>): (r: seq<Player>)
    ensures |r| <= |all|
  {
    if all == [] then []
    else (if all[0].id in selected then [all[0]] else []) + SelectPlayers(all[1..], selected)
  }

  /** The saved players are the known players that are selected; a selected id that is
      no longer among the known players saves nobody. */
  lemma {:induction false} SelectPlayersMembers(all: seq<Player>, selected: seq<Id>, p: Player)
    ensures p in SelectPlayers(all, selected) <==> p in all && p.id in selected
  {
    if all != [] {
      SelectPlayersMembers(all[1..], selected, p);
      assert all == [all[0]] + all[1..];
    }
  }

  lemma SelectPlayersDropsUnknown(all: seq<Player>, selected: seq<Id>, id: Id)
    requires id !in PlayerIds(all)
    ensures forall p :: p in SelectPlayers(all, selected) ==> p.id != id
  {
    forall p | p in SelectPlayers(all, selected) ensures p.id != id {
      SelectPlayersMembers(all, selected, p);
      var i :| 0 <= i < |all| && all[i] == p;
      assert PlayerIds(all)[i] == p.id;
    }
  }

  /** The saved players keep the order of the known players, not the order of selection. */
  lemma {:induction false} SelectPlayersAppend(a: seq<Player>, b: seq<Player>, selected: seq<Id>)
    ensures SelectPlayers(a + b, selected) == SelectPlayers(a, selected) + SelectPlayers(b, selected)
  {
    if a == [] {
      assert a + b == b;
    } else {
      var t := a[1..];
      assert (a + b)[0] == a[0];
      assert (a + b)[1..] == t + b;
      SelectPlayersAppend(t, b, selected);
      var h := if a[0].id in selected then [a[0]] else [];
      assert SelectPlayers(a + b, selected) == h + SelectPlayers(t + b, selected);
      assert SelectPlayers(a, selected) == h + SelectPlayers(t, selected);
      assert h + (SelectPlayers(t, selected) + SelectPlayers(b, selected))
          == (h + SelectPlayers(t, selected)) + SelectPlayers(b, selected);
    }
  }

  /** `notes.trim() || undefined`. */
  function NotesValue(notes: string): (r: Option<string>)
    ensures r.None? <==> forall i :: 0 <= i < |notes| ==> IsSpace(notes[i])
    ensures r.Some? ==> r.value == Trim(notes) && r.value != ""
  {
    TrimBlank(notes);
    if Trim(notes) == "" then None else Some(Trim(notes))
  }

  /** `courtFeePerHour ? parseFloat(courtFeePerHour) : undefined`; NaN, which the store
      writes as `null`, is absent too. */
  function RateValue(rateText: string): (r: Option<real>)
    ensures rateText == "" ==> r.None?
    ensures rateText != "" && IsDigits(rateText) ==> r == Some(DigitsValue(rateText) as real)
  {
    if rateText == "" then None
    else if IsDigits(rateText) then ParseFloatDigits(rateText); ParseFloat(rateText)
    else ParseFloat(rateText)
  }

  /** The checks of `handleSubmit`, in order. */
  function SubmitCheck(location: string, selected: seq<Id>, expenses: seq<Expense>): (r: Option<FormError>)
    ensures r.None? <==> Trim(location) != "" && selected != [] && expenses != []
  {
    if Trim(location) == "" then Some(BlankLocation)
    else if |selected| == 0 then Some(NoPlayersSelected)
    else if |expenses| == 0 then Some(NoExpenses)
    else None
  }

  // ---------------------------------------------------------------------------
  // The form's state and handlers

  class Form {
    var date: Timestamp
    var endTime: Option<Timestamp>
    var location: string
    var notes: string
    var courtFeePerHour: string
    var allPlayers: seq<Player>
    var selectedPlayers: seq<Id>
    var newPlayerName: string
    var expenses: seq<Expense>
    var currentExpense: ExpenseDraft

    /** The amount input only ever holds digits. */
    ghost predicate Valid()
      reads this
    {
      IsDigits(currentExpense.amount)
    }

    /** A blank form dated `now`, with the known players loaded. */
    constructor (now: Timestamp, players: seq<Player>)
      ensures Valid()
      ensures date == now && endTime == None && location == "" && notes == "" && courtFeePerHour == ""
      ensures allPlayers == players && selectedPlayers == [] && newPlayerName == ""
      ensures expenses == [] && currentExpense == EmptyDraft
    {
      date := now;
      endTime := None;
      location := "";
      notes := "";
      courtFeePerHour := "";
      allPlayers := players;
      selectedPlayers := [];
      newPlayerName := "";
      expenses := [];
      currentExpense := EmptyDraft;
    }

    /** `onChangeDate`: a picked date replaces the date; a dismissed picker changes nothing. */
    method OnChangeDate(selected: Option<Timestamp>)
      modifies this`date
      ensures date == selected.GetOr(old(date))
    {
      if selected.Some? {
        date := selected.value;
      }
    }

    /** `handleEndTimeChange`. */
    method HandleEndTimeChange(selected: Option<Timestamp>)
      modifies this`endTime
      ensures endTime == if selected.Some? then selected else old(endTime)
    {
      if selected.Some? {
        endTime := selected;
      }
    }

    /** The new-session rate input: the text is taken as typed. */
    method SetCourtFeeText(value: string)
      modifies this`courtFeePerHour
      ensures courtFeePerHour == value
    {
      courtFeePerHour := value;
    }

    /** The amount input keeps the digits of what is typed. */
    method SetAmountText(value: string)
      modifies this`currentExpense
      ensures Valid()
      ensures currentExpense == old(currentExpense).(amount := KeepDigits(value))
    {
      currentExpense := currentExpense.(amount := KeepDigits(value));
    }

    /** `togglePlayerSelection`. */
    method TogglePlayerSelection(id: Id)
      modifies this`selectedPlayers
      ensures selectedPlayers == ToggleId(old(selectedPlayers), id)
    {
      if id in selectedPlayers {
        selectedPlayers := Without(selectedPlayers, Identity, id);
      } else {
        selectedPlayers := selectedPlayers + [id];
      }
    }

    /** `togglePlayerInExpense`: only the draft's group changes. */
    method TogglePlayerInExpense(id: Id)
      requires Valid()
      modifies this`currentExpense
      ensures Valid()
      ensures currentExpense == old(currentExpense).(divideAmong := ToggleId(old(currentExpense).divideAmong, id))
    {
      var divideAmong := currentExpense.divideAmong;
      if id in divideAmong {
        currentExpense := currentExpense.(divideAmong := Without(divideAmong, Identity, id));
      } else {
        currentExpense := currentExpense.(divideAmong := divideAmong + [id]);
      }
    }

    /** `handleExpenseTypeChange`. */
    method HandleExpenseTypeChange(t: ExpenseType)
      requires Valid()
      modifies this`currentExpense
      ensures Valid()
      ensures currentExpense == WithType(old(currentExpense), t)
    {
      currentExpense := currentExpense.(kind := t, divideAmong := if NeedsPlayerSelection(t) then currentExpense.divideAmong else []);
    }

    /** `handleAddExpense`: on success the expense is appended and the draft starts over;
        on a refusal nothing changes. */
    method HandleAddExpense(id: Id) returns (r: Result<Expense, FormError>)
      requires Valid()
      modifies this`expenses, this`currentExpense
      ensures Valid()
      ensures r == NewExpense(old(currentExpense), id)
      ensures r.Ok? ==> expenses == old(expenses) + [r.value] && currentExpense == EmptyDraft
      ensures r.Err? ==> expenses == old(expenses) && currentExpense == old(currentExpense)
    {
      if currentExpense.amount == "" {
        return Err(InvalidAmount);
      }
      ParseFloatDigits(currentExpense.amount);
      var amount := ParseFloat(currentExpense.amount).value;
      if amount <= 0.0 {
        return Err(InvalidAmount);
      }
      if NeedsPlayerSelection(currentExpense.kind) && |currentExpense.divideAmong| == 0 {
        return Err(NoDivideSelection);
      }
      var divideAmong := if |currentExpense.divideAmong| > 0 then Some(currentExpense.divideAmong) else None;
      var newExpense := Expense(id, currentExpense.kind, amount, currentExpense.description, divideAmong);
      expenses := expenses + [newExpense];
      currentExpense := EmptyDraft;
      r := Ok(newExpense);
    }

    /** `removeExpense`: every expense with the id goes, the rest keep their order. */
    method RemoveExpense(id: Id)
      modifies this`expenses
      ensures expenses == Without(old(expenses), ExpenseId, id)
    {
      expenses := Without(expenses, ExpenseId, id);
    }

    /** `calculateDuration`: the end time is moved onto the start's calendar day, then a day
        later if it is before the start. */
    method CalculateDuration() returns (d: Option<int>)
      ensures d == DurationOf(date, endTime)
    {
      if endTime.None? {
        return None;
      }
      var startDate := date;
      var end := endTime.value;
      end := DayStart(startDate) + TimeOfDay(end);
      if end < startDate {
        end := end + DayMs;
      }
      ModDay(TimeOfDay(endTime.value) - TimeOfDay(startDate));
      d := Some(Round((end - startDate) as real / 60000.0));
    }

    /** `calculateCourtFee`. */
    method CalculateCourtFee() returns (fee: Option<int>)
      ensures fee == CourtFeeFor(DurationOf(date, endTime), courtFeePerHour)
    {
      var duration := CalculateDuration();
      if duration.Some? && duration.value != 0 && courtFeePerHour != "" {
        var hourlyRate := ParseFloat(courtFeePerHour);
        if hourlyRate.None? {
          fee := None;
        } else {
          fee := Some(Round(Due(hourlyRate.value, duration.value)));
        }
      } else {
        fee := Some(0);
      }
    }

    /** `addCourtFeeFromRate`: on success the court-fee expense is appended. */
    method AddCourtFeeFromRate(id: Id, currency: real -> string) returns (r: Result<Expense, FormError>)
      modifies this`expenses
      ensures r == CourtFeeOutcome(date, endTime, courtFeePerHour, id, currency)
      ensures r.Ok? ==> expenses == old(expenses) + [r.value]
      ensures r.Err? ==> expenses == old(expenses)
    {
      var rate := ParseFloat(courtFeePerHour);
      if courtFeePerHour == "" || rate.None? || rate.value <= 0.0 {
        return Err(InvalidRate);
      }
      if endTime.None? {
        return Err(NoEndTime);
      }
      var fee := CalculateCourtFee();
      if fee.None? || fee.value <= 0 {
        return Err(FeeNotComputable);
      }
      var duration := CalculateDuration();
      CourtFeeCheckSound(date, endTime, courtFeePerHour);
      var hours, minutes := 0, 0;
      if duration.Some? && duration.value != 0 {
        hours := duration.value / 60;
        minutes := duration.value % 60;
      }
      var hourText := if hours > 0 then ShowNat(hours) + " giờ " else "";
      var minuteText := if minutes > 0 then ShowNat(minutes) + " phút" else "";
      var durationText := hourText + minuteText;
      var rateText := currency(rate.value) + "/giờ";
      var desc := "Sân " + durationText + " (" + rateText + ")";
      assert durationText == DurationText(duration.value);
      DescriptionShape(durationText, currency(rate.value));
      assert desc == CourtFeeDescription(duration.value, currency(rate.value));
      var newExpense := Expense(id, CourtFee, fee.value as real, desc, None);
      expenses := expenses + [newExpense];
      r := Ok(newExpense);
    }
  }
}
