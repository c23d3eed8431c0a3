/** The new-session screen: the shared form plus adding a brand-new player on the spot and
    saving the form as a new session. */
module NewSession {
  import opened Wrappers
  import opened Types
  import opened Text
  import opened SessionForm
  import Storage

  /** The draft `handleSubmit` hands to the store, built from the form's fields: the
      known players that are selected, the trimmed location, the notes only when not blank,
      the rate only when typed, and no payment flags yet. */
  function SubmittedDraft(date: Timestamp, endTime: Option<Timestamp>, location: string, notes: string,
                          rateText: string, all: seq<Player>, selected: seq<Id>,
                          expenses: seq<Expense>): (d: SessionDraft)
    ensures d.date == date && d.endTime == endTime && d.expenses == expenses
    ensures d.duration == DurationOf(date, endTime)
    ensures d.location == Trim(location) && d.notes == NotesValue(notes)
    ensures d.courtFeePerHour == RateValue(rateText) && d.paymentStatus.None?
    ensures forall p :: p in d.players <==> p in all && p.id in selected
  {
    forall p ensures p in SelectPlayers(all, selected) <==> p in all && p.id in selected {
      SelectPlayersMembers(all, selected, p);
    }
    SessionDraft(date, endTime, DurationOf(date, endTime), RateValue(rateText),
                 SelectPlayers(all, selected), expenses, Trim(location), NotesValue(notes), None)
  }

  /** A draft that passes the checks has a location with no white space at either end, at
      least one expense, and a duration exactly when it has an end time. */
  lemma SubmittedDraftShape(date: Timestamp, endTime: Option<Timestamp>, location: string, notes: string,
                            rateText: string, all: seq<Player>, selected: seq<Id>, expenses: seq<Expense>)
    requires SubmitCheck(location, selected, expenses).None?
    ensures var d := SubmittedDraft(date, endTime, location, notes, rateText, all, selected, expenses);
      && d.location != "" && !IsSpace(d.location[0]) && !IsSpace(d.location[|d.location| - 1])
      && |d.expenses| >= 1
      && (d.duration.Some? <==> endTime.Some?)
      && (d.duration.Some? ==> 0 <= d.duration.value <= 1440)
      && (d.notes.Some? ==> d.notes.value != "" && Trim(d.notes.value) == d.notes.value)
  {
    var d := SubmittedDraft(date, endTime, location, notes, rateText, all, selected, expenses);
    if d.notes.Some? {
      TrimIdempotent(notes);
    }
  }

  /** A player added on this screen is known and selected, so the session saved next has
      them among its players. */
  lemma AddedPlayerTakesPart(all: seq<Player>, selected: seq<Id>, p: Player)
    ensures p in SelectPlayers(all + [p], selected + [p.id])
  {
    SelectPlayersMembers(all + [p], selected + [p.id], p);
  }

  /** `handleAddPlayer`: a blank name is refused; otherwise the trimmed name is stored as a
      new player, who joins the known and the selected players, and the name input is
      cleared. A failed write leaves the form as it was. */
  method HandleAddPlayer(form: Form, store: Storage.Store, id: Id, readFails: bool, writeFails: bool)
    returns (r: Result<Player, FormError>)
    modifies form`allPlayers, form`selectedPlayers, form`newPlayerName, store
    ensures var name := Trim(old(form.newPlayerName));
      if name == "" then
        && r == Err(BlankName)
        && form.allPlayers == old(form.allPlayers) && form.selectedPlayers == old(form.selectedPlayers)
        && form.newPlayerName == old(form.newPlayerName) && store.players == old(store.players)
      else if writeFails then
        && r == Err(StoreFailed(Storage.WriteFailed))
        && form.allPlayers == old(form.allPlayers) && form.selectedPlayers == old(form.selectedPlayers)
        && form.newPlayerName == old(form.newPlayerName) && store.players == old(store.players)
      else
        && r == Ok(Player(id, name))
        && form.allPlayers == old(form.allPlayers) + [Player(id, name)]
        && form.selectedPlayers == old(form.selectedPlayers) + [id]
        && form.newPlayerName == ""
        && store.players == Some(Storage.Read(old(store.players), readFails) + [Player(id, name)])
    ensures store.sessions == old(store.sessions)
  {
    var name := Trim(form.newPlayerName);
    if name == "" {
      return Err(BlankName);
    }
    var added := store.AddPlayer(name, id, readFails, writeFails);
    if added.Err? {
      return Err(StoreFailed(added.error));
    }
    var newPlayer := added.value;
    form.allPlayers := form.allPlayers + [newPlayer];
    form.selectedPlayers := form.selectedPlayers + [newPlayer.id];
    form.newPlayerName := "";
    r := Ok(newPlayer);
  }

  /** `handleSubmit`: after the checks, the form is saved as a new session with the id
      `id`; a refused form and a failed write leave the store as it was. */
  method HandleSubmit(form: Form, store: Storage.Store, id: Id, readFails: bool, writeFails: bool)
    returns (r: Result<Session, FormError>)
    modifies store
    ensures match SubmitCheck(form.location, form.selectedPlayers, form.expenses)
      case Some(err) => r == Err(err) && store.sessions == old(store.sessions)
      case None =>
        var s := WithId(SubmittedDraft(form.date, form.endTime, form.location, form.notes, form.courtFeePerHour,
                                       form.allPlayers, form.selectedPlayers, form.expenses), id);
        if writeFails then r == Err(StoreFailed(Storage.WriteFailed)) && store.sessions == old(store.sessions)
        else r == Ok(s) && store.sessions == Some(Storage.Read(old(store.sessions), readFails) + [s])
    ensures store.players == old(store.players)
  {
    var check := SubmitCheck(form.location, form.selectedPlayers, form.expenses);
    if check.Some? {
      return Err(check.value);
    }
    var selectedPlayerObjects := SelectPlayers(form.allPlayers, form.selectedPlayers);
    var duration := form.CalculateDuration();
    var hourlyFee := if form.courtFeePerHour != "" then ParseFloat(form.courtFeePerHour) else None;
    var draft := SessionDraft(form.date, form.endTime, duration, hourlyFee, selectedPlayerObjects,
                              form.expenses, Trim(form.location), NotesValue(form.notes), None);
    assert draft == SubmittedDraft(form.date, form.endTime, form.location, form.notes, form.courtFeePerHour,
                                   form.allPlayers, form.selectedPlayers, form.expenses);
    var added := store.AddSession(draft, id, readFails, writeFails);
    if added.Err? {
      return Err(StoreFailed(added.error));
    }
    r := Ok(added.value);
  }
}
