/** The edit-session screen: the shared form seeded from a stored session, a rate input that
    keeps digits only, and saving the form over the stored session. */
module EditSession {
  import opened Wrappers
  import opened Types
  import opened Text
  import opened Lists
  import opened SessionForm
  import Storage

  /** The session `handleSubmit` writes: the original with the form's fields spread over
      it, so the id and the payment flags are kept. */
  function Edited(original: Session, date: Timestamp, endTime: Option<Timestamp>, location: string,
                  notes: string, rateText: string, all: seq<Player>, selected: seq<Id>,
                  expenses: seq<Expense>): (s: Session)
    ensures s.id == original.id && s.paymentStatus == original.paymentStatus
    ensures s.date == date && s.endTime == endTime && s.expenses == expenses
    ensures s.duration == DurationOf(date, endTime)
    ensures s.location == Trim(location) && s.notes == NotesValue(notes)
    ensures s.courtFeePerHour == RateValue(rateText)
    ensures forall p :: p in s.players <==> p in all && p.id in selected
  {
    forall p ensures p in SelectPlayers(all, selected) <==> p in all && p.id in selected {
      SelectPlayersMembers(all, selected, p);
    }
    original.(date := date, endTime := endTime, duration := DurationOf(date, endTime),
              courtFeePerHour := RateValue(rateText), location := Trim(location),
              notes := NotesValue(notes), players := SelectPlayers(all, selected), expenses := expenses)
  }

  /** The rate text a session seeds: its rate as `showNumber` spells it, unless the rate is
      missing or zero, in which case the input keeps `current`. */
  function SeededRate(rate: Option<real>, showNumber: real -> string, current: string): string {
    if rate.Some? && rate.value != 0.0 then showNumber(rate.value) else current
  }

  /** Selecting every id of a player list selects the whole list. */
  lemma {:induction false} SelectAll(players: seq<Player>, selected: seq<Id>)
    requires forall i :: 0 <= i < |players| ==> players[i].id in selected
    ensures SelectPlayers(players, selected) == players
  {
    if players != [] {
      assert forall i :: 1 <= i < |players| ==> players[1..][i - 1] == players[i];
      SelectAll(players[1..], selected);
    }
  }

  /** Opening a session and saving it without touching anything writes back that session,
      when its fields are in the shape the screens save (a trimmed location, trimmed notes
      or none, a duration computed from its times, no zero rate), `showNumber` spells a rate
      so that it reads back as the same number, and the known players listed in order are
      exactly the session's players. */
  lemma SaveUnchanged(s: Session, all: seq<Player>, showNumber: real -> string)
    requires Trim(s.location) == s.location
    requires s.notes.None? || (s.notes.value != "" && Trim(s.notes.value) == s.notes.value)
    requires s.duration == DurationOf(s.date, s.endTime)
    requires s.courtFeePerHour.Some? ==>
      s.courtFeePerHour.value != 0.0 && showNumber(s.courtFeePerHour.value) != "" &&
      ParseFloat(showNumber(s.courtFeePerHour.value)) == Some(s.courtFeePerHour.value)
    requires SelectPlayers(all, PlayerIds(s.players)) == s.players
    ensures Edited(s, s.date, s.endTime, s.location, s.notes.GetOr(""),
                   SeededRate(s.courtFeePerHour, showNumber, ""), all, PlayerIds(s.players), s.expenses) == s
  {
    if s.notes.Some? {
      TrimBlank(s.notes.value);
      assert NotesValue(s.notes.value) == s.notes;
    }
  }

  /** A stored player that is no longer among the known players is dropped from the session
      the next time it is saved: with the known players being the session's own, nobody is
      dropped. */
  lemma SessionPlayersKept(s: Session)
    ensures SelectPlayers(s.players, PlayerIds(s.players)) == s.players
  {
    SelectAll(s.players, PlayerIds(s.players));
  }

  /** The edit screen's rate input holds digits only, so its court fee is always a number:
      the NaN fee of the new-session screen cannot arise here. */
  lemma DigitRateHasFee(duration: Option<int>, rateText: string)
    requires IsDigits(rateText)
    ensures CourtFeeFor(duration, rateText).Some?
    ensures rateText != "" ==> RateValue(rateText) == Some(DigitsValue(rateText) as real)
  {
    if rateText != "" {
      ParseFloatDigits(rateText);
    }
  }

  class EditScreen {
    /** The form's fields, shared with the new-session screen. */
    const form: Form
    /** The session as loaded; `None` until it is found. */
    var originalSession: Option<Session>
    var isLoading: bool

    /** The screen as it opens: a blank form dated `now` with the known players loaded,
        nothing seeded yet and the spinner showing. */
    constructor (now: Timestamp, players: seq<Player>)
      ensures fresh(form) && form.Valid()
      ensures form.date == now && form.endTime == None && form.location == "" && form.notes == ""
      ensures form.courtFeePerHour == "" && form.allPlayers == players && form.selectedPlayers == []
      ensures form.expenses == [] && form.currentExpense == EmptyDraft
      ensures originalSession == None && isLoading
    {
      form := new Form(now, players);
      originalSession := None;
      isLoading := true;
    }

    /** `loadSession`: the first stored session with the id seeds the form; the end time and
        the rate are seeded only when the session has them (a zero rate counts as none).
        Without such a session nothing is seeded. Either way the spinner stops. */
    method LoadSession(store: Storage.Store, sessionId: Id, readFails: bool, showNumber: real -> string)
      returns (r: Result<Session, FormError>)
      modifies this`originalSession, this`isLoading
      modifies form`date, form`endTime, form`location, form`notes, form`courtFeePerHour
      modifies form`selectedPlayers, form`expenses
      ensures !isLoading
      ensures var list := Storage.Read(store.sessions, readFails);
        match FirstIndex(list, Storage.SessionId, sessionId)
        case None =>
          && r == Err(SessionNotFound) && originalSession == old(originalSession)
          && form.date == old(form.date) && form.endTime == old(form.endTime)
          && form.location == old(form.location) && form.notes == old(form.notes)
          && form.courtFeePerHour == old(form.courtFeePerHour)
          && form.selectedPlayers == old(form.selectedPlayers) && form.expenses == old(form.expenses)
        case Some(i) =>
          var s := list[i];
          && r == Ok(s) && originalSession == Some(s)
          && form.date == s.date && form.location == s.location && form.notes == s.notes.GetOr("")
          && form.expenses == s.expenses && form.selectedPlayers == PlayerIds(s.players)
          && form.endTime == (if s.endTime.Some? then s.endTime else old(form.endTime))
          && form.courtFeePerHour == SeededRate(s.courtFeePerHour, showNumber, old(form.courtFeePerHour))
    {
      var sessions := store.GetSessions(readFails);
      var index := FirstIndex(sessions, Storage.SessionId, sessionId);
      if index.None? {
        isLoading := false;
        return Err(SessionNotFound);
      }
      var session := sessions[index.value];
      originalSession := Some(session);
      form.date := session.date;
      form.location := session.location;
      form.notes := session.notes.GetOr("");
      form.expenses := session.expenses;
      form.selectedPlayers := PlayerIds(session.players);
      if session.endTime.Some? {
        form.endTime := session.endTime;
      }
      if session.courtFeePerHour.Some? && session.courtFeePerHour.value != 0.0 {
        form.courtFeePerHour := showNumber(session.courtFeePerHour.value);
      }
      isLoading := false;
      r := Ok(session);
    }

    /** The edit screen's rate input keeps the digits of what is typed. */
    method SetCourtFeeText(value: string)
      modifies form`courtFeePerHour
      ensures form.courtFeePerHour == KeepDigits(value)
      ensures IsDigits(form.courtFeePerHour)
    {
      form.courtFeePerHour := KeepDigits(value);
    }

    /** `handleSubmit`: after the form's checks and the check that a session was loaded, the
        edited session replaces the first stored one with its id; without such a stored
        session the update throws and nothing is written. */
    method HandleSubmit(store: Storage.Store, readFails: bool, writeFails: bool) returns (r: Result<Session, FormError>)
      modifies store
      ensures match SubmitCheck(form.location, form.selectedPlayers, form.expenses)
        case Some(err) => r == Err(err) && store.sessions == old(store.sessions)
        case None =>
          if originalSession.None? then r == Err(MissingOriginal) && store.sessions == old(store.sessions)
          else
            var u := Edited(originalSession.value, form.date, form.endTime, form.location, form.notes,
                            form.courtFeePerHour, form.allPlayers, form.selectedPlayers, form.expenses);
            var list := Storage.Read(old(store.sessions), readFails);
            match FirstIndex(list, Storage.SessionId, u.id)
            case None => r == Err(StoreFailed(Storage.NotFound)) && store.sessions == old(store.sessions)
            case Some(i) =>
              if writeFails then r == Err(StoreFailed(Storage.WriteFailed)) && store.sessions == old(store.sessions)
              else r == Ok(u) && store.sessions == Some(list[i := u])
      ensures store.players == old(store.players)
    {
      var check := SubmitCheck(form.location, form.selectedPlayers, form.expenses);
      if check.Some? {
        return Err(check.value);
      }
      if originalSession.None? {
        return Err(MissingOriginal);
      }
      var selectedPlayerObjects := SelectPlayers(form.allPlayers, form.selectedPlayers);
      var duration := form.CalculateDuration();
      var hourlyFee := if form.courtFeePerHour != "" then ParseFloat(form.courtFeePerHour) else None;
      var updated := originalSession.value.(date := form.date, endTime := form.endTime, duration := duration,
                                            courtFeePerHour := hourlyFee, location := Trim(form.location),
                                            notes := NotesValue(form.notes), players := selectedPlayerObjects,
                                            expenses := form.expenses);
      assert updated == Edited(originalSession.value, form.date, form.endTime, form.location, form.notes,
                               form.courtFeePerHour, form.allPlayers, form.selectedPlayers, form.expenses);
      var saved := store.UpdateSession(updated, readFails, writeFails);
      if saved.Err? {
        return Err(StoreFailed(saved.error));
      }
      r := Ok(updated);
    }
  }
}
