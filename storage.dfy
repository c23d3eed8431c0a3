/** The session and player store: two lists kept under two separate keys of a key-value
    store. Every operation reads a whole list, changes it and writes the whole list back.
    Serialisation is taken to round-trip exactly, so a key holds the list itself; a read
    that fails (the store errs or its text does not parse) and a write that fails are
    parameters of the operations, and the id a new record gets is supplied by the caller. */
module Storage {
  import opened Wrappers
  import opened Types
  import opened Lists

  /** Why an operation threw. */
  datatype StoreError = WriteFailed | NotFound

  function SessionId(s: Session): Id {
    s.id
  }

  function PlayerIdOf(p: Player): Id {
    p.id
  }

  /** What a read of a key yields: the stored list, or the empty list when the key is
      missing or the read fails. */
  function Read<T>(key: Option<seq<T>>, readFails: bool): (r: seq<T>)
    ensures readFails || key.None? ==> r == []
    ensures !readFails && key.Some? ==> r == key.value
  {
    if readFails then [] else key.GetOr([])
  }

  /** After an update the replaced position is where the id is found first, and updating
      again with the same record changes nothing. */
  lemma UpdateFound(s: seq<Session>, updated: Session)
    requires FirstIndex(s, SessionId, updated.id).Some?
    ensures var i := FirstIndex(s, SessionId, updated.id).value;
      && FirstIndex(s[i := updated], SessionId, updated.id) == Some(i)
      && s[i := updated][i := updated] == s[i := updated]
  {
    var i := FirstIndex(s, SessionId, updated.id).value;
    var t := s[i := updated];
    forall j | 0 <= j < i ensures SessionId(t[j]) != updated.id {
      assert t[j] == s[j];
    }
    FirstIndexAt(t, SessionId, updated.id, i);
  }

  // ---------------------------------------------------------------------------
  // The store

  class Store {
    /** The sessions key: `None` while nothing was ever saved. */
    var sessions: Option<seq<Session>>
    /** The players key, independent of the sessions key. */
    var players: Option<seq<Player>>

    constructor ()
      ensures sessions == None && players == None
    {
      sessions := None;
      players := None;
    }

    /** `getSessions`: a missing key and a failed read both read as no sessions. */
    method GetSessions(readFails: bool) returns (r: seq<Session>)
      ensures r == Read(sessions, readFails)
    {
      if readFails {
        return [];
      }
      r := sessions.GetOr([]);
    }

    /** `saveSessions`: the whole list is written, or the write throws and nothing changes. */
    method SaveSessions(list: seq<Session>, writeFails: bool) returns (r: Result<(), StoreError>)
      modifies this
      ensures r == if writeFails then Err(WriteFailed) else Ok(())
      ensures sessions == if writeFails then old(sessions) else Some(list)
      ensures players == old(players)
    {
      if writeFails {
        return Err(WriteFailed);
      }
      sessions := Some(list);
      r := Ok(());
    }

    /** `addSession`: the draft with the id `id` is appended to what was read and returned.
        After a failed read the list written holds the new session alone. */
    method AddSession(draft: SessionDraft, id: Id, readFails: bool, writeFails: bool)
      returns (r: Result<Session, StoreError>)
      modifies this
      ensures r == if writeFails then Err(WriteFailed) else Ok(WithId(draft, id))
      ensures sessions == if writeFails then old(sessions)
                          else Some(Read(old(sessions), readFails) + [WithId(draft, id)])
      ensures readFails && !writeFails ==> sessions == Some([WithId(draft, id)])
      ensures players == old(players)
    {
      var list := GetSessions(readFails);
      var newSession := WithId(draft, id);
      list := list + [newSession];
      assert readFails ==> list == [newSession];
      var saved := SaveSessions(list, writeFails);
      if saved.Err? {
        return Err(saved.error);
      }
      r := Ok(newSession);
    }

    /** `updateSession`: the first session with the same id is replaced; without one the
        call throws and nothing is written. */
    method UpdateSession(updated: Session, readFails: bool, writeFails: bool) returns (r: Result<(), StoreError>)
      modifies this
      ensures var list := Read(old(sessions), readFails);
        match FirstIndex(list, SessionId, updated.id)
        case None => r == Err(NotFound) && sessions == old(sessions)
        case Some(i) =>
          && r == (if writeFails then Err(WriteFailed) else Ok(()))
          && sessions == if writeFails then old(sessions) else Some(list[i := updated])
      ensures players == old(players)
    {
      var list := GetSessions(readFails);
      var index := FirstIndex(list, SessionId, updated.id);
      if index.Some? {
        var replaced := list[index.value := updated];
        r := SaveSessions(replaced, writeFails);
      } else {
        r := Err(NotFound);
      }
    }

    /** `deleteSession`: every session with the id is dropped, the others keep their order. */
    method DeleteSession(id: Id, readFails: bool, writeFails: bool) returns (r: Result<(), StoreError>)
      modifies this
      ensures r == if writeFails then Err(WriteFailed) else Ok(())
      ensures sessions == if writeFails then old(sessions)
                          else Some(Without(Read(old(sessions), readFails), SessionId, id))
      ensures players == old(players)
    {
      var list := GetSessions(readFails);
      var updatedSessions := Without(list, SessionId, id);
      r := SaveSessions(updatedSessions, writeFails);
    }

    /** `getPlayers`: a missing key and a failed read both read as no players. */
    method GetPlayers(readFails: bool) returns (r: seq<Player>)
      ensures r == Read(players, readFails)
    {
      if readFails {
        return [];
      }
      r := players.GetOr([]);
    }

    /** `savePlayers`. */
    method SavePlayers(list: seq<Player>, writeFails: bool) returns (r: Result<(), StoreError>)
      modifies this
      ensures r == if writeFails then Err(WriteFailed) else Ok(())
      ensures players == if writeFails then old(players) else Some(list)
      ensures sessions == old(sessions)
    {
      if writeFails {
        return Err(WriteFailed);
      }
      players := Some(list);
      r := Ok(());
    }

    /** `addPlayer`: a player with the id `id` and the name exactly as given is appended. */
    method AddPlayer(name: string, id: Id, readFails: bool, writeFails: bool) returns (r: Result<Player, StoreError>)
      modifies this
      ensures r == if writeFails then Err(WriteFailed) else Ok(Player(id, name))
      ensures players == if writeFails then old(players)
                         else Some(Read(old(players), readFails) + [Player(id, name)])
      ensures sessions == old(sessions)
    {
      var list := GetPlayers(readFails);
      var newPlayer := Player(id, name);
      list := list + [newPlayer];
      var saved := SavePlayers(list, writeFails);
      if saved.Err? {
        return Err(saved.error);
      }
      r := Ok(newPlayer);
    }

    /** `deletePlayer`: only the players list is filtered; the copies of the player inside
        stored sessions stay. */
    method DeletePlayer(id: Id, readFails: bool, writeFails: bool) returns (r: Result<(), StoreError>)
      modifies this
      ensures r == if writeFails then Err(WriteFailed) else Ok(())
      ensures players == if writeFails then old(players)
                         else Some(Without(Read(old(players), readFails), PlayerIdOf, id))
      ensures sessions == old(sessions)
    {
      var list := GetPlayers(readFails);
      var updatedPlayers := Without(list, PlayerIdOf, id);
      r := SavePlayers(updatedPlayers, writeFails);
    }
  }
}
