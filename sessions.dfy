/**
 * The per-chat Pomodoro session record and the keyed registry that owns
 * every session (bot/session.go).
 */
module Sessions {
  import opened Options

  /** Telegram chat identifier (an int64 in the source; width plays no role here). */
  type ChatID = int

  /** The phase of a session; `Unset` is the zero value "" that an awaiting-input session carries. */
  datatype Phase = Unset | Work | Break

  /**
   * One chat's session. `TimerArmed` stands for the `Timer` field being non-nil,
   * and `StartTime` is the start of the current phase, in nanoseconds.
   */
  datatype Session = Session(
    CurrentRound: int,
    TotalRounds: int,
    TimerArmed: bool,
    AwaitingInput: bool,
    Phase: Phase,
    StartTime: int)

  /** What `Get` reports for `id` when the registry holds `m`. */
  function Lookup(m: map<ChatID, Session>, id: ChatID): Option<Session>
  {
    if id in m then Some(m[id]) else None
  }

  /** The registry: a map from chat to session, updated in place. */
  class SessionStore {
    var sessions: map<ChatID, Session>

    constructor ()
      ensures sessions == map[]
    {
      sessions := map[];
    }

    /** Reads an entry; reports presence exactly when the chat has one. Changes nothing. */
    method Get(chatID: ChatID) returns (session: Option<Session>)
      ensures session.Some? <==> chatID in sessions
      ensures session.Some? ==> session.value == sessions[chatID]
    {
      if chatID in sessions {
        session := Some(sessions[chatID]);
      } else {
        session := None;
      }
    }

    /** Inserts or replaces the entry of `chatID`; every other entry stays as it was. */
    method Set(chatID: ChatID, session: Session)
      modifies this
      ensures sessions == old(sessions)[chatID := session]
      ensures Lookup(sessions, chatID) == Some(session)
      ensures forall id :: id != chatID ==> Lookup(sessions, id) == Lookup(old(sessions), id)
    {
      sessions := sessions[chatID := session];
    }

    /** Removes the entry of `chatID` if there is one; every other entry stays as it was. */
    method Delete(chatID: ChatID)
      modifies this
      ensures sessions == old(sessions) - {chatID}
      ensures Lookup(sessions, chatID) == None
      ensures chatID !in old(sessions) ==> sessions == old(sessions)
      ensures forall id :: id != chatID ==> Lookup(sessions, id) == Lookup(old(sessions), id)
    {
      sessions := sessions - {chatID};
    }
  }

  /** After a `Set`, a `Get` of the same chat returns what was written. */
  lemma GetAfterSet(m: map<ChatID, Session>, id: ChatID, s: Session)
    ensures Lookup(m[id := s], id) == Some(s)
  {
  }

  /** Last writer wins: a second `Set` of the same chat replaces the first entirely. */
  lemma SetTwice(m: map<ChatID, Session>, id: ChatID, first: Session, second: Session)
    ensures m[id := first][id := second] == m[id := second]
  {
  }

  /** After a `Delete`, a `Get` of that chat reports absence, and a second `Delete` changes nothing. */
  lemma DeleteTwice(m: map<ChatID, Session>, id: ChatID)
    ensures Lookup(m - {id}, id) == None
    ensures (m - {id}) - {id} == m - {id}
  {
  }
}
