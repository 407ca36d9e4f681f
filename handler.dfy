/**
 * The Pomodoro engine (bot/handler.go): the command handlers, the round-count
 * input, the two timer callbacks and the status report.
 *
 * Every event is first given as a pure transition on the chat's session
 * (`Option<Session>`, absent meaning "no session"), yielding the session to
 * write back and the notifications sent. The `Engine` class then performs
 * each event step by step through the `SessionStore`, and its methods are
 * proved to do exactly that transition.
 *
 * Timers are the `TimerArmed` flag of the session; a timer firing is an
 * explicit event carrying its time `now`. Time is counted in nanoseconds,
 * the unit of Go's `time.Duration`.
 */
module Handler {
  import opened Options
  import opened Sessions
  import Atoi

  const MaxRounds: int := 10
  const MinRounds: int := 1
  const Minute: int := 60_000_000_000
  const DefaultWork: int := 25 * Minute
  const DefaultBreak: int := 5 * Minute

  /** The messages the bot sends; their wording is left abstract. */
  datatype Notice =
    | Welcome                 // "/start"
    | Help                    // "/help"
    | MusicList               // "/music"
    | UnknownCommand
    | Duplicate               // a session with a timer already exists
    | AskRounds               // "How many rounds ...?"
    | InvalidRounds           // "Please enter a number between 1 and 10."
    | Focus(round: int)       // "Round N: time to focus ..."
    | BreakTime               // "Break time! ..."
    | BreakOver(round: int)   // "Break is over. Starting round N!"
    | AllComplete             // "All rounds are complete!"
    | NoActiveSession
    | UnknownPhase
    | Report(round: int, total: int, phase: Phase, remaining: int)
    | Stopped

  /** The outcome of an event on one chat: the session left behind (or none) and what was sent. */
  datatype Step = Step(next: Option<Session>, notices: seq<Notice>)

  /** The session `/runpomodoro` stores: waiting for a round count, every other field at its zero value. */
  function Fresh(): (s: Session)
    ensures s.AwaitingInput && !s.TimerArmed && s.Phase == Unset
  {
    Session(0, 0, false, true, Unset, 0)
  }

  /**
   * The session invariant. Awaiting input: no phase, no timer, no rounds.
   * Otherwise: in work or break, a timer armed and 1 <= CurrentRound <= TotalRounds <= 10.
   */
  predicate Inv(s: Session)
  {
    if s.AwaitingInput then
      s.Phase == Unset && !s.TimerArmed && s.CurrentRound == 0 && s.TotalRounds == 0
    else
      s.Phase != Unset && s.TimerArmed && MinRounds <= s.CurrentRound <= s.TotalRounds <= MaxRounds
  }

  predicate OptInv(o: Option<Session>)
  {
    o.Some? ==> Inv(o.value)
  }

  /** The invariant over the whole registry. */
  predicate StoreInv(m: map<ChatID, Session>)
  {
    forall id | id in m :: Inv(m[id])
  }

  /** Writes the outcome of an event back for chat `id`: a `Set` when a session remains, a `Delete` otherwise. */
  function Commit(m: map<ChatID, Session>, id: ChatID, next: Option<Session>): (r: map<ChatID, Session>)
    ensures Lookup(r, id) == next
    ensures forall other | other != id :: Lookup(r, other) == Lookup(m, other)
    ensures StoreInv(m) && OptInv(next) ==> StoreInv(r)
  {
    match next
    case Some(s) => m[id := s]
    case None => m - {id}
  }

  /** Writing back what was read changes nothing: an ignored event leaves the registry as it was. */
  lemma CommitLookup(m: map<ChatID, Session>, id: ChatID)
    ensures Commit(m, id, Lookup(m, id)) == m
  {
  }

  /** The round-count check: the parse succeeds and the value lies in [MinRounds, MaxRounds]. */
  function RoundCount(text: string): (r: Option<int>)
    ensures r.Some? ==> MinRounds <= r.value <= MaxRounds && Atoi.Atoi(text) == r
    ensures r.None? ==> Atoi.Atoi(text).None? || Atoi.Atoi(text).value < MinRounds || Atoi.Atoi(text).value > MaxRounds
  {
    var n := Atoi.Atoi(text);
    if n.None? || n.value < MinRounds || n.value > MaxRounds then None else n
  }

  /** Every count from 1 to 10, written in decimal, is accepted as itself. */
  lemma RoundCountAccepts(n: int)
    requires MinRounds <= n <= MaxRounds
    ensures RoundCount(Atoi.Itoa(n)) == Some(n)
  {
    Atoi.AtoiOfItoa(n);
  }

  /** Out-of-range numbers, non-numbers and empty text are refused; a sign and leading zeros are not. */
  lemma RoundCountExamples()
    ensures RoundCount("0") == None && RoundCount("11") == None && RoundCount("-3") == None
    ensures RoundCount("abc") == None && RoundCount("") == None && RoundCount("+") == None
    ensures RoundCount(" 5") == None
    ensures RoundCount("07") == Some(7) && RoundCount("+3") == Some(3) && RoundCount("10") == Some(10)
  {
  }

  /** The work phase as `startWorkRound` enters it: phase work, started now, a timer armed. */
  function EnterWork(s: Session, now: int): (r: Session)
    ensures r.Phase == Work && r.StartTime == now && r.TimerArmed
    ensures r.CurrentRound == s.CurrentRound && r.TotalRounds == s.TotalRounds && r.AwaitingInput == s.AwaitingInput
  {
    s.(Phase := Work, StartTime := now, TimerArmed := true)
  }

  /** The break phase as `startBreak` enters it: phase break, started now, a timer armed. */
  function EnterBreak(s: Session, now: int): (r: Session)
    ensures r.Phase == Break && r.StartTime == now && r.TimerArmed
    ensures r.CurrentRound == s.CurrentRound && r.TotalRounds == s.TotalRounds && r.AwaitingInput == s.AwaitingInput
  {
    s.(Phase := Break, StartTime := now, TimerArmed := true)
  }

  /** `/runpomodoro`: refused while a timer is armed, otherwise a fresh session replaces whatever was there. */
  function StartRequest(cur: Option<Session>): (r: Step)
    ensures r.next.Some?
    ensures cur.Some? && cur.value.TimerArmed ==> r == Step(cur, [Duplicate])
    ensures !(cur.Some? && cur.value.TimerArmed) ==> r == Step(Some(Fresh()), [AskRounds])
    ensures OptInv(cur) ==> OptInv(r.next)
  {
    if cur.Some? && cur.value.TimerArmed then Step(cur, [Duplicate])
    else Step(Some(Fresh()), [AskRounds])
  }

  /** Round-count input, followed by the first work round when the count is valid. */
  function RoundInput(cur: Option<Session>, text: string, now: int): (r: Step)
    ensures cur.None? || !cur.value.AwaitingInput ==> r == Step(cur, [])
    ensures cur.Some? && cur.value.AwaitingInput && RoundCount(text).None? ==> r == Step(cur, [InvalidRounds])
    ensures cur.Some? && cur.value.AwaitingInput && RoundCount(text).Some? ==>
      && r.next.Some?
      && var s := r.next.value;
      && !s.AwaitingInput && s.TotalRounds == RoundCount(text).value && s.CurrentRound == 1
      && s.Phase == Work && s.StartTime == now && s.TimerArmed
      && r.notices == [Focus(1)]
    ensures OptInv(cur) ==> OptInv(r.next)
  {
    if cur.None? || !cur.value.AwaitingInput then Step(cur, [])
    else
      match RoundCount(text)
      case None => Step(cur, [InvalidRounds])
      case Some(n) =>
        var s := cur.value.(AwaitingInput := false, TotalRounds := n, CurrentRound := 1,
                            Phase := Work, StartTime := now);
        Step(Some(EnterWork(s, now)), [Focus(s.CurrentRound)])
  }

  /** The work timer fires: "break time", then the break phase; only a pending work timer can fire. */
  function WorkFired(cur: Option<Session>, now: int): (r: Step)
    ensures !(cur.Some? && cur.value.TimerArmed && cur.value.Phase == Work) ==> r == Step(cur, [])
    ensures cur.Some? && cur.value.TimerArmed && cur.value.Phase == Work ==>
      && r.next.Some? && r.notices == [BreakTime]
      && r.next.value.Phase == Break && r.next.value.StartTime == now && r.next.value.TimerArmed
      && r.next.value.CurrentRound == cur.value.CurrentRound
      && r.next.value.TotalRounds == cur.value.TotalRounds
    ensures OptInv(cur) ==> OptInv(r.next)
  {
    if cur.Some? && cur.value.TimerArmed && cur.value.Phase == Work
    then Step(Some(EnterBreak(cur.value, now)), [BreakTime])
    else Step(cur, [])
  }

  /**
   * The break timer fires: the round advances; past the last round the session
   * is removed with "all rounds complete", otherwise the next work round starts.
   */
  function BreakFired(cur: Option<Session>, now: int): (r: Step)
    ensures !(cur.Some? && cur.value.TimerArmed && cur.value.Phase == Break) ==> r == Step(cur, [])
    ensures cur.Some? && cur.value.TimerArmed && cur.value.Phase == Break ==>
      var round := cur.value.CurrentRound + 1;
      if round > cur.value.TotalRounds then
        r == Step(None, [AllComplete])
      else
        && r.next.Some? && r.notices == [BreakOver(round), Focus(round)]
        && r.next.value.Phase == Work && r.next.value.StartTime == now && r.next.value.TimerArmed
        && r.next.value.CurrentRound == round
        && r.next.value.TotalRounds == cur.value.TotalRounds
    ensures OptInv(cur) ==> OptInv(r.next)
  {
    if cur.Some? && cur.value.TimerArmed && cur.value.Phase == Break then
      var s := cur.value.(CurrentRound := cur.value.CurrentRound + 1);
      if s.CurrentRound > s.TotalRounds then Step(None, [AllComplete])
      else Step(Some(EnterWork(s, now)), [BreakOver(s.CurrentRound), Focus(s.CurrentRound)])
    else Step(cur, [])
  }

  /** Time left in a phase of length `duration` that started at `start`, never below zero. */
  function Remaining(duration: int, start: int, now: int): (r: int)
    ensures r >= 0
    ensures now - start <= duration ==> r == duration - (now - start)
    ensures now - start >= duration ==> r == 0
  {
    var left := duration - (now - start);
    if left < 0 then 0 else left
  }

  /** Remaining time never grows as time passes, and never exceeds the phase once it has begun. */
  lemma RemainingDecreases(duration: int, start: int, earlier: int, later: int)
    requires earlier <= later
    ensures Remaining(duration, start, later) <= Remaining(duration, start, earlier)
    ensures start <= earlier && duration >= 0 ==> Remaining(duration, start, earlier) <= duration
  {
  }

  /** `/status`: what is reported for the chat's session at time `now`. */
  function StatusOf(cur: Option<Session>, now: int): (n: Notice)
    ensures cur.None? <==> n == NoActiveSession
    ensures cur.Some? && cur.value.Phase == Unset <==> n == UnknownPhase
    ensures cur.Some? && cur.value.Phase != Unset ==>
      var s := cur.value;
      var duration := if s.Phase == Work then DefaultWork else DefaultBreak;
      && n.Report? && n.round == s.CurrentRound && n.total == s.TotalRounds && n.phase == s.Phase
      && n.remaining >= 0
      && (now - s.StartTime <= duration ==> n.remaining == duration - (now - s.StartTime))
      && (now - s.StartTime >= duration ==> n.remaining == 0)
    ensures OptInv(cur) && n.Report? ==> MinRounds <= n.round <= n.total <= MaxRounds
  {
    if cur.None? then NoActiveSession
    else
      var s := cur.value;
      match s.Phase
      case Unset => UnknownPhase
      case Work => Report(s.CurrentRound, s.TotalRounds, s.Phase, Remaining(DefaultWork, s.StartTime, now))
      case Break => Report(s.CurrentRound, s.TotalRounds, s.Phase, Remaining(DefaultBreak, s.StartTime, now))
  }

  /** `/stop`: the session (and with it its timer) is gone afterwards, whatever state it was in. */
  function StopRequest(cur: Option<Session>): (r: Step)
    ensures r.next.None?
    ensures r.notices == if cur.None? then [NoActiveSession] else [Stopped]
  {
    if cur.None? then Step(None, [NoActiveSession]) else Step(None, [Stopped])
  }

  /** A second `/stop` reports that there is no active session. */
  lemma StopTwice(cur: Option<Session>)
    ensures StopRequest(StopRequest(cur).next) == Step(None, [NoActiveSession])
  {
  }

  /**
   * The engine over one registry. `Valid` is the invariant every handler keeps:
   * every stored session satisfies `Inv`.
   */
  class Engine {
    const store: SessionStore

    ghost predicate Valid()
      reads store
    {
      StoreInv(store.sessions)
    }

    constructor (store: SessionStore)
      requires StoreInv(store.sessions)
      ensures this.store == store && Valid()
    {
      this.store := store;
    }

    /** The dispatch of `handleCommand`. The static replies change nothing. */
    method HandleCommand(chatID: ChatID, command: string, now: int) returns (notices: seq<Notice>)
      requires Valid()
      modifies store
      ensures Valid()
      ensures command == "runpomodoro" ==>
        var r := StartRequest(Lookup(old(store.sessions), chatID));
        store.sessions == Commit(old(store.sessions), chatID, r.next) && notices == r.notices
      ensures command == "stop" ==>
        var r := StopRequest(Lookup(old(store.sessions), chatID));
        store.sessions == Commit(old(store.sessions), chatID, r.next) && notices == r.notices
      ensures command == "status" ==>
        store.sessions == old(store.sessions) && notices == [StatusOf(Lookup(old(store.sessions), chatID), now)]
      ensures command !in {"runpomodoro", "stop", "status"} ==> store.sessions == old(store.sessions)
      ensures command == "start" ==> notices == [Welcome]
      ensures command == "help" ==> notices == [Help]
      ensures command == "music" ==> notices == [MusicList]
      ensures command !in {"start", "help", "runpomodoro", "stop", "status", "music"} ==> notices == [UnknownCommand]
    {
      match command
      case "start" => notices := [Welcome];
      case "help" => notices := [Help];
      case "runpomodoro" => notices := RunPomodoro(chatID);
      case "stop" => notices := Stop(chatID);
      case "status" =>
        var n := Status(chatID, now);
        notices := [n];
      case "music" => notices := [MusicList];
      case _ => notices := [UnknownCommand];
    }

    /** `/runpomodoro`. */
    method RunPomodoro(chatID: ChatID) returns (notices: seq<Notice>)
      requires Valid()
      modifies store
      ensures Valid()
      ensures var r := StartRequest(Lookup(old(store.sessions), chatID));
        store.sessions == Commit(old(store.sessions), chatID, r.next) && notices == r.notices
      ensures old(chatID in store.sessions && store.sessions[chatID].TimerArmed) ==>
        store.sessions == old(store.sessions) && notices == [Duplicate]
    {
      var session := store.Get(chatID);
      if session.Some? && session.value.TimerArmed {
        CommitLookup(store.sessions, chatID);
        return [Duplicate];
      }
      store.Set(chatID, Fresh());
      notices := [AskRounds];
    }

    /** `handleUserInput`: round-count text; ignored unless the session is awaiting it. */
    method UserInput(chatID: ChatID, text: string, now: int) returns (notices: seq<Notice>)
      requires Valid()
      modifies store
      ensures Valid()
      ensures var r := RoundInput(Lookup(old(store.sessions), chatID), text, now);
        store.sessions == Commit(old(store.sessions), chatID, r.next) && notices == r.notices
      ensures old(chatID !in store.sessions || !store.sessions[chatID].AwaitingInput) ==>
        store.sessions == old(store.sessions) && notices == []
      ensures old(chatID in store.sessions && store.sessions[chatID].AwaitingInput) && RoundCount(text).None? ==>
        store.sessions == old(store.sessions) && notices == [InvalidRounds]
    {
      var session := store.Get(chatID);
      if session.None? || !session.value.AwaitingInput {
        CommitLookup(store.sessions, chatID);
        return [];
      }
      var n := RoundCount(text);
      if n.None? {
        CommitLookup(store.sessions, chatID);
        return [InvalidRounds];
      }
      var s := session.value.(AwaitingInput := false, TotalRounds := n.value, CurrentRound := 1,
                              Phase := Work, StartTime := now);
      store.Set(chatID, s);
      notices := StartWorkRound(chatID, now);
    }

    /** `startWorkRound`: announce the round, arm the work timer and store the session. */
    method StartWorkRound(chatID: ChatID, now: int) returns (notices: seq<Notice>)
      modifies store
      ensures chatID !in old(store.sessions) ==> store.sessions == old(store.sessions) && notices == []
      ensures chatID in old(store.sessions) ==>
        var s := old(store.sessions[chatID]);
        store.sessions == old(store.sessions)[chatID := EnterWork(s, now)] && notices == [Focus(s.CurrentRound)]
    {
      var session := store.Get(chatID);
      if session.None? {
        return [];
      }
      var s := session.value.(Phase := Work, StartTime := now);
      notices := [Focus(s.CurrentRound)];
      s := s.(TimerArmed := true);
      store.Set(chatID, s);
    }

    /** `startBreak`: arm the break timer and store the session. */
    method StartBreak(chatID: ChatID, now: int)
      modifies store
      ensures chatID !in old(store.sessions) ==> store.sessions == old(store.sessions)
      ensures chatID in old(store.sessions) ==>
        store.sessions == old(store.sessions)[chatID := EnterBreak(old(store.sessions[chatID]), now)]
    {
      var session := store.Get(chatID);
      if session.None? {
        return;
      }
      var s := session.value.(Phase := Break, StartTime := now);
      s := s.(TimerArmed := true);
      store.Set(chatID, s);
    }

    /** The work timer's callback, run at `now`; without a pending work timer nothing fires. */
    method FireWork(chatID: ChatID, now: int) returns (notices: seq<Notice>)
      requires Valid()
      modifies store
      ensures Valid()
      ensures var r := WorkFired(Lookup(old(store.sessions), chatID), now);
        store.sessions == Commit(old(store.sessions), chatID, r.next) && notices == r.notices
    {
      var session := store.Get(chatID);
      if session.None? || !session.value.TimerArmed || session.value.Phase != Work {
        CommitLookup(store.sessions, chatID);
        return [];
      }
      notices := [BreakTime];
      StartBreak(chatID, now);
    }

    /** The break timer's callback, run at `now`; without a pending break timer nothing fires. */
    method FireBreak(chatID: ChatID, now: int) returns (notices: seq<Notice>)
      requires Valid()
      modifies store
      ensures Valid()
      ensures var r := BreakFired(Lookup(old(store.sessions), chatID), now);
        store.sessions == Commit(old(store.sessions), chatID, r.next) && notices == r.notices
    {
      var session := store.Get(chatID);
      if session.None? || !session.value.TimerArmed || session.value.Phase != Break {
        CommitLookup(store.sessions, chatID);
        return [];
      }
      // The callback increments the stored record itself.
      var s := session.value.(CurrentRound := session.value.CurrentRound + 1);
      store.Set(chatID, s);
      if s.CurrentRound > s.TotalRounds {
        store.Delete(chatID);
        return [AllComplete];
      }
      notices := [BreakOver(s.CurrentRound)];
      var more := StartWorkRound(chatID, now);
      notices := notices + more;
    }

    /** `handleStatus`: reports without changing anything. */
    method Status(chatID: ChatID, now: int) returns (notice: Notice)
      ensures notice == StatusOf(Lookup(store.sessions, chatID), now)
      ensures notice.Report? ==> notice.remaining >= 0
    {
      var session := store.Get(chatID);
      if session.None? {
        return NoActiveSession;
      }
      var s := session.value;
      var duration: int;
      match s.Phase {
        case Unset =>
          return UnknownPhase;
        case Work =>
          duration := DefaultWork;
        case Break =>
          duration := DefaultBreak;
      }
      var remaining := duration - (now - s.StartTime);
      if remaining < 0 {
        remaining := 0;
      }
      notice := Report(s.CurrentRound, s.TotalRounds, s.Phase, remaining);
    }

    /** `stopSession`: cancel the timer and delete the session. */
    method Stop(chatID: ChatID) returns (notices: seq<Notice>)
      requires Valid()
      modifies store
      ensures Valid()
      ensures var r := StopRequest(Lookup(old(store.sessions), chatID));
        store.sessions == Commit(old(store.sessions), chatID, r.next) && notices == r.notices
      ensures chatID !in store.sessions
    {
      var session := store.Get(chatID);
      if session.None? {
        CommitLookup(store.sessions, chatID);
        return [NoActiveSession];
      }
      // Cancelling the pending callback: the armed flag goes with the record.
      store.Delete(chatID);
      notices := [Stopped];
    }
  }
}
