/**
 * Whole runs of a session: start, round-count input, then work/break timer
 * firings, stated over the transitions of module Handler.
 */
module Lifecycle {
  import opened Options
  import opened Sessions
  import opened Handler
  import Atoi

  /** One round of timers: the work timer fires at `workAt`, then the break timer at `breakAt`. */
  function Cycle(cur: Option<Session>, workAt: int, breakAt: int): Step
  {
    var w := WorkFired(cur, workAt);
    var b := BreakFired(w.next, breakAt);
    Step(b.next, w.notices + b.notices)
  }

  /** The rounds of timers in `times`, in order, with every notification sent along the way. */
  function Cycles(cur: Option<Session>, times: seq<(int, int)>): Step
    decreases |times|
  {
    if times == [] then Step(cur, [])
    else
      var c := Cycle(cur, times[0].0, times[0].1);
      var rest := Cycles(c.next, times[1..]);
      Step(rest.next, c.notices + rest.notices)
  }

  /** Once the session is gone, no timer fires again and nothing is sent. */
  lemma {:induction false} CyclesAbsent(times: seq<(int, int)>)
    ensures Cycles(None, times) == Step(None, [])
  {
    if times != [] {
      CyclesAbsent(times[1..]);
    }
  }

  /** The number of "all rounds complete" notifications in `ns`. */
  function Completions(ns: seq<Notice>): nat
  {
    multiset(ns)[AllComplete]
  }

  /**
   * From a work phase at round c of n, the session survives k <= n - c rounds of
   * timers (back in work at round c + k, never completing), and is gone after
   * more than that, with "all rounds complete" sent exactly once.
   */
  lemma {:induction false} CyclesFromWork(s: Session, times: seq<(int, int)>)
    requires Inv(s) && s.Phase == Work
    ensures var r := Cycles(Some(s), times);
      if |times| <= s.TotalRounds - s.CurrentRound then
        && r.next.Some? && Inv(r.next.value) && r.next.value.Phase == Work
        && r.next.value.CurrentRound == s.CurrentRound + |times|
        && r.next.value.TotalRounds == s.TotalRounds
        && Completions(r.notices) == 0
      else
        r.next.None? && Completions(r.notices) == 1
    decreases |times|
  {
    if times != [] {
      var c := Cycle(Some(s), times[0].0, times[0].1);
      if s.CurrentRound < s.TotalRounds {
        assert c.notices == [BreakTime, BreakOver(s.CurrentRound + 1), Focus(s.CurrentRound + 1)];
        CyclesFromWork(c.next.value, times[1..]);
      } else {
        assert c == Step(None, [BreakTime, AllComplete]);
        CyclesAbsent(times[1..]);
      }
    }
  }

  /**
   * A full run: `/runpomodoro` on a chat with no armed timer, the count n in
   * decimal, then rounds of timers. The session is in its work phase at round
   * k + 1 after k < n rounds, and is deleted after the n-th break firing, with
   * "all rounds complete" sent exactly once over the whole run.
   */
  lemma FullRun(cur: Option<Session>, n: int, inputAt: int, times: seq<(int, int)>)
    requires cur.None? || !cur.value.TimerArmed
    requires MinRounds <= n <= MaxRounds
    ensures var start := StartRequest(cur);
      var input := RoundInput(start.next, Atoi.Itoa(n), inputAt);
      var run := Cycles(input.next, times);
      && start.notices == [AskRounds]
      && input.notices == [Focus(1)]
      && (|times| < n ==>
            && run.next.Some? && run.next.value.Phase == Work && run.next.value.TimerArmed
            && run.next.value.CurrentRound == |times| + 1 && run.next.value.TotalRounds == n
            && Completions(start.notices + input.notices + run.notices) == 0)
      && (|times| >= n ==>
            run.next.None? && Completions(start.notices + input.notices + run.notices) == 1)
  {
    RoundCountAccepts(n);
    var start := StartRequest(cur);
    var input := RoundInput(start.next, Atoi.Itoa(n), inputAt);
    CyclesFromWork(input.next.value, times);
  }

  /** With two rounds: after the first break firing the session is back in work at round 2. */
  lemma TwoRounds(w1: int, b1: int, w2: int, b2: int)
    ensures var input := RoundInput(StartRequest(None).next, "2", 0);
      var one := Cycle(input.next, w1, b1);
      var two := Cycle(one.next, w2, b2);
      && one.next.Some? && one.next.value.CurrentRound == 2 && one.next.value.Phase == Work
      && one.next.value.TimerArmed && one.notices == [BreakTime, BreakOver(2), Focus(2)]
      && two.next.None? && two.notices == [BreakTime, AllComplete]
  {
  }

  /** Input arriving while a phase runs is ignored: the session and its timer are unchanged, nothing is sent. */
  lemma InputDuringPhase(s: Session, text: string, now: int)
    requires Inv(s) && s.Phase != Unset
    ensures RoundInput(Some(s), text, now) == Step(Some(s), [])
  {
  }

  /** An event on one chat leaves every other chat's session as it was. */
  lemma OtherChatsUntouched(m: map<ChatID, Session>, id: ChatID, other: ChatID, text: string, now: int)
    requires other != id
    ensures var cur := Lookup(m, id);
      && Lookup(Commit(m, id, StartRequest(cur).next), other) == Lookup(m, other)
      && Lookup(Commit(m, id, RoundInput(cur, text, now).next), other) == Lookup(m, other)
      && Lookup(Commit(m, id, WorkFired(cur, now).next), other) == Lookup(m, other)
      && Lookup(Commit(m, id, BreakFired(cur, now).next), other) == Lookup(m, other)
      && Lookup(Commit(m, id, StopRequest(cur).next), other) == Lookup(m, other)
  {
  }
}
