# Pomodoro bot session engine — a Dafny model

This project models the core of a Telegram bot that runs Pomodoro sessions,
one per chat: the keyed session registry (`SessionStore`) and the handlers
that drive a chat's session through its states. `/runpomodoro` creates a
session awaiting a round count. A count from 1 to 10 starts work round 1.
The 25-minute work timer moves the session to a 5-minute break. The break
timer advances the round, and either starts the next work round or, past
the last round, deletes the session with "all rounds complete". `/status`
reports the round and the time left in the phase, clamped at zero.
`/stop` deletes the session.

Layout:

- `options.dfy` — `Options.Option`.
- `sessions.dfy` — module `Sessions`. It holds the `Session` record and the
  `Phase` values (`Unset` is the empty phase of a session awaiting input).
  The `SessionStore` class wraps a `map<ChatID, Session>` and updates it in
  place through `Get`, `Set` and `Delete`.
- `atoi.dfy` — module `Atoi`. It models `strconv.Atoi` as an optional sign
  followed by one or more ASCII digits, with anything else an error. This is
  an assumption about Go's library, not a model of its code. `Itoa` renders
  an integer in decimal and is a right inverse of the parse: parsing
  `Itoa(n)` gives back `n`. The converse holds only for canonical text
  (digits without a sign or a leading zero), since "7", "07" and "+7" all
  parse to 7.
- `handler.dfy` — module `Handler`. It holds the constants, the notification
  kinds (`Notice`) and the session invariant `Inv`. Each event is a pure
  transition on the chat's session (`StartRequest`, `RoundInput`,
  `WorkFired`, `BreakFired`, `StatusOf`, `StopRequest`), and `Commit` writes
  its outcome back to the registry. The `Engine` class carries out each
  event step by step through the store, mirroring the Go handlers, and each
  of its methods is proved to leave exactly the state its transition gives.
- `lifecycle.dfy` — module `Lifecycle`. Lemmas about whole runs: start,
  input, then rounds of timer firings.

Modelling decisions:

- A timer is the `TimerArmed` flag of its session (the Go `Timer` field is
  non-nil). A timer firing is an explicit event (`FireWork`, `FireBreak`)
  carrying the time `now`. A firing is a no-op unless the session has that
  kind of timer armed. Cancelling the timer on `/stop` amounts to deleting
  the record that holds the flag.
- Time is an integer number of nanoseconds, the unit of Go's
  `time.Duration`. `time.Now()` and `time.Since` are replaced by the `now`
  parameter of each event.
- Sessions are values, not pointers. The Go break callback increments the
  record it captured, and that record is the same object as the store's
  entry. The model therefore writes the incremented record back to the
  store before deleting it or starting the next work round.
- Message texts are abstract `Notice` values. A handler returns the
  sequence of notices it sends, in order.
- Awaiting input is not a `Phase` value in the code: the record keeps a
  separate `AwaitingInput` flag and leaves `Phase` at its zero value, so
  `/status` on such a session reports `UnknownPhase` (bot/handler.go:153-161).

## Model

| member | source | states |
|---|---|---|
| `Sessions.SessionStore.constructor` | bot/session.go:29-31 | The registry starts empty |
| `Sessions.SessionStore.Get` | bot/session.go:33-38 | Reports presence exactly when the chat has an entry, and then returns that entry; it has no modifies clause, so it never changes the map |
| `Sessions.SessionStore.Set` | bot/session.go:40-44 | The map afterwards is the old map with this chat's entry inserted or replaced; a `Get` then returns the new entry and every other chat reads as before |
| `Sessions.SessionStore.Delete` | bot/session.go:46-50 | The chat's entry is gone; deleting an absent chat leaves the map unchanged; every other chat reads as before |
| `Sessions.GetAfterSet` | bot/session.go:40-44 | After `Set(id, s)`, looking up `id` yields `s` |
| `Sessions.SetTwice` | bot/session.go:43 | Last writer wins: a second `Set` on the same chat replaces the first entirely |
| `Sessions.DeleteTwice` | bot/session.go:49 | After `Delete`, the chat reads as absent, and a second `Delete` is a no-op |
| `Atoi.Atoi` | bot/handler.go:85 | The parse succeeds exactly on an optional sign followed by at least one digit; the value is the digits' value, negated when the text starts with '-' |
| `Atoi.AtoiOfItoa` | bot/handler.go:85 | Round trip: every integer rendered in decimal parses back to itself |
| `Atoi.DigitsOfDigitsValue` | bot/handler.go:85 | Canonical digit text (no leading zero) is exactly the rendering of its parsed value |
| `Handler.Fresh` | bot/handler.go:57 | The session `/runpomodoro` stores awaits input, has no timer and no phase |
| `Handler.Commit` | bot/handler.go:97 | Writing an event's outcome back sets or deletes only this chat's entry, leaves every other chat's entry as it was, and keeps the registry invariant when the outcome satisfies it |
| `Handler.CommitLookup` | bot/handler.go:80-83 | Writing back the entry that was read leaves the registry unchanged, so an ignored or refused event changes nothing |
| `Handler.RoundCount` | bot/handler.go:85-89 | Accepted exactly when the text parses and the value lies in [1,10]; an accepted count is the parsed value |
| `Handler.RoundCountAccepts` | bot/handler.go:85-89 | Every count from 1 to 10, written in decimal, is accepted as itself |
| `Handler.RoundCountExamples` | bot/handler.go:85-89 | "0", "11", "-3", "abc", "", "+" and " 5" are refused; "07", "+3" and "10" are accepted |
| `Handler.EnterWork` | bot/handler.go:102-119 | Entering work sets phase work, start time now and an armed timer, and keeps the rounds |
| `Handler.EnterBreak` | bot/handler.go:121-129 | Entering a break sets phase break, start time now and an armed timer, and keeps the rounds |
| `Handler.StartRequest` | bot/handler.go:51-58 | A session with an armed timer is left as it is, with the duplicate notice; otherwise a fresh awaiting-input session replaces whatever was there; a session exists afterwards and the invariant is kept |
| `Handler.RoundInput` | bot/handler.go:79-100 | Ignored (nothing changed, nothing sent) with no session or a session not awaiting input; a refused count sends the validation notice and leaves the session unchanged; a valid count n gives work round 1 of n, started now, timer armed, no longer awaiting input, announced as round 1; the invariant is kept |
| `Handler.WorkFired` | bot/handler.go:113-116 | Only a pending work timer fires; it sends "break time" and moves to a break started now with a timer armed and the rounds unchanged; the invariant is kept |
| `Handler.BreakFired` | bot/handler.go:130-141 | Only a pending break timer fires; the round advances; past the total the session is removed with "all rounds complete", otherwise it is back in work at the new round with a timer armed, announced twice; the invariant is kept |
| `Handler.Remaining` | bot/handler.go:164-167 | The time left is never negative: it is the duration minus the elapsed time while that is non-negative, and zero after |
| `Handler.RemainingDecreases` | bot/handler.go:164-167 | The time left never grows as time passes and never exceeds the phase length once the phase has begun |
| `Handler.StatusOf` | bot/handler.go:146-174 | No session: "no active session"; a session with no phase: "unknown phase"; otherwise its round, total and phase with a non-negative time left computed from the phase's duration, and with the invariant 1 <= round <= total <= 10 |
| `Handler.StopRequest` | bot/handler.go:176-188 | No session survives a stop; it reports "stopped" when there was a session (with or without a timer) and "no active session" otherwise |
| `Handler.StopTwice` | bot/handler.go:176-181 | A second stop reports "no active session" |
| `Handler.Engine.constructor` | bot/session.go:29-31 | The engine works over the given registry and starts valid |
| `Handler.Engine.HandleCommand` | bot/handler.go:34-77 | "runpomodoro", "stop" and "status" act as their handlers; "start", "help", "music" and unknown commands send their static reply and change nothing |
| `Handler.Engine.RunPomodoro` | bot/handler.go:51-58 | The registry afterwards is the old one with `StartRequest`'s outcome written back; with an armed timer present nothing changes and the duplicate notice is sent; the invariant is kept |
| `Handler.Engine.UserInput` | bot/handler.go:79-100 | The registry afterwards is the old one with `RoundInput`'s outcome written back; ignored input and refused counts leave it unchanged; the invariant is kept |
| `Handler.Engine.StartWorkRound` | bot/handler.go:102-119 | With a session present, it is stored in the work phase as `EnterWork` gives and its round is announced; otherwise nothing changes |
| `Handler.Engine.StartBreak` | bot/handler.go:121-144 | With a session present, it is stored in the break phase as `EnterBreak` gives; otherwise nothing changes |
| `Handler.Engine.FireWork` | bot/handler.go:113-116 | The registry afterwards is the old one with `WorkFired`'s outcome written back; the invariant is kept |
| `Handler.Engine.FireBreak` | bot/handler.go:130-141 | The registry afterwards is the old one with `BreakFired`'s outcome written back; the invariant is kept |
| `Handler.Engine.Status` | bot/handler.go:146-174 | Reports exactly `StatusOf` for the chat's stored session, with a non-negative time left, and changes nothing |
| `Handler.Engine.Stop` | bot/handler.go:176-188 | The registry afterwards is the old one with `StopRequest`'s outcome written back: the chat has no session; the invariant is kept |
| `Lifecycle.CyclesAbsent` | bot/handler.go:122-125 | Helper for `CyclesFromWork`: once the session is gone, no timer fires, so further timer rounds change nothing and send nothing |
| `Lifecycle.CyclesFromWork` | bot/handler.go:130-141 | From work at round c of n, the session survives k <= n - c timer rounds (back in work at round c + k, never completing) and is gone after more, with "all rounds complete" sent exactly once |
| `Lifecycle.FullRun` | bot/handler.go:51-144 | Start, then count n, then timer rounds: after k < n rounds the session is in work at round k + 1; after the n-th break firing it is deleted, with "all rounds complete" sent exactly once over the run |
| `Lifecycle.TwoRounds` | bot/handler.go:130-141 | With two rounds, the first break firing leads to work round 2 with a timer armed; the second deletes the session with "all rounds complete" |
| `Lifecycle.InputDuringPhase` | bot/handler.go:80-83 | Input during a work or break phase is ignored: session and timer unchanged, nothing sent |
| `Lifecycle.OtherChatsUntouched` | bot/session.go:43-49 | Every event on one chat leaves every other chat's session as it was |

## Left out

- Transport: `HandleUpdate`, `send` and `sendHTML`, the Telegram `Update` and `Message` types, and all message texts. Notifications are the abstract `Notice` values; a delivery failure (only logged in the source) has no effect on state.
- main.go: token loading, client construction and the update-polling loop are I/O plumbing.
- Concurrency: the store's `sync.Mutex` and the real `time.AfterFunc` and `Timer.Stop` scheduling. Every event runs to completion before the next one. The races between `/stop` and a timer callback are therefore not modelled, including the break callback touching its captured record after a possible deletion.
- Rounding of the remaining time to whole seconds for display, at bot/handler.go:171.
- Atoi.Atoi: the int64 range (Go's out-of-range error) is not modelled. Every such input also fails the [1,10] check, so the handlers behave the same either way.
- Width of integers: chat IDs, rounds and time stamps are unbounded; int64 overflow of `time.Duration` arithmetic (beyond about 292 years) is not modelled.
