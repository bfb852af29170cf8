# A verified model of the termnix session and terminal

The project models the two cores of the repository and the small parsers between
them, and proves what they promise for every input, every kernel and every run.

**The session** (`Session.dfy`, `SessionSpec.dfy`, `SessionLaws.dfy`,
`SessionRuns.dfy`, `SessionTraffic.dfy`, `SessionPolls.dfy`, `SessionFairness.dfy`,
`SessionErrors.dfy`, `SessionStatus.dfy`, `SessionIdle.dfy`, `SessionBudget.dfy`,
`Streams.dfy`, `Lifecycle.dfy`, `LifecycleLaws.dfy`, `Pty.dfy`). The class `Session`
has the buffers, offsets, reply range, flags, counters and phase of the original and
updates them in place. Each method is proved to do what an abstract machine does
whose write queue is a list of tagged bytes. The kernel is an adversary: each read
or write may return any short count, nothing, would-block, interrupted, EIO or
another error. The emulator is any function from the number of the decoded byte to a
reply. A history of accepted, written, dropped, received and fed bytes and of the
system calls made is carried along as ghost state; no operation reads it, and the
laws tie it to what a caller offered, what the kernel answered and what the calls
returned. They hold of every run of enqueues, pumps, waits, signals and closes. When
a pump may use its budget up for nothing more to do is settled on a drawing of the
session in counts alone (`SessionPhases.dfy`, `SessionSketch.dfy`,
`SessionCosts.dfy`, `SessionEndings.dfy`, `SessionStaging.dfy`,
`SessionWitness.dfy`, `SessionExhaustion.dfy`).

**The terminal** (`TerminalTypes.dfy`, `Grid.dfy`, `ScreenSpec.dfy`, `Screen.dfy`,
`Scrollback.dfy`, `TermSpec.dfy`, `Events.dfy`, `Terminal.dfy`). The class `Screen`
holds one flat cell array and changes it by rotates, fills and index loops; it is
proved against operations on a list of rows. The class `TerminalState` drives two
such screens, a history, an event queue and a reply buffer, and is proved against
the value `Term`. What each control sequence does to every cell and field is stated
by the bytes a program sends, in `MotionLaws.dfy`, `CellLaws.dfy`, `LineLaws.dfy`,
`ModeLaws.dfy`, `HostLaws.dfy` and, for resizes and trims, `ResizeLaws.dfy`. The
other laws are in `GridLaws.dfy`, `EditLaws.dfy`, `PairLaws.dfy`, `WholeRuns.dfy`,
`TermLaws.dfy`, `MarkLaws.dfy`, `ChunkLaws.dfy`, `AlternateLaws.dfy` and
`RefTerm.dfy`, the last of which proves that the emulator refines the row-list
reference the repository keeps in `tests/terminal_state.rs`.

**The parsers** (`Base64.dfy`, `Sgr.dfy`, `Colors.dfy`, `Digits.dfy`): the OSC 52
payload decoder against RFC 4648 section 4, the SGR loop of ECMA-48 section 8.3.117,
and the color printer against the color parser.

**The two cores together** (`SessionTerminal.dfy`, `TerminalExhaustion.dfy`). The
cursor bounds proved of the terminal limit every reply to 14 bytes, and so bound the
unsent reply bytes of every session run.

Every operation of the terminal keeps the predicate `WF`: both buffers have exactly
rows times columns cells, the cursor is inside, the region is ordered and inside, no
wide lead is in the last column, and the history's cell counter is right. Because it
is a precondition and a postcondition throughout, no index, slice or `expect` fails.

## What the proofs found

The model follows the code where the documentation says otherwise.

- `src/session.rs:205-210` says an exhausted budget leaves another pump needed. It
  need not: on a new session three bytes and two calls are used up by one byte read
  and a read that blocks (`SessionExhaustion.NewSessionMayBeIdle`).
  `TerminalExhaustion.PromiseHoldsExactly` says for which budgets it holds against
  every kernel and every terminal, in every reachable state. The conditions are in
  `SessionEndings.dfy`; on a new session, for one, the bytes must not exceed the calls
  or twice the calls less 15, whichever is more, and there must be two calls. The default
  budget keeps the promise only with a read buffer all but full
  (`TerminalExhaustion.DefaultKeepsPromiseExactly`). For an empty budget
  `SessionBudget.ZeroBudgetOnlyCounts` has the condition.
- `src/session.rs:1084-1090` lets decoding resume once a reply is written though input
  waits behind it, but a write that fails returns before that. The session then polls
  for writing alone with no reply waiting, until a pump with a budget reports no error:
  `SessionPolls.LeftPaused`, `SessionPolls.ReadableUnlessAReplyWaits`,
  `SessionPolls.ReadableAgain`, and exactly when in
  `SessionPolls.PauseOutlivesReplyExactly`.
- `src/terminal.rs:601-602` says a resize clamps the scroll region. It resets it:
  `ResizeLaws.RegionClampedExactly`.
- A clipboard text sent base64-encoded is taken for an append if its first byte is 248
  to 251, which encodes to a plus: `HostLaws.StoredExactly`. No UTF-8 text has one.
- `src/terminal.rs:432-436` says polling only the primary screen never misses a
  visible change. A write to the alternate screen that restores the pen, cursor and
  modes is missed: `TermLaws.UpdatesReportedExactly`.
- `src/terminal.rs:17` and `src/terminal_emu.rs:511-515` say `CSI ? c` is answered.
  It is not: `TermLaws.DeviceAttributesAnswered`.
- ICH, DCH and insert mode can halve a wide glyph. `PairLaws.InsertSplitsExactly`,
  `PairLaws.DeleteSplitsExactly` and `PairLaws.InsertModeSplitsExactly` say exactly
  when, `WholeRuns.RunWholeExactly` over whole runs, and `PairLaws.HalvedFromNew`
  shows all three from a new terminal.
- In origin mode a cursor position is asked for relative to the region and reported
  relative to the screen. `TermLaws.ReportedAsAskedExactly` says when the two agree.
- Entering the alternate screen with mode 1049 resets the scroll region, and leaving
  does not restore it: `AlternateLaws.VisitKeepsRegionExactly`.
- The base64 decoder accepts tails with stray bits: `Base64.EncodeDecode`.
- A closed session can still become spent if and only if its child had not been
  reaped before the close: `SessionRuns.ClosedCanBeSpentExactly`.

## Model

| member | source | states |
|---|---|---|
| `SessionRuns.BytesLeaveInOrder` | src/session.rs:607-619 | after every run, against any kernel and emulator, what was accepted is the bytes on the wire followed by the unsent queue, with the dropped bytes put back in their places: both keep the order of acceptance; behind the last drop nothing is missing, and without a drop wire and queue are exactly what was accepted |
| `SessionRuns.BytesAreConserved` | src/session.rs:1036-1059 | after every run, input enqueued is input written plus input waiting plus input dropped, the same for replies, and both written totals count exactly the bytes on the wire, also when one write straddles input and reply or compaction moves the reply range |
| `SessionRuns.OutputReachesTheEmulator` | src/session.rs:1095-1193 | after every run, bytes were fed in the order read, on a session not closed what is buffered is what is left, nothing was read while undecoded bytes remained, the buffer holds at most 65536 bytes, and at every read-side EOF everything read has been fed, whatever is dropped later; EOF without a drop is a read-side EOF |
| `SessionRuns.NeverDeadlocked` | src/session.rs:447-463 | in every reachable state a live session has a poll interest, a paused one has bytes to write, and one with unfinished work polls for writing or needs a pump |
| `SessionRuns.OneReplyWaits` | src/session.rs:1196-1227 | unsent reply bytes never exceed the longest single reply, after every run |
| `SessionRuns.ChildIsReapedOnce` | src/session.rs:733-785 | over every run no system call on the child follows its reap, every status returned is the same one, and a cached status means a reap happened |
| `SessionRuns.PhasesAgree` | src/session.rs:926-940 | in every reachable state a spent session has a status and ended by EOF or close, EOF with a status is always spent, a live session has seen no EOF, and a closing one holds no bytes |
| `SessionRuns.SpentIsFinal` | src/session.rs:926-940 | no call in any order leaves the spent phase, changes its status, writes a byte or feeds a byte |
| `SessionRuns.ClosingAReapedSessionLasts` | src/session.rs:733-736 | closing a session whose child was already reaped stays in the closing phase under every later call, because the cached status is returned first |
| `SessionRuns.ClosedCanBeSpentExactly` | src/session.rs:661-785 | some calls after a close make the session spent if and only if its child had not been reaped before the close |
| `SessionRuns.ShutdownIsSafe` | src/session.rs:901-924 | from every reachable state shutting down makes no system call after a reap, and success implies a reap |
| `SessionRuns.CallsAreLawful` | src/session.rs:733-785 | each lifecycle call makes at most one system call, none on a reaped child, and never replaces a held status |
| `SessionRuns.RunKeeps` | src/session.rs:516-564 | every run from a state that satisfies the session invariant ends in one, also across error returns |
| `SessionRuns.StepKeeps` | src/session.rs:516-564 | every single call keeps the session invariant |
| `SessionRuns.StartHolds` | src/session.rs:366-386 | a new session satisfies the invariant |
| `SessionRuns.EnqueueKeeps` | src/session.rs:607-619 | accepting input keeps the invariant |
| `SessionRuns.CloseKeeps` | src/session.rs:661-678 | a logical close keeps the invariant |
| `SessionRuns.WaitSessionKeeps` | src/session.rs:764-785 | a blocking wait keeps the invariant whatever the system answers |
| `SessionRuns.TryWaitSessionKeeps` | src/session.rs:733-757 | a non-blocking wait keeps the invariant whatever the system answers |
| `SessionRuns.SignalKeeps` | src/session.rs:866-892 | sending a signal keeps the invariant |
| `SessionLaws.PumpKeeps` | src/session.rs:516-564 | one pump keeps the whole invariant for any budget and any answers, also when it reports an error |
| `SessionLaws.PumpSteps` | src/session.rs:516-564 | any property kept by each single step of a pump is kept by the pump |
| `SessionLaws.WriteSteps` | src/session.rs:1011-1092 | the write phase is made of single steps |
| `SessionLaws.ReadSteps` | src/session.rs:1095-1171 | the read phase is made of single steps, and each read starts with nothing left to decode |
| `SessionLaws.DecodeSteps` | src/session.rs:1174-1193 | decoding is made of single steps and stops only when paused, empty or out of budget |
| `SessionLaws.EverythingMerges` | src/session.rs:607-619 | what was accepted is the wire and queue merged with what was dropped, each in its own order |
| `SessionLaws.AcceptStreams` | src/session.rs:607-619 | accepting bytes keeps the order, across and behind drops |
| `SessionLaws.DiscardStreams` | src/session.rs:1068-1080 | dropping the queue, which happens at a hangup and a close, keeps what left before it and what was dropped in order |
| `SessionLaws.SendKeeps` | src/session.rs:1031-1061 | writing any number of bytes, with or without compaction, keeps order, accounts and the pause |
| `SessionLaws.DecodeByteKeeps` | src/session.rs:1207-1227 | feeding one byte keeps the invariant: its reply joins behind everything accepted before and pauses decoding |
| `SessionLaws.ReceiveKeeps` | src/session.rs:1130-1139 | reading into a decoded buffer keeps order and the size limit |
| `SessionLaws.HangupKeeps` | src/session.rs:1068-1080 | a write-side EIO keeps the invariant while retiring the queue |
| `SessionLaws.ReadEofKeeps` | src/session.rs:1128-1163 | a read-side EOF comes when everything read has been fed, and keeps the invariant |
| `SessionBudget.PumpSpendsWhatItMoves` | src/session.rs:154-170 | bytes read, decoded and written equal the drop in the byte budget and system calls the drop in the call budget, so no subtraction saturates |
| `SessionBudget.NeededPumpActs` | src/session.rs:475-486 | whenever a pump is needed and has a budget, it makes a system call or decodes a byte |
| `SessionBudget.ZeroBudgetOnlyCounts` | src/session.rs:122-127 | a pump without a budget changes nothing but its counters and the two flags, and another is needed exactly when work is left |
| `SessionBudget.WritePays` | src/session.rs:1011-1092 | the write phase charges exactly what it writes and makes a call whenever it may |
| `SessionBudget.ReadPays` | src/session.rs:1095-1171 | the read phase charges exactly what it reads and decodes and makes a call whenever it may |
| `SessionBudget.DecodePays` | src/session.rs:1174-1193 | decoding charges one byte for each byte fed |
| `TerminalExhaustion.PromiseHoldsExactly` | src/session.rs:205-210 | that an exhausted pump leaves another needed, for all kernels and terminals, holds in every reachable state for exactly the budgets that the closed condition for its kind of state does not name; there are eight kinds, and no state is left out |
| `TerminalExhaustion.NeedsAnotherExactly` | src/session.rs:205-210 | the same of any state that keeps the phase and pause invariants |
| `TerminalExhaustion.DefaultKeepsPromiseExactly` | src/session.rs:172-181 | on a live session with nothing queued the default budget keeps the promise if and only if at least 65423 of 65536 bytes of the read buffer are still to be decoded |
| `TerminalExhaustion.AskedReplies` | src/terminal_emu.rs:738-765 | for every length a reply can have there is a terminal that makes a reply of that length to one chosen byte and none to any other |
| `SessionExhaustion.ExhaustedNeedsPumpExactly` | src/session.rs:205-210 | the same for emulators whose replies are empty or between any two given lengths: in every reachable state for exactly the budgets the condition does not name |
| `SessionExhaustion.CertainExactly` | src/session.rs:205-210 | the same of any state that keeps the phase and pause invariants |
| `SessionExhaustion.LiveEmptyExactly` | src/session.rs:205-210 | on a live session with nothing queued, replies at most m bytes, n calls: with nothing to decode if and only if there is a second call and the bytes do not exceed the larger of n and 2n - m - 1; with i bytes to decode if and only if they do not exceed n, or i + 2n - m - 1 when n is more than m |
| `SessionExhaustion.LiveWritingExactly` | src/session.rs:205-210 | on a live session with input queued that writes first and no reply waiting, if and only if one call meets bytes to decode and an unreaped child, or three calls or more meet a budget of one byte with nothing to decode, or of the bytes to decode and a queue of one byte |
| `SessionExhaustion.EofReadingExactly` | src/session.rs:205-210 | after EOF with input to decode first, if and only if no reply can make the write outlast the calls or the bytes, and what is left, with a reply or without, is not the budget |
| `SessionExhaustion.EofWritingExactly` | src/session.rs:205-210 | after EOF with nothing to decode, if and only if the budget in bytes is not exactly the queue and has more calls than bytes it can write |
| `SessionExhaustion.NewSessionMayBeIdle` | src/session.rs:205-210 | a new session given three bytes and two calls uses them up on one byte read, which draws no reply, and a read that blocks, and needs no pump |
| `SessionExhaustion.DefaultMayBeIdle` | src/session.rs:172-181 | on no live session without a waiting reply, whatever is queued, and with fewer than 65409 bytes to decode does the default budget make another pump certain |
| `SessionPhases.PumpIsPhases` | src/session.rs:525-556 | the loop of two turns is a phase in the first direction with work and then, if budget and work remain, one in the other |
| `SessionPhases.OneCallDecides` | src/session.rs:205-210 | with one call on a live session with nothing queued and nothing to decode, another pump is needed if and only if the read neither blocked nor ended the stream |
| `SessionSketch.PumpDraws` | src/session.rs:516-564 | a pump drawn with counts alone ends with the budget, the error and the need for another of the pump it draws, for every kernel and emulator |
| `SessionEndings.OnlyThen` | src/session.rs:205-210 | no kernel and no emulator with replies of the given lengths ends a pump idle and exhausted on a budget the condition does not name |
| `SessionCosts.ReadCosts` | src/session.rs:1095-1171 | what reading costs a live session and how it can end: dry, at two bytes of budget for every byte read, or with a reply |
| `SessionCosts.WriteCosts` | src/session.rs:1011-1092 | what writing costs and how it can end: bytes leave the front, at least one a call but for a last one that blocks or finds the other end gone |
| `SessionIdle.IdleIsBlocked` | src/session.rs:475-486 | whenever no pump is needed, the kernel answered would-block to the last call the latest pump made in every direction polled for, and no input was accepted since a blocked write; a live session or one with work left polls for some direction |
| `SessionIdle.RunRecords` | src/session.rs:1061-1066 | over every run a would-block flag is only up while the last call of its direction in the latest pump was answered with would-block and, for writing, nothing was accepted since |
| `SessionIdle.PumpRecords` | src/session.rs:516-564 | so it is after a pump, whatever was flagged before |
| `SessionTerminal.UnsentRepliesAreBounded` | src/session.rs:78-89 | for every output of the child, resizes and trims, and every kernel, at most 14 reply bytes wait in the write queue after every run |
| `SessionTerminal.RepliesAreShort` | src/session.rs:78-89 | whatever the terminal has been fed, the reply one byte produces is empty or has four to fourteen bytes |
| `SessionTerminal.OneReplyPerByte` | src/terminal_emu.rs:738-765 | a list of actions with at most one control sequence queues nothing or between four and fourteen reply bytes |
| `SessionPump.PendingReplyCounts` | src/session.rs:1266-1271 | the range arithmetic gives exactly the number of unsent bytes that belong to the reply |
| `SessionPump.ReplyWritten` | src/session.rs:1036-1058 | the difference of two pending lengths is exactly the reply bytes among the bytes written |
| `SessionPump.Start` | src/session.rs:366-386 | a session that cannot be made non-blocking kills and reaps its child and reports the error; otherwise it is the initial abstract state |
| `SessionPump.Session.constructor` | src/session.rs:366-386 | a new session is the initial abstract state |
| `SessionPump.Session.HasDirectionWork` | src/session.rs:998-1007 | whether a direction has work, as the abstract queue and inbox say |
| `SessionPump.Session.CurrentInterests` | src/session.rs:447-463 | reading is polled for on a live session that is not paused, writing on one that is not over and has bytes queued |
| `SessionPump.Session.NeedsPump` | src/session.rs:475-486 | whether the abstract state needs a pump |
| `SessionPump.Session.NoteExit` | src/session.rs:926-932 | a reaped status is cached, and ends a session that has seen EOF |
| `SessionPump.Session.NoteEof` | src/session.rs:935-940 | EOF is recorded, and ends a session whose child was reaped |
| `SessionPump.Session.NoteReadEof` | src/session.rs:1128-1163 | the same, seen by a read |
| `SessionPump.Session.CompactOutbound` | src/session.rs:963-983 | dropping the written prefix and moving the reply range leaves the tagged queue as it was and clears only a finished reply |
| `SessionPump.Session.CompactReadBuffer` | src/session.rs:986-995 | dropping the decoded prefix changes nothing observable |
| `SessionPump.Session.AdvanceWrite` | src/session.rs:1036-1057 | written bytes leave the front of the tagged queue and are counted by kind |
| `SessionPump.Session.SettleReply` | src/session.rs:1084-1090 | a finished reply stops pausing decoding |
| `SessionPump.Session.DiscardQueue` | src/session.rs:1076-1078 | the whole queue is dropped and nothing pauses |
| `SessionPump.Session.WriteSyscall` | src/session.rs:1028-1034 | one write is issued, counted and remembered |
| `SessionPump.Session.NoteWriteBlocked` | src/session.rs:1061-1066 | a blocked write is counted and flagged |
| `SessionPump.Session.NoteReadBlocked` | src/session.rs:1145-1151 | a blocked read is counted and flagged |
| `SessionPump.Session.WriteOnce` | src/session.rs:1013-1082 | one write system call does what its answer says: progress, a blocked flag, a stop, a hangup or an error |
| `SessionPump.Session.WritePhase` | src/session.rs:1011-1092 | the loop over buffer, offset and range is the abstract write phase |
| `SessionPump.Session.QueueReply` | src/session.rs:1216-1226 | a reply joins the end of the queue and pauses decoding |
| `SessionPump.Session.TakeByte` | src/session.rs:1182-1187 | the first buffered byte is taken and counted |
| `SessionPump.Session.DecodeByte` | src/session.rs:1180-1189 | one buffered byte is fed and its reply queued |
| `SessionPump.Session.DecodeBuffered` | src/session.rs:1174-1193 | the loop decodes what the abstract machine decodes and counts it |
| `SessionPump.Session.ReadBytes` | src/session.rs:1131-1135 | read bytes join the end of the inbox |
| `SessionPump.Session.CountReadSyscall` | src/session.rs:1123-1126 | a read is counted and remembered, with what waits to be decoded when it is issued |
| `SessionPump.Session.ReadSyscall` | src/session.rs:1117-1126 | a read is issued into an empty buffer |
| `SessionPump.Session.ReadOnce` | src/session.rs:1103-1168 | one read system call does what its answer says, decoding what it brought |
| `SessionPump.Session.ReadPhase` | src/session.rs:1095-1171 | the loop over buffer and offset is the abstract read phase |
| `SessionPump.Session.RunTurn` | src/session.rs:526-556 | one iteration picks a direction that has work, runs its phase and decides where to go on |
| `SessionPump.Session.RunTurns` | src/session.rs:525-556 | the loop of at most two turns |
| `SessionPump.Session.StartPump` | src/session.rs:520-522 | a pump is counted and both flags are lowered |
| `SessionPump.Session.FinishPump` | src/session.rs:557-563 | the direction is kept for the next pump and an exhausted budget counted |
| `SessionPump.Session.PumpIo` | src/session.rs:516-564 | one pump over buffers and offsets is one pump of the abstract machine, with its error and what is left of the budget |
| `SessionPump.Session.AppendInput` | src/session.rs:611-613 | input joins the end of the queue |
| `SessionPump.Session.CountInput` | src/session.rs:614-617 | input is counted and lowers the write flag |
| `SessionPump.Session.EnqueueInput` | src/session.rs:607-619 | every byte of the input joins the end of the queue in order, or a session that is over reports a broken pipe and is left alone |
| `SessionPump.Session.Close` | src/session.rs:661-678 | both buffers are discarded and the child moves to its closing state |
| `SessionPump.Session.Terminate` | src/session.rs:866-892 | a signal is sent through whatever child handle the session holds |
| `SessionPump.Session.TryWait` | src/session.rs:733-757 | the cached status, the answer of a live wait, or what a poll and a reap make of a closed child, with the state each leaves |
| `SessionPump.Session.ReturnStatus` | src/session.rs:734-736 | a cached status is returned and nothing else happens |
| `SessionPump.Session.EndReaped` | src/session.rs:748-753 | a reaped status is cached and the session is spent |
| `SessionPump.Session.TryWaitClosing` | src/session.rs:747-753 | a closing child is polled, and reaped once it has exited |
| `SessionPump.Session.Wait` | src/session.rs:764-785 | the cached status, a live wait, or a reap |
| `SessionPump.Session.Shutdown` | src/session.rs:901-924 | the child is killed and reaped unless it already was |
| `Pty.PtyProcess.constructor` | src/pty.rs:60-90 | a spawned child has not been reaped |
| `Pty.PtyProcess.TryWait` | src/pty.rs:114-125 | the cached status or one non-blocking wait, whose status is cached |
| `Pty.PtyProcess.Wait` | src/pty.rs:131-138 | the cached status or one wait, whose status is cached |
| `Pty.PtyProcess.SignalGroup` | src/pty.rs:145-164 | no kill after a reap; a missing group is not an error |
| `Pty.PtyProcess.IntoClosing` | src/pty.rs:172-195 | a new owner of the child that starts reaped exactly when the child was |
| `Pty.ClosingPtyProcess.constructor` | src/pty.rs:290-308 | a closing child starts in the given state |
| `Pty.ClosingPtyProcess.PollExit` | src/pty.rs:317-354 | an exit is observed without reaping and remembered; a lost child and a malformed answer are remembered too |
| `Pty.ClosingPtyProcess.WaitAndReap` | src/pty.rs:362-427 | one reap at most; a contradicting status is cached but reported as malformed, a lost child is remembered |
| `Pty.ClosingPtyProcess.SignalGroup` | src/pty.rs:440-461 | a signal is attempted only while the child is owned and unreaped |
| `RefTerm.Refines` | tests/terminal_state.rs:46-153 | for every size and every list of narrow and wide glyphs, CR and LF fed to a new terminal, cells, widths, cursor, pending wrap and history equal those of the row-list reference |
| `RefTerm.MatchRun` | tests/terminal_state.rs:146-153 | the same from any matching pair of states |
| `RefTerm.MatchPrint` | tests/terminal_state.rs:113-144 | printing one glyph keeps the match, with wrapping, scrolling and wide glyphs at the edge |
| `RefTerm.MatchLineFeed` | tests/terminal_state.rs:93-111 | a line feed keeps the match, and a scrolled row is retained exactly when the reference retains it |
| `AlternateLaws.VisitKeepsThePrimary` | src/terminal_emu.rs:719-736 | a visit to the alternate screen by any of the three modes, doing anything there but leave, save the cursor, reset or erase history, gives the primary screen, history, pen, pending wrap and origin mode back, and the cursor, in origin mode clamped to the region the program leaves and in either mode off a trailing half; the scroll region is not given back |
| `AlternateLaws.VisitKeepsRegionExactly` | src/terminal_emu.rs:719-736 | entering with 1049 resets the scroll region and leaving does not restore it: an empty visit keeps the region if and only if it was entered another way or the region was the whole screen |
| `AlternateLaws.BesideAll` | src/terminal_emu.rs:427-520 | on the alternate screen no list of such actions touches the primary screen, the history or the saved cursor |
| `TermLaws.ScrollKeepsText` | src/terminal.rs:693-722 | a full-screen scroll of any count leaves the non-blank rows of history and screen unchanged, cell for cell and in order |
| `TermLaws.LineFeedKeepsText` | src/terminal_emu.rs:336-343 | so does a line feed, wherever the cursor is |
| `TermLaws.ResizeKeepsText` | src/terminal.rs:633-722 | so does any change of height alone, on the primary screen |
| `TermLaws.ResizeKeepsCursorRow` | src/terminal.rs:645-662 | a cursor on a row that survives a change of height stays on that row, moving at most off a trailing half |
| `WholeRuns.RunWholeExactly` | src/terminal_buffer.rs:72-263 | over every run of feeds, resizes and trims from a whole terminal, ICH, DCH and insert mode included, glyphs are whole after every call and every action if and only if each action that could halve one meets its condition when it comes |
| `WholeRuns.ActionWholeExactly` | src/terminal_emu.rs:17-116 | any action leaves every glyph on both screens whole if and only if it meets its condition |
| `TermLaws.RunKeepsGlyphsWhole` | src/terminal_buffer.rs:72-230 | from a whole state no run without ICH, DCH or insert mode halves a wide glyph on either screen |
| `TermLaws.NewIsPlain` | src/terminal.rs:320-350 | a new terminal is whole |
| `TermLaws.RunLeavesNoDirt` | src/terminal.rs:424-441 | between calls the primary screen is never left marked |
| `TermLaws.BatchUpdateIsSeen` | src/terminal.rs:424-441 | if one batched feed raises an update, feeding the same actions one at a time raises it too |
| `TermLaws.QuietEach` | src/terminal.rs:424-441 | actions fed one at a time without an update leave the state one batched feed leaves |
| `TermLaws.UpdatesReportedExactly` | src/terminal.rs:432-441 | a feed without an update has changed no visible cell for every list of actions if and only if the primary screen is shown |
| `TermLaws.CursorReportReads` | src/terminal_emu.rs:747-752 | a cursor report is the escape, two decimal numbers and a final letter, and the numbers read back as the one-based position |
| `TermLaws.ReplyLimitReached` | src/session.rs:78-89 | the 14-byte limit is reached in the far corner of the largest grid |
| `TermLaws.ReportedWhereMoved` | src/terminal_emu.rs:563-577 | in either origin mode a program that moves the cursor and asks for its position reads the row of the screen it moved to, counted from the region in origin mode with a sixteen-bit sum, and the column clamped to the screen |
| `TermLaws.ReportedAsAskedExactly` | src/terminal_emu.rs:738-752 | the report is the requested position clamped to the addressable rows if and only if origin mode is off, the region starts at the top, or the sum wraps in a region that ends at twice its top: the report is of the screen, the request of the region |
| `TermLaws.DeviceAttributesAnswered` | src/terminal_emu.rs:511-515 | a primary device attributes query is answered if and only if it carries no marker; one with a question mark changes nothing |
| `ChunkLaws.ByteChunkingIsInvisible` | src/terminal.rs:734-742 | for every tokenizer that keeps its state between bytes, cutting output into feeds at any byte, also inside a control sequence or a character, leaves the same tokenizer state, screens, cursor, modes, replies, history and requests as one feed |
| `ChunkLaws.ChunkingIsInvisible` | src/terminal.rs:424-441 | the same of a list of actions cut into feeds |
| `MarkLaws.SameApply` | src/terminal_emu.rs:17-116 | no action reads the dirty marks or the merged update flag |
| `EditLaws.EraseDisplayExact` | src/terminal_emu.rs:594-622 | on a screen of whole glyphs ED 0, 1 and 2 blank exactly the cells from the cursor on, up to and with it, or all, in the pen's style, and of the rest at most the broken partner beside the cursor |
| `EditLaws.EraseLineExact` | src/terminal_emu.rs:624-637 | EL does the same within the cursor's row and leaves every other row alone |
| `EditLaws.ScrollingIsConfined` | src/terminal_buffer.rs:265-368 | scrolling either way and inserting or deleting lines never touches a row outside the region |
| `EditLaws.DeleteUndoesInsert` | src/terminal_buffer.rs:265-307 | on a terminal, IL and then as many DL changes nothing but the lines pushed past the bottom of the region, which come back blank in the pen's style: none when the cursor is outside the region, and never more than reach from it to the bottom |
| `EditLaws.InsertUndoesDelete` | src/terminal_buffer.rs:265-307 | on a terminal, DL and then as many IL changes nothing but the lines deleted, which come back blank, with the same clamping |
| `PairLaws.InsertSplitsExactly` | src/terminal_emu.rs:476-482 | on a screen of whole glyphs ICH leaves them whole if and only if the cursor is not on a trailing half |
| `PairLaws.DeleteSplitsExactly` | src/terminal_emu.rs:483-489 | DCH does if and only if the cursor and the end of the deleted cells are both on trailing halves or neither is |
| `PairLaws.InsertModeSplitsExactly` | src/terminal_emu.rs:272-323 | printing in insert mode does unless the glyph goes where the cursor is, without wrapping first, and that is a trailing half |
| `PairLaws.HalvedFromNew` | src/terminal_emu.rs:272-323 | on every new screen of three columns or more there are runs of one feed in which ICH, DCH and insert mode halve a glyph |
| `PairLaws.PutKeepsPairs` | src/terminal_buffer.rs:190-247 | a glyph put into the cells inserted for it leaves a row whole if and only if it was not inserted at a trailing half |
| `GridLaws.EraseExact` | src/terminal_buffer.rs:210-222 | on a whole row an erase sets exactly its range to styled blanks and otherwise blanks at most the broken partner on each side |
| `GridLaws.EraseBlanks` | src/terminal_buffer.rs:210-222 | whatever the row holds, the erased range is blank |
| `GridLaws.InsertKeepsPairs` | src/terminal_buffer.rs:233-247 | inserting cells keeps wide glyphs whole if and only if the insertion point is not a trailing half |
| `GridLaws.DeleteKeepsPairs` | src/terminal_buffer.rs:249-263 | deleting cells keeps wide glyphs whole if and only if both ends are trailing halves or neither is |
| `GridLaws.ResizeText` | src/terminal_buffer.rs:96-147 | what a change of height hands back and keeps holds the same text |
| `GridLaws.ResizeMovesRow` | src/terminal_buffer.rs:119-140 | rows that survive a change of height move up together and are unchanged |
| `GridLaws.ContentMoves` | src/terminal.rs:712-722 | rows that leave at the top and are kept as content lose no text |
| `TermSpec.Apply` | src/terminal_emu.rs:17-116 | any action keeps buffers rectangular, the cursor and region inside, no wide lead at the right edge and the history count right; it marks every write to the primary screen; it queues at most one reply of at most 14 bytes; history only grows or is erased; only ICH, DCH and insert mode can halve a glyph |
| `TermSpec.CursorReport` | src/terminal_emu.rs:747-752 | at most 14 bytes, because both numbers have at most five digits |
| `TermSpec.ResetChildState` | src/terminal_emu.rs:384-425 | a new terminal of the same size but for replies, the link counter and the merged events |
| `TermSpec.NewRegion` | src/terminal_emu.rs:639-652 | whatever is asked, the region stays ordered and inside the screen |
| `TermSpec.Feed` | src/terminal.rs:424-441 | a feed that raises no update while the primary screen was shown changed no cell, cursor, pen, mode, size or pending wrap |
| `TermSpec.Resize` | src/terminal.rs:633-665 | a resize gives both screens the new size and keeps every bound; history only grows, and growth is reported |
| `TermSpec.Run` | src/terminal.rs:633-731 | every sequence of feeds, resizes and trims keeps every bound |
| `TermSpec.PushDisplaced` | src/terminal.rs:712-722 | the cell counter stays the sum of the retained lines |
| `ScreenSpec.Resize` | src/terminal_buffer.rs:96-147 | a resize gives the new rectangle without a wide lead at the edge, keeps glyphs whole, and marks any change |
| `ScreenSpec.PutGlyph` | src/terminal_buffer.rs:190-208 | a glyph write keeps the shape and other glyphs whole, and marks the screen |
| `ScreenSpec.ClearCell` | src/terminal_buffer.rs:165-188 | clearing a cell keeps the shape and glyphs whole |
| `ScreenSpec.EraseCells` | src/terminal_buffer.rs:210-222 | an erase keeps the shape and glyphs whole and marks any change |
| `ScreenSpec.EraseRows` | src/terminal_buffer.rs:224-231 | erasing rows keeps the shape and glyphs whole and marks any change |
| `ScreenSpec.InsertLines` | src/terminal_buffer.rs:265-284 | inserting lines keeps the shape and glyphs whole and marks any change |
| `ScreenSpec.DeleteLines` | src/terminal_buffer.rs:286-307 | deleting lines keeps the shape and glyphs whole and marks any change |
| `ScreenSpec.ScrollUp` | src/terminal_buffer.rs:313-343 | scrolling up keeps the shape and glyphs whole and marks any change |
| `ScreenSpec.ScrollDown` | src/terminal_buffer.rs:345-368 | scrolling down keeps the shape and glyphs whole and marks any change |
| `Grid.ContentHeight` | src/terminal_buffer.rs:153-163 | every row past the content height is blank and the one before it is not |
| `ScreenBuffer.Screen.constructor` | src/terminal_buffer.rs:40-50 | a blank unmarked screen |
| `ScreenBuffer.Screen.TakeDirty` | src/terminal_buffer.rs:52-58 | the mark is read and cleared |
| `ScreenBuffer.Screen.MarkDirty` | src/terminal_buffer.rs:60-62 | the mark is set |
| `ScreenBuffer.Screen.Get` | src/terminal_buffer.rs:64-66 | the cell of the row list, or nothing off the screen |
| `ScreenBuffer.Screen.ClearAll` | src/terminal_buffer.rs:72-75 | every cell becomes a styled blank |
| `ScreenBuffer.Screen.Resize` | src/terminal_buffer.rs:96-147 | the flat buffer of the new size holds the surviving rows refitted, and the displaced rows are handed back with their count |
| `ScreenBuffer.Screen.LastContentRow` | src/terminal_buffer.rs:153-163 | the last row that draws something |
| `ScreenBuffer.Screen.ClearCell` | src/terminal_buffer.rs:165-188 | a cell and the other half of its glyph are blanked |
| `ScreenBuffer.Screen.PutGlyph` | src/terminal_buffer.rs:190-208 | a glyph replaces what it covers, broken halves included |
| `ScreenBuffer.Screen.EraseCells` | src/terminal_buffer.rs:210-222 | the loop over flat indices is the row erase |
| `ScreenBuffer.Screen.EraseRows` | src/terminal_buffer.rs:224-231 | the loop over rows erases exactly those rows |
| `ScreenBuffer.Screen.InsertColumns` | src/terminal_buffer.rs:233-247 | a rotate and a fill on the flat buffer insert cells in one row |
| `ScreenBuffer.Screen.DeleteColumns` | src/terminal_buffer.rs:249-263 | a rotate and a fill on the flat buffer delete cells in one row |
| `ScreenBuffer.Screen.InsertLines` | src/terminal_buffer.rs:265-284 | a rotate and a fill on the flat buffer insert rows in the region |
| `ScreenBuffer.Screen.DeleteLines` | src/terminal_buffer.rs:286-307 | a rotate and a fill on the flat buffer delete rows in the region |
| `ScreenBuffer.Screen.ScrollUp` | src/terminal_buffer.rs:313-343 | the region scrolls and the displaced rows come back oldest first |
| `ScreenBuffer.Screen.ScrollDown` | src/terminal_buffer.rs:345-368 | the region scrolls down |
| `ScreenBuffer.Screen.FixRowEdge` | src/terminal_buffer.rs:370-382 | a wide lead in the last column is blanked |
| `Terminal.TerminalState.constructor` | src/terminal.rs:320-350 | a new terminal of the given size |
| `Terminal.TerminalState.Feed` | src/terminal.rs:424-441 | actions applied in place, then the update decision |
| `Terminal.TerminalState.Resize` | src/terminal.rs:633-665 | both screens, history, region, cursor and events after a resize |
| `Terminal.TerminalState.ResizeScreens` | src/terminal.rs:637-656 | both screens at the new size, what the primary displaced, and the active screen's shift |
| `Terminal.TerminalState.ScrollUpScreen` | src/terminal.rs:693-702 | the active screen scrolls; a full-screen scroll of the primary feeds the history |
| `Terminal.TerminalState.PushDisplaced` | src/terminal.rs:712-722 | displaced rows that draw something join the history |
| `Terminal.TerminalState.RepairCursorCell` | src/terminal.rs:724-731 | the cursor steps off a trailing half |
| `Terminal.TerminalState.TrimScrollback` | src/terminal.rs:583-586 | history and its cell count after a trim |
| `Terminal.TerminalState.AdvanceReplyBytes` | src/terminal.rs:475-477 | consumed reply bytes are gone and the rest is in order |
| `Terminal.TerminalState.DequeueEvent` | src/terminal.rs:393-395 | the next event in the fixed order |
| `Terminal.TerminalState.PrintChar` | src/terminal_emu.rs:272-323 | wrapping, insertion, the glyph and the advance |
| `Terminal.TerminalState.Backspace` | src/terminal_emu.rs:325-328 | one column left, stopping at the first |
| `Terminal.TerminalState.HorizontalTab` | src/terminal_emu.rs:330-334 | the next multiple of eight in sixteen bits, clamped |
| `Terminal.TerminalState.LineFeed` | src/terminal_emu.rs:336-343 | down one row, or a scroll at the bottom of the region |
| `Terminal.TerminalState.CarriageReturn` | src/terminal_emu.rs:345-348 | to the first column |
| `Terminal.TerminalState.ReverseIndex` | src/terminal_emu.rs:350-360 | up one row, or a scroll at the top of the region |
| `Terminal.TerminalState.SaveCursor` | src/terminal_emu.rs:362-369 | position, pen, pending wrap and origin mode are saved |
| `Terminal.TerminalState.RestoreCursor` | src/terminal_emu.rs:371-377 | they are restored, the position clamped and repaired |
| `Terminal.TerminalState.ResetChildState` | src/terminal_emu.rs:384-425 | a hard reset |
| `Terminal.TerminalState.HandleCsi` | src/terminal_emu.rs:427-520 | the dispatch over final bytes and private markers |
| `Terminal.TerminalState.CursorUp` | src/terminal_emu.rs:522-530 | up, stopping at the region in origin mode |
| `Terminal.TerminalState.CursorDown` | src/terminal_emu.rs:532-540 | down, stopping at the region in origin mode |
| `Terminal.TerminalState.CursorForward` | src/terminal_emu.rs:542-549 | right, stopping at the last column |
| `Terminal.TerminalState.CursorBackward` | src/terminal_emu.rs:551-554 | left, stopping at the first column |
| `Terminal.TerminalState.SetCol` | src/terminal_emu.rs:556-561 | an absolute column, clamped |
| `Terminal.TerminalState.SetRow` | src/terminal_emu.rs:563-568 | an absolute row, relative to the region in origin mode, clamped |
| `Terminal.TerminalState.SetPosition` | src/terminal_emu.rs:570-577 | an absolute position, clamped |
| `Terminal.TerminalState.EraseDisplay` | src/terminal_emu.rs:594-622 | the four forms of ED |
| `Terminal.TerminalState.EraseLine` | src/terminal_emu.rs:624-637 | the three forms of EL |
| `Terminal.TerminalState.SetScrollRegion` | src/terminal_emu.rs:639-658 | a proper region is taken, an empty request resets it, the cursor goes home |
| `Terminal.TerminalState.SetModes` | src/terminal_emu.rs:660-717 | every parameter in order, private or not |
| `Terminal.TerminalState.SetAlternate` | src/terminal_emu.rs:719-736 | entering saves the cursor once, leaving restores it |
| `Terminal.TerminalState.DeviceStatus` | src/terminal_emu.rs:738-756 | the replies to DSR and CPR |
| `Terminal.TerminalState.HandleExecute` | src/terminal_emu.rs:22-31 | the C0 controls |
| `Terminal.TerminalState.HandleEsc` | src/terminal_emu.rs:99-115 | the escape finals |
| `Terminal.TerminalState.HandleOsc` | src/terminal_emu.rs:40-84 | the dispatch over OSC identifiers |
| `Terminal.TerminalState.OscClipboard` | src/terminal_emu.rs:130-165 | a clipboard read, set or append; a malformed payload makes no request |
| `Terminal.TerminalState.OscPalette` | src/terminal_emu.rs:192-215 | one request per well-formed pair |
| `Terminal.TerminalState.SetHyperlink` | src/terminal_emu.rs:258-268 | a link opens with a fresh identifier, an empty one closes it |
| `Terminal.TerminalState.Perform` | src/terminal_emu.rs:17-116 | one action in place |
| `Terminal.Flattened` | src/terminal_emu.rs:887-899 | sub-parameters are flattened in order and an empty one counts as zero |
| `Terminal.PaletteLoop` | src/terminal_emu.rs:192-215 | the loop over pairs makes the requests of all pairs in order |
| `EventChannel.DrainOrder` | src/terminal.rs:185-210 | draining yields each pending flag once, in the fixed order, then every payload in its own order |
| `EventChannel.EventQueue.MarkScreenUpdated` | src/terminal.rs:147-149 | one flag is raised and nothing else changes |
| `EventChannel.EventQueue.MarkScrollbackLineAdded` | src/terminal.rs:152-154 | one flag is raised and nothing else changes |
| `EventChannel.EventQueue.MarkTitleUpdated` | src/terminal.rs:157-159 | one flag is raised and nothing else changes |
| `EventChannel.EventQueue.MarkTerminalReset` | src/terminal.rs:162-164 | one flag is raised and nothing else changes |
| `EventChannel.EventQueue.Push` | src/terminal.rs:167-174 | a payload joins the end of the queue |
| `EventChannel.EventQueue.ClearRequests` | src/terminal.rs:180-182 | every payload is dropped and the flags stay |
| `EventChannel.EventQueue.Dequeue` | src/terminal.rs:193-209 | the next event in the fixed order |
| `EventChannel.ReplyBuf.Push` | src/terminal.rs:270-276 | a reply joins the end |
| `EventChannel.ReplyBuf.Advance` | src/terminal.rs:279-290 | consumed bytes are gone, and a drained buffer is reclaimed |
| `Scrollback.Trim` | src/terminal_scrollback.rs:14-28 | the loop that pops the oldest line and decrements the counter keeps what trimming keeps, and the counter is right |
| `Scrollback.Trimmed` | src/terminal_scrollback.rs:14-28 | what is kept is within both limits |
| `Scrollback.TrimmedIsLongest` | src/terminal_scrollback.rs:14-28 | it is the longest suffix within both limits |
| `Scrollback.TrimmedUnique` | src/terminal_scrollback.rs:14-28 | a suffix that fits and cannot be extended is the one kept |
| `Scrollback.TrimCompose` | src/terminal_scrollback.rs:14-28 | trimming twice is trimming once to the smaller of each limit |
| `Scrollback.TrimIdempotent` | src/terminal_scrollback.rs:14-28 | trimming again to the same limits removes nothing |
| `Base64.Decode` | src/terminal_emu.rs:918-972 | the loop over characters with a buffer of four computes the decoding |
| `Base64.DecodesExactly` | src/terminal_emu.rs:918-972 | a payload decodes if and only if it is alphabet characters followed only by padding with a count not 1 modulo 4, and yields three bytes for every four characters, rounded down |
| `Base64.DecodeEncode` | src/terminal_emu.rs:918-972 | every byte string is read back from its RFC 4648 section 4 encoding, unpadded, padded, or with any amount of padding |
| `Base64.EncodeDecode` | src/terminal_emu.rs:918-972 | encoding the result gives the characters back if and only if the tail has no stray bits, which the decoder does not reject |
| `Base64.ByteArithmetic` | src/terminal_emu.rs:945-965 | the shifts and ors on bytes are the arithmetic of the model |
| `Sgr.HandleSgr` | src/terminal_emu.rs:767-807 | the loop with its moving index computes the pen the code list means |
| `Sgr.Compositional` | src/terminal_emu.rs:767-807 | splitting a list into two non-empty ones changes nothing, for every pen and continuation, if and only if the first does not end inside a truncated 38 or 48 color |
| `Sgr.ApplyAppend` | src/terminal_emu.rs:767-807 | applying a list that cuts off no color and then another is applying both at once |
| `Sgr.CodesRestore` | src/terminal_emu.rs:767-807 | from any pen the canonical codes of a style without a link restore that style |
| `Sgr.ParseExtendedColor` | src/terminal_emu.rs:810-824 | a color takes at least two and never more codes than there are |
| `Colors.WriteColor` | src/input.rs:281-297 | the appends produce the framed report of the slot and value |
| `Colors.WriteHexByte` | src/input.rs:299-303 | two lowercase hex digits are appended |
| `Colors.ColorRoundTrip` | src/terminal_emu.rs:192-240 | for every slot and value, the bytes the host prints, framed and cut into fields, parse back to exactly that set request |
| `Colors.PaletteRoundTrip` | src/terminal_emu.rs:192-215 | one palette message with any list of entries makes one set request per entry, in order |
| `Colors.PaletteAppend` | src/terminal_emu.rs:192-215 | pairs are read independently and in order, whatever each holds |
| `Colors.ChannelScaling` | src/terminal_emu.rs:864-874 | a channel is one to four hex digits of either case and nothing else: one means the doubled digit, more mean the byte the first two spell |
| `Colors.RgbRoundTrip` | src/terminal_emu.rs:854-861 | a printed value is read back and is never taken for a query |
| `Colors.IndexRoundTrip` | src/terminal_emu.rs:832-838 | a printed index is read back |
| `Colors.IndexExactly` | src/terminal_emu.rs:832-838 | a field names a palette entry if and only if it is its printed number behind any zeros |
| `Colors.RgbExactly` | src/terminal_emu.rs:854-861 | a value is read as a color if and only if it is the prefix and three channels of that color apart by slashes |
| `SessionTraffic.InputIsAccepted` | src/session.rs:607-619 | after every run the input bytes accepted are exactly the bytes of every enqueue that came while the session was not over, whole and in order, and the reply bytes those of the emulator to the bytes decoded so far; while nothing has been dropped, all of it is on the wire or queued |
| `SessionTraffic.EnqueueAnswered` | src/session.rs:607-619 | input is taken exactly while the session is live or at EOF; otherwise the answer is a broken pipe and nothing changes; taken bytes make writing polled for and another pump needed |
| `SessionTraffic.ClosingDropsWhatWaits` | src/session.rs:661-678 | a close drops exactly the queue, keeps the wire, the counters and the status, and after it closing, pumping and enqueueing change nothing and nothing is polled for |
| `SessionTraffic.TrafficIsWhatTheKernelMoved` | src/session.rs:1095-1171 | after every run what was received is the data the kernel answered to the reads in the order they were issued, each up to what it asked for, and as many bytes are on the wire as it took of the writes; reads and writes together are all the calls, each numbered once; blocked ones are counted |
| `SessionTraffic.PumpsAreCounted` | src/session.rs:516-564 | the counters hold how many pumps of a run found the session not over, and how many of those used their budget up without an error |
| `SessionTraffic.AsksForWhatFits` | src/session.rs:1015-1024 | a write asks for what is queued as far as the budget goes, a read for 65536 bytes as far as it goes |
| `SessionPolls.InterestsExactly` | src/session.rs:447-463 | in every reachable state writing is polled for if and only if the session is not over and something accepted is neither written nor dropped; reading, whatever is queued, if and only if the session is live and not paused, and never while a reply waits unsent |
| `SessionPolls.ReadableUnlessAReplyWaits` | src/session.rs:447-463 | as long as no pump of the run reported an error, a live session polls for reading if and only if no reply waits unsent |
| `SessionPolls.ReadableAgain` | src/session.rs:1084-1090 | from every reachable state a pump with a budget and without an error restores that |
| `SessionPolls.PauseOutlivesReplyExactly` | src/session.rs:1082-1090 | a write phase leaves decoding paused with no reply waiting if and only if it began with one, ends in an error, and the reply is sent but not yet compacted away |
| `SessionPolls.LeftPaused` | src/session.rs:1082-1090 | a byte that draws a reply, then input, then a write that takes the reply and one that fails: the session is live and paused with no reply waiting |
| `SessionFairness.NobodyStarves` | src/session.rs:524-558 | of two pumps with budgets, the first without an error, one makes a call or decodes a byte in any direction that had work at the start, unless the first leaves it none or ends the session |
| `SessionFairness.NextBegins` | src/session.rs:538-558 | the next pump begins with the direction not served last if and only if bytes moved in the one served last or the other has work |
| `SessionFairness.FirstIsServed` | src/session.rs:524-538 | a pump that begins with a direction that has work serves it |
| `SessionFairness.NewSessionWritesFirst` | src/session.rs:366-386 | a new session that has input writes before it reads |
| `SessionErrors.PumpReportsExactly` | src/session.rs:1066-1082 | a pump reports an error if and only if its last read or last write was answered with one other than would-block, interrupted and EIO, and then that one; never were both |
| `SessionStatus.TryWaitAnswers` | src/session.rs:733-757 | in every reachable state the answer is Ok(Some(s)) if and only if no error is reported and the child holds s afterwards, otherwise Ok(None) with none held; the session holds the same, and the record of statuses returned grows by exactly the one answered |
| `SessionStatus.WaitAnswers` | src/session.rs:764-785 | the same of a blocking wait, which never answers with nothing |
| `SessionStatus.StatusIsAnsweredForGood` | src/session.rs:733-785 | once any wait of any run has answered with a status, after any further calls every wait answers with it, a signal finds the child reaped, and shutting down makes no system call |
| `SessionStatus.HeldIsAnswered` | src/session.rs:734-736 | a held status is what every call on the child answers with, without a system call |
| `SessionStatus.ReturnedIsHanded` | src/session.rs:733-785 | after every run the statuses on record are those the waits answered with, in order |
| `SessionStatus.LiveAnswersAreTheSystems` | src/session.rs:738-743 | on an open session with an unreaped child the answer of a wait is the answer of the system, after one call |
| `SessionStatus.ClosedAnswersAreTheSystems` | src/session.rs:745-756 | on a closed session the first poll answers from the report of waitid and, if that is an exit, from the reap, which must be of the same exit |
| `SessionStatus.ContradictionIsReportedOnce` | src/session.rs:748-756 | a status that contradicts the exit seen is reported as malformed once, and every later wait hands it out without a system call |
| `SessionStatus.SignalAnswers` | src/session.rs:866-892 | a signal is one kill while the child is ours and unreaped and none otherwise, a missing process group is not an error, and any other error is passed on |
| `SessionStatus.ShutdownKillsAndReaps` | src/session.rs:901-924 | shutting down with an unreaped child makes one kill and one wait, whose answer is the result |
| `SessionStatus.CallsTouchOnlyTheChild` | src/session.rs:733-785 | waiting and signalling touch no byte, flag or counter of the session |
| `LifecycleLaws.LiveWaitsExactly` | src/pty.rs:114-143 | a wait on an open child answers what the system answers, once, and the status it was given from then on |
| `LifecycleLaws.ReportsAgreeExactly` | src/pty.rs:472-496 | two reports of an exit, by waitid and by wait, are taken for the same if and only if code and detail are of the same exit |
| `LifecycleLaws.ClassifyExactly` | src/pty.rs:472-496 | a process id of zero alone means nothing has happened, and an unknown code alone is malformed |
| `LifecycleLaws.BrokenForGood` | src/pty.rs:317-360 | a lost child and one whose report was malformed answer every later poll and reap with that error, without a system call |
| `LifecycleLaws.PollRemembers` | src/pty.rs:317-360 | an exit seen is seen again without asking; a lost child and a malformed report are remembered, and no other answer is |
| `LifecycleLaws.ReapRemembers` | src/pty.rs:362-428 | a reaped status is kept and handed out from then on, even one reported as contradicting; a failed reap changes nothing unless the child is lost |
| `LifecycleLaws.SignalsExactly` | src/pty.rs:145-170 | one kill whose answer is passed on, a missing group being no error, while the child is ours and unreaped; else none, with the reason |
| `LifecycleLaws.HandsOver` | src/pty.rs:172-190 | a reaped child is handed over as reaped and any other with nothing seen of it, and answers signals and waits alike |
| `ResizeLaws.ResizedExactly` | src/terminal_buffer.rs:96-147 | for every old and new size, cell (r, c) is the old cell (r + shift, c) for the rows placed and the columns of the smaller width, except that a wide lead in the last of them is emptied; every other cell is empty, and the rows handed back are the first shift ones |
| `ResizeLaws.WidenAndBack` | src/terminal_buffer.rs:96-147 | widening a screen and narrowing it back gives every cell back |
| `ResizeLaws.GrowAndBack` | src/terminal_buffer.rs:96-147 | enlarging a screen and shrinking it back gives back every row down to the last that draws anything, and empty ones below |
| `ResizeLaws.ResizeExactly` | src/terminal.rs:633-665 | a resize to the same size changes nothing; any other gives both screens their cells, resets region and pending wrap, moves the cursor with its row and off a trailing half, hands the displaced rows that draw something to the history only while the primary screen is shown, reports an update, and leaves every other field alone |
| `ResizeLaws.RegionClampedExactly` | src/terminal.rs:601-602 | that a resize to another size clamps the scroll region, as its documentation says, holds if and only if the region reaches the new bottom and begins at the top or there is one row; the code resets it |
| `ResizeLaws.TrimExactly` | src/terminal.rs:583-590 | a trim touches the history alone: what is left is its newest lines within both limits, and one more would not be |
| `MotionLaws.VerticalMoves` | src/terminal_emu.rs:522-540 | for every count CUU and CUD move the smaller of the count and the rows there are, in origin mode the region's, onto its nearest row from outside; CNL and CPL do and go to the first column; the pending wrap is cleared and no other field changes |
| `MotionLaws.HorizontalMoves` | src/terminal_emu.rs:542-554 | CUF and CUB move the smaller of the count and the columns there are |
| `MotionLaws.UpAndDown` | src/terminal_emu.rs:522-540 | going up and back down, or the reverse, gives the cursor back if and only if there are as many rows or none the other way |
| `MotionLaws.ColumnAndRowMoves` | src/terminal_emu.rs:556-568 | CHA and HPA set the column and VPA the row, one-based, clamped, rows from the region's first in origin mode |
| `MotionLaws.PositionMoves` | src/terminal_emu.rs:570-577 | CUP and HVP set both |
| `MotionLaws.ControlsMove` | src/terminal_emu.rs:325-348 | BS, CR and HT move within the row; a tab goes to the next multiple of eight or the last column, and past column 65528 to the first |
| `MotionLaws.SavesExactly` | src/terminal_emu.rs:362-369 | ESC 7 and CSI s take down position, pen, pending wrap and origin mode and change nothing else |
| `MotionLaws.RestoresExactly` | src/terminal_emu.rs:371-377 | ESC 8 and CSI u bring them back, the position clamped and off a trailing half, and change nothing else |
| `MotionLaws.SaveAndRestore` | src/terminal_emu.rs:362-377 | whatever was done since, at the same size and without saving again, the cursor, pen and pending wrap come back |
| `LineLaws.ScrollsExactly` | src/terminal_emu.rs:498-505 | for every count SU and SD move every row of the region that far, leave blank rows in the pen's style behind and all others alone; only what leaves the whole primary screen and draws something goes to the history |
| `LineLaws.LinesMoveExactly` | src/terminal_emu.rs:458-475 | IL and DL move the rows from the cursor's to the region's bottom, and do nothing with the cursor outside the region |
| `LineLaws.LineControlsExactly` | src/terminal_emu.rs:336-360 | LF, VT, FF and IND go down a row or scroll the region up at its bottom, NEL from the first column, and RI goes up or scrolls it down at its top |
| `CellLaws.PrintsExactly` | src/terminal_emu.rs:272-323 | a glyph that does not wrap is put where the cursor is and the cursor moves past it; one that does is printed after a carriage return and a line feed; without autowrap one that has no room only clears the pending wrap; one of no width does nothing |
| `CellLaws.PutCharPrints` | src/terminal_emu.rs:298-323 | every cell of the row after a print, in the pen's style: over what was there with broken halves emptied, or in insert mode before it |
| `CellLaws.ShiftsExactly` | src/terminal_emu.rs:476-489 | every cell of the row after ICH and DCH for every count, and nothing else changes |
| `CellLaws.ErasesExactly` | src/terminal_emu.rs:594-637 | ED and EL erase their cells and nothing else, exactly so on a row without halved glyphs and up to one emptied cell on each side on any other; ED 3 drops the history alone, other modes do nothing |
| `CellLaws.ErasesCharacters` | src/terminal_emu.rs:490-497 | ECH erases the count of cells from the cursor on, as far as there are any |
| `CellLaws.ClearsExactly` | src/terminal_buffer.rs:165-188 | a cell that is cleared takes the other half of its glyph with it, nothing else changes, and off the screen nothing happens |
| `GridLaws.EraseConfined` | src/terminal_buffer.rs:210-222 | an erase is confined to its range and the cell on each side, whatever the row holds |
| `ModeLaws.FlagsExactly` | src/terminal_emu.rs:660-717 | modes 1, 7, 25, 66, 1006, 2004 and the insert mode 4 set and reset their flag and nothing else |
| `ModeLaws.MouseExactly` | src/terminal_emu.rs:660-717 | modes 9, 1000, 1002 and 1003 replace one another and any of them resets reporting |
| `ModeLaws.OriginExactly` | src/terminal_emu.rs:660-717 | mode 6 sets origin mode and takes the cursor to the first row there is then |
| `ModeLaws.OthersDoNothing` | src/terminal_emu.rs:660-717 | every other mode does nothing |
| `ModeLaws.OnlyQuestionMarkIsPrivate` | src/terminal_emu.rs:427-436 | of the markers only a leading question mark makes a mode private |
| `ModeLaws.ModeListsSplit` | src/terminal_emu.rs:660-717 | a list of modes does what one sequence for each does, in order |
| `ModeLaws.GroupsInOrder` | src/terminal_emu.rs:887-899 | parameters are flattened in order |
| `ModeLaws.GroupCounts` | src/terminal_emu.rs:887-899 | sub-parameters count like parameters, and an empty group as one zero |
| `ModeLaws.EntersExactly` | src/terminal_emu.rs:719-736 | entering the alternate screen saves the cursor unless it is shown already; 1049 also empties it and resets cursor, pending wrap and region |
| `ModeLaws.LeavesExactly` | src/terminal_emu.rs:719-736 | leaving it restores the cursor unless the primary screen is shown |
| `ModeLaws.RegionExactly` | src/terminal_emu.rs:639-658 | DECSTBM takes a region of two lines or more on the screen, resets it when nothing is asked for, keeps it otherwise, and takes the cursor home |
| `ModeLaws.PenExactly` | src/terminal_emu.rs:767-807 | SGR changes the pen alone, by its flattened codes, and a private one nothing |
| `ModeLaws.RepliesExactly` | src/terminal_emu.rs:738-765 | DSR 5 and 6 and DA1 are answered with these bytes and nothing else is |
| `ModeLaws.UnknownDoesNothing` | src/terminal_emu.rs:86-127 | unknown finals, malformed sequences and unknown controls change nothing |
| `ModeLaws.ResetsExactly` | src/terminal_emu.rs:384-425 | RIS gives a new terminal but for the replies, the link counter and the merged events |
| `ModeLaws.NewExactly` | src/terminal.rs:320-338 | every field and cell of a new terminal |
| `HostLaws.TitleExactly` | src/terminal_emu.rs:59-66 | OSC 0 and 2 set the title, to nothing when none is given, and report it; BEL asks for the bell |
| `HostLaws.LinkExactly` | src/terminal_emu.rs:258-268 | OSC 8 opens a link with a fresh identifier for pen and caller, or closes the pen's |
| `HostLaws.OtherHandedOn` | src/terminal_emu.rs:82-82 | a message with any other identifier is handed on with its fields |
| `HostLaws.StoredExactly` | src/terminal_emu.rs:130-165 | a text sent base64-encoded is asked to be stored for its selection if and only if its first byte is not 248 to 251 |
| `HostLaws.AppendedAndAskedFor` | src/terminal_emu.rs:130-165 | behind a plus it is asked to be appended, and a question mark asks for the contents |
| `HostLaws.MalformedPayloadIgnored` | src/terminal_emu.rs:130-165 | a payload that is not base64 stores nothing, with or without a plus |
| `HostLaws.NothingStored` | src/terminal_emu.rs:130-165 | without a payload nothing is asked to be stored in the selection named, or in the clipboard |
| `HostLaws.ColorSet` | src/terminal_emu.rs:192-240 | what the host prints for a slot asks, from a child, for that color to be set |
| `HostLaws.MalformedColorsIgnored` | src/terminal_emu.rs:192-240 | a malformed number or color, a number alone and no color at all ask for nothing |
| `HostLaws.ExtraFieldsIgnored` | src/terminal_emu.rs:130-240 | fields after the ones a clipboard or a default color message has are not read |
| `HostLaws.ColorAsked` | src/terminal_emu.rs:192-240 | a question mark in its place asks for the color |
| `HostLaws.FeedExactly` | src/terminal.rs:424-443 | a feed does what its actions do and raises an update if and only if one is pending, a primary cell was written, or the cursor, pending wrap, pen, modes or the screen shown differ |
| `Sgr.CodesTakeBack` | src/terminal_emu.rs:767-807 | 22, 23, 24, 27, 39 and 49 take back one attribute each, and 0 or nothing all of them |
| `Sgr.ShortColors` | src/terminal_emu.rs:767-807 | 30 to 37, 40 to 47, 90 to 97 and 100 to 107 are the long codes of the first sixteen colors |
| `Sgr.OtherCodes` | src/terminal_emu.rs:767-807 | every other code changes nothing |
| `Colors.DefaultReportBytes` | src/input.rs:281-297 | the report of a default color, byte for byte |
| `Colors.PaletteReportBytes` | src/input.rs:281-297 | the report of a palette entry, byte for byte |
| `Base64.KnownAnswers` | src/terminal_emu.rs:918-965 | the first examples of RFC 4648 section 10 |
| `Base64.LettersInOrder` | src/terminal_emu.rs:937-943 | the alphabet of RFC 4648 table 1 |

## Left out

- System calls, file descriptors, spawning, window-size ioctls and `Drop`: only the results a call may have are modelled, as parameters.
- The `vte` tokenizer and the `unicode-width` tables: feeds take the tokenizer's actions, and a printed character carries the width the tables give it, or none. Of the tokenizer `ChunkLaws.ByteChunkingIsInvisible` takes only that it reads one byte after another and keeps its state between feeds.
- That one byte completes at most one control sequence, which is the tokenizer's property, is a premise of `SessionTerminal.UnsentRepliesAreBounded` and of `TerminalExhaustion.PromiseHoldsExactly`.
- Terminal.TerminalState.HandleOsc: titles stay bytes; their lossy conversion to UTF-8 text is not modelled.
- Terminal.TerminalState.SetHyperlink: so do link targets, and the names of selections.
- SessionPump.Session.EnqueueInput: the bytes are given; the encoding of keys, pastes and mouse events, which depends on the terminal's modes and is finite tables, is not modelled.
- ChunkLaws.ChunkingIsInvisible: cuts fall between whole actions; cuts inside one are in `ChunkLaws.ByteChunkingIsInvisible`.
- `Session::resize`, and taking the PTY out of its `Option` around a system call: no state of the model depends on them between calls.
- The padding a read buffer is extended with before a read and cut back to afterwards.
- Saturation of counters at the largest machine integer: they are natural numbers. The hyperlink counter does wrap.
- Sixteen-bit sums before clamping in `horizontal_tab`, `set_row` and `set_position` wrap, as in a release build; a debug build would stop.
- Read bytes left undecoded when a write-side EIO meets an already reaped child: they stay in the buffer of a spent session, and no claim says they are fed.
- Text of the hidden primary screen over a resize on the alternate screen: the rows it displaces are dropped there.
- That a pending wrap means the last column: restoring a cursor can break it.
- Read-only accessors, `Debug` output, examples and benchmarks.
