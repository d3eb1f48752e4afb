# edc: verified model

edc is a terminal tool for looking after hosts. Most of it is input and output around a few self-contained machines:
summarizers fed by kernel events, parsers, accounting, and protocols over files. This project models those machines in
Dafny and proves what they are for. The operating system is abstract state; what it answers is arbitrary input.

- **TCP trace summarizer** (`TcpLives`, `TcpHistory`, `TcpRows`, `TcpTrace`, `TcpProjection`). A summarizer with bounded
  memory (a ring of 1000 rows, a map of at most 65536 freed sockets, running totals, grouped rows) says after every event
  what an unbounded history of socket lives says. A late RST marks exactly its own connection's row or none; totals,
  groups and rows add up; interleaving the events of different sockets does not matter, exactly as long as no tcp_destroy
  finds the map full.
- **Kernel-side stream machines** (`TlsPrefix`, `StreamCapture`, `GoTlsHandOff`). The TLS prefix machine is independent
  of how bytes are cut into reads and buffers. A followed HTTP/2 stream has no silent gap. In the Go TLS hand-off the
  connection is forgotten at least once after Close, in every interleaving, and last, exactly when Close finds no Write
  half way through its probes.
- **Fast JSON reader** (`JsonGrammar`, `JsonReader`). Skipping consumes exactly one value of the grammar and accepts every
  such value; jumping from quote to quote finds the quote a left-to-right scanner finds; integers are exact to 64 bits.
- **Protected change** (`ChangeTarget`, `ChangeProtocol`, `ChangeGuard`, `ChangeTooEarly`, `ChangeRollback`,
  `ChangeStale`). Apply, confirm, rollback by hand and rollback by the timer as interleaved and crashing processes over
  state files, two kinds of lock and a timer, beside others' edits: what holds in every run, exactly how long commands on a
  change have to wait for its apply for the rest to hold, and which edits a rollback overwrites or misses.
- **compress --rm** (`CodecRemove`). Every run beside others that create, replace, write and unlink files: nothing but
  the converted, re-read input is deleted, and only when the output is durable.
- **Disk accounting** (`CleanWalk`, `CleanRoots`, `Overlay`). A walk around excluded paths, measured roots that do not
  overlap, and the bytes of old Docker layers attributed without loss.
- **Token accounting and call spacing** (`TokenUsage`, `TokenScan`, `CodexScan`, `ClaudePacing`). Reading logs a piece at a time gives
  the totals of reading them at once, window by window when old records are dropped, and the spacing of API calls survives
  restarts.
- **Statusline wrapper** (`StatuslineWrap`). Wrapping and unwrapping undo each other, and so do install and uninstall.

`Folds` holds the sums and filters that the accounting shares. Objects that the program updates in place are classes whose
methods are proved against specification functions; loops over the operating system's answers take those answers as
parameters or as arbitrary values. Concurrent protocols are state machines over single steps, and their theorems quantify
over all runs.

## Where the code does less than it says

Each of these is proved, with the exact condition under which the property does hold.

- `TcpProjection.ClearsLoses`: a tcp_destroy that finds the map of freed sockets full empties it, and some other socket
  then no longer comes out as it would alone. `ProjectsExactly`: nothing else does that.
- `GoTlsHandOff.LastForgetCanBeTooEarly`: a Write that was already uncounted when Close sets its mark can delete the entry
  that counts a second Write; the second Write's plaintext is captured after the last forgetting, and state for the
  closed connection stays. `CleanCloseExactly` gives the exact condition at Close's mark: no Write seen and not yet counted,
  and not both one inside Write and one that brought the count to zero and has not looked for the mark.
- `ChangeTooEarly.EarlyBreaks`: a rollback that begins before apply's change, and acts just before it, ends the change, and
  the target is then changed with no timer and nothing pending. `ChangeTooEarly.LateBreaks`: a confirm that begins while
  apply of rules is failing succeeds, and apply's rollback too. `WaitsExactly`: a run is safe from both whatever happens if
  and only if the commands on it begin when its apply is giving up, has ended or has crashed. That at most one change is
  pending needs no such condition.
- `ChangeRollback.EditIsOverwritten`, `EditIsMissed`: a keys file edited by someone else is replaced when the edit comes after
  the rollback has judged the file, and a run is reported as rolled back although its target was edited meanwhile.
  `WhatIsReplaced` and `UndoneIsAsBefore` say that exactly the edits since that reading do this in all runs whose commands
  wait for apply to be gone.
- `ChangeStale.StaleSpoils`: without any edit, a rollback that begins while apply of rules is still at work, at any of its
  steps, can outlive the change, judge the rules of the next change by its own state file, and write over what that
  change's apply has put back: the next change is then reported as rolled back and its target is not as before. That apply
  writes no more after the step at which the rollback began does not help.
  `UndoneExactly` and `ReplacedExactly`: nobody editing, every run that is rolled back has its target as before, and every
  rollback replaces only what it would replace if it looked again, if and only if commands begin when the apply of their
  run has ended or has crashed.
- `ChangeTarget.AppliedIsRestored`: a keys file whose mode was 0 cannot be rolled back after it was changed, because the
  default mode it is written with is not the mode that is looked for; every other one can.
- `CleanRoots.ScanMisordered`: when a single path is measured after an entry-by-entry candidate that went round something
  below that path, files are counted twice. The macOS catalogue has entry-by-entry candidates before single paths.
  `NoDoubleCounting` gives the exact condition for whatever was measured; `NoneMisplaced`, for a scan in which nothing fails,
  gives it over the candidates alone, before the scan.
- `StatuslineWrap.LinesNotUndone`: a wrapped command with a newline is never unwrapped again; `UninstallRestores` says
  exactly which settings uninstalling gives back.
- `TokenScan.BlankFirst`: a message with an empty record read before a full one is no request, and is one in the other
  order. `AskedSteady`: the number of requests is the same in every order if and only if no message has records of both
  kinds. The token sums of the same records never depend on it.
- `TokenScan.AnotherLife`: a message that was dropped for its age and has one more record is counted like a new one.
  `LivesAddNothing`: counting so is never less than counting each message id once, and the same if and only if no id has
  counts above zero in two of its lives.
- `Overlay.CountedTwice`: a container whose write layer is also an image's layer makes the parts twice the total;
  `PartsAndWhole` and `NoExcess` say exactly when the parts are the total.

## Model

| member | source | states |
|---|---|---|
| TcpLives.Longer | internal/edc/capture_events.go:548-640 | How each field of a life's summary, defined over the life as a whole, changes with one more event: names and addresses are the first given, samples the last, traffic and retransmissions sums |
| TcpLives.LongerFlags | internal/edc/capture_events.go:548-640 | A life is reset, closed, established, shaking hands, listening or has a port as soon as one of its events says so, and stays so |
| TcpLives.LongerSource | internal/edc/capture_events.go:548-640 | The source is the first one with a port, or failing that the first given |
| TcpLives.LongerConnectTime | internal/edc/capture_events.go:548-640 | The connect time is from the first event of the life to its last connect or accept not before it |
| TcpHistory.StepWellFormed | internal/edc/capture_events.go:548-640 | After any event a socket is never both open and freed, and each freed socket points at its own last finished life |
| TcpHistory.LateResetExactly | internal/edc/capture_events.go:548-654 | An RST on a socket that is not open marks that socket's last row and no other, exactly while it is remembered; otherwise it opens a new life and no row changes |
| TcpHistory.LateResetOnce | internal/edc/capture_events.go:643-654 | A second late RST of the same life changes nothing |
| TcpRows.AddTotals | internal/edc/capture_events.go:522-537 | Adding a connection to the totals gives the totals of the rows with it |
| TcpRows.TotalsBalance | internal/edc/capture_events.go:522-537 | Attempts are established plus incomplete, and with the existing ones they are all rows |
| TcpRows.AddGroup | internal/edc/capture_events.go:289-333 | Adding a connection to its group gives the grouped rows of the rows with it, for every column |
| TcpRows.GroupSnoc | internal/edc/capture_events.go:289-333 | One more row changes its own group, as summed over all its rows, and no other |
| TcpRows.GroupMark | internal/edc/capture_events.go:643-654 | Marking a row adds one reset to its own group and changes nothing else |
| TcpRows.GroupedMark | internal/edc/capture_events.go:643-654 | The group of a late RST's row exists, and counting the reset there keeps the grouped rows exact |
| TcpRows.GroupsSumToTotals | internal/edc/capture_events.go:289-333 | Each total is the sum of its column over the groups |
| TcpTrace.RingGrow | internal/edc/capture_events.go:657-678 | While there is room the c-th finished connection goes to slot c, and the ring stays the last rows |
| TcpTrace.RingReplace | internal/edc/capture_events.go:657-678 | When full, the next connection replaces the oldest, in slot c mod 1000 |
| TcpTrace.RingMark | internal/edc/capture_events.go:643-654 | The slot still holds its own row exactly while fewer than 1000 later connections have finished; marking it there marks that row alone |
| TcpTrace.RingIsLastRows | internal/edc/capture_events.go:657-742 | Read round from the oldest slot, the ring is the last rows in order, none twice or missing |
| TcpTrace.Summarizer.Observe | internal/edc/capture_events.go:548-640 | The bounded summarizer stays what the unbounded history says, and the traffic sums grow by the event |
| TcpTrace.Summarizer.AddLateReset | internal/edc/capture_events.go:643-654 | A late RST is counted once, in the totals, its group and its row if still shown |
| TcpTrace.Summarizer.Finish | internal/edc/capture_events.go:657-678 | Ending a life puts its row in totals, group and ring if it counts, and returns where it went |
| TcpTrace.Summarizer.Report | internal/edc/capture_events.go:680-742 | A report adds each counted open connection once and leaves the summarizer as it is |
| TcpTrace.ReportBalances | internal/edc/capture_events.go:680-742 | Rows listed plus rows omitted are attempts plus existing |
| TcpTrace.Trace | internal/edc/capture_events.go:465-474 | After any event sequence the summarizer says what the history of that sequence says |
| TcpProjection.RunProjects | internal/edc/capture_events.go:548-678 | While no tcp_destroy found the map of freed sockets full, each socket's lives, finished and open, are those of its own events alone |
| TcpProjection.ClearsLoses | internal/edc/capture_events.go:630-638 | When one does, some other socket is no longer as its own events alone would leave it |
| TcpProjection.ProjectsExactly | internal/edc/capture_events.go:548-678 | A trace can be taken socket by socket at every moment of it if and only if no tcp_destroy found the map full |
| TcpProjection.FewSocketsKept | internal/edc/capture_events.go:630-638 | With at most 65536 sockets none does |
| TcpProjection.Projection | internal/edc/capture_events.go:522-678 | Any per-connection quantity of the finished rows of such a trace is the sum over its sockets summarized alone |
| TcpProjection.ReportProjects | internal/edc/capture_events.go:522-678 | So is any per-connection quantity of a report, with the open connections in it |
| TcpProjection.TotalsProject | internal/edc/capture_events.go:522-678 | So are all six totals of a report |
| JsonGrammar.ScanResumes | internal/edc/ai_json.go:38-61 | The escape flag of a left-to-right scanner is the parity of the backslashes standing before the position |
| JsonGrammar.NumberIsRead | internal/edc/ai_json.go:103-144 | A number of the grammar that something ends is read to exactly its end |
| JsonReader.ValueEndsOnce | internal/edc/ai_json.go:66-214 | The bytes settle where a value that something ends closes |
| JsonReader.Reader.Peek | internal/edc/ai_json.go:21-31 | Stops at the first byte that is no space |
| JsonReader.Reader.Str | internal/edc/ai_json.go:38-61 | Jumping from quote to quote finds the closing quote of the scanner with an escape flag, and fails when it does |
| JsonReader.Reader.Number | internal/edc/ai_json.go:103-144 | Reads the longest number at the position, or fails without moving |
| JsonReader.Reader.Skip | internal/edc/ai_json.go:66-92 | Success consumes exactly one value within the nesting left, moves on and restores the depth; every such value that something ends is accepted |
| JsonReader.Reader.Array | internal/edc/ai_json.go:146-171 | The same for arrays; false when something else comes next |
| JsonReader.Reader.Object | internal/edc/ai_json.go:174-214 | The same for objects, whose keys are decoded when they have escapes |
| JsonReader.Reader.Literal | internal/edc/ai_json.go:94-100 | A word is consumed exactly when it stands at the position |
| JsonReader.Reader.Null | internal/edc/ai_json.go:217-223 | null is consumed exactly when it is the next value |
| JsonReader.Reader.Integer | internal/edc/ai_json.go:225-259 | An integer is accepted exactly when it fits in 64 bits with a sign, with its value; null leaves the field |
| JsonReader.DecimalGrows | internal/edc/ai_json.go:225-259 | Further digits never make a number smaller, so an early overflow is final |
| TlsPrefix.ClassifyStays | internal/edc/capture_events_bpf.c:1415-1578 | Once the first bytes decide what a direction is, later bytes do not change it |
| TlsPrefix.NextByte | internal/edc/capture_events_bpf.c:1482-1575 | The checks made byte by byte are the checks of the whole headers (sections 4 and 5.1 of RFC 8446) |
| TlsPrefix.SegmentAt | internal/edc/capture_events_bpf.c:1358-1375 | Finds the buffer and address of the at-th byte, nothing left just past the end, and no buffer beyond |
| TlsPrefix.Advance | internal/edc/capture_events_bpf.c:1415-1578 | One read takes the machine to where all the bytes so far lead and hands over the hello bytes among them; it gives up only for a byte it needs and cannot read |
| TlsPrefix.Prefixes.Read | internal/edc/capture_events_bpf.c:1415-1578 | The same in the table of directions, which leaves the other directions alone |
| TlsPrefix.Prefixes.ReadAll | internal/edc/capture_events_bpf.c:1415-1578 | For any cut into reads and buffers, what is remembered and handed over depends on the joined bytes alone; the captured ranges are the hello bytes in order, once |
| TlsPrefix.SameBytesSameState | internal/edc/capture_events_bpf.c:1415-1578 | Two reads of the same bytes agree on verdict, hello end and offset |
| StreamCapture.EmitOne | internal/edc/capture_events_bpf.c:2374-2411 | A record at the next offset keeps offsets consecutive and appends its payload |
| StreamCapture.Streams.EmitBuffer | internal/edc/capture_events_bpf.c:2374-2411 | The loop emits a prefix of the bytes at consecutive offsets; a dropped record is counted at once; without faults all of up to 80 records are emitted |
| StreamCapture.Streams.EmitBuffers | internal/edc/capture_events_bpf.c:1772-1832 | The same over up to 16 scattered buffers: without faults up to 49 times 16384 bytes are emitted whole |
| StreamCapture.Streams.Capture | internal/edc/capture_events_bpf.c:2308-2427 | A followed direction keeps every byte of the call, or stops being followed and the loss is counted; one that begins does so with all of the call's bytes; other directions are left alone |
| StreamCapture.Streams.CaptureReceived | internal/edc/capture_events_bpf.c:1653-1842 | The same for bytes received without TLS, with the recognition of a stream's start in the first buffer: a direction begins to be followed exactly when its start is seen and nothing is lost |
| GoTlsHandOff.RunInvariant | internal/edc/capture_events_bpf.c:2889-2917 | In every interleaving the entry counts exactly the Writes in progress until something forgets, and Close leaves the forgetting to a Write that still has it to do |
| GoTlsHandOff.ClosedIsForgotten | internal/edc/capture_events_bpf.c:3025-3036 | Once Close has run and no Write is in progress, the connection has been forgotten, in every interleaving |
| GoTlsHandOff.LastForgetCanBeTooEarly | internal/edc/capture_events_bpf.c:2902-2917 | A run in which the last forgetting comes before the last capture |
| GoTlsHandOff.OrderlyLeavesNothing | internal/edc/capture_events_bpf.c:2889-3036 | What every step keeps after a mark that found no Write half way, until another Write begins: cleaning up starts only when no Write can capture any more |
| GoTlsHandOff.RestlessLeaks | internal/edc/capture_events_bpf.c:2889-3036 | After any other mark there is a way on without another Write in which something of the connection stays |
| GoTlsHandOff.CleanCloseExactly | internal/edc/capture_events_bpf.c:2889-3036 | At Close's mark in any run: nothing stays in any continuation without another Write, if and only if no Write is seen and uncounted, and not both one is inside Write and one has brought the count to zero without having looked for the mark |
| ChangeTarget.EditedIsRefused | internal/edc/change.go:366-399 | A keys file that is neither as before nor as applied is refused |
| ChangeTarget.AppliedIsRestored | internal/edc/change.go:366-399 | An applied file is put back if and only if it did not exist or its mode was not 0 |
| ChangeTarget.Target.WriteFile | internal/edc/change.go:459-492 | A file is replaced whole, with the default mode for mode 0, or stays |
| ChangeTarget.Target.RollbackKeys | internal/edc/change.go:366-399 | Success leaves the target as before; a refused target stays untouched; without failing calls it succeeds exactly when there is nothing to do or the applied file had a mode |
| ChangeTarget.Target.RollbackRules | internal/edc/change.go:400-423 | The same for rules, by how they are listed |
| ChangeProtocol.OnePending | internal/edc/change.go:188-254 | At most one change is pending, in every interleaving, with crashes, and whenever commands come |
| ChangeGuard.NeverBoth | internal/edc/change.go:548-585 | No run is both confirmed and rolled back, when the commands on that run begin once its apply gives up, has ended or has crashed; and then its state file says completed |
| ChangeGuard.ChangedUnderGuard | internal/edc/change.go:198-238 | Under the same condition, whenever apply changes the target, the target as read before is in a pending state file and the timer runs |
| ChangeProtocol.WhereTargetsChange | internal/edc/change.go:198-254 | A process changes its own target only, and only in two of its steps |
| ChangeGuard.OrderKept | internal/edc/change.go:198-254 | What every step of any process keeps for a run: who holds its lock, what its state file says, whether its timer runs |
| ChangeGuard.DoneOnce | internal/edc/change.go:548-591 | Whoever is about to complete a change finds it neither confirmed nor rolled back, and its state file as it knows it |
| ChangeRollback.ComesToRely | internal/edc/change.go:366-427 | A rollback goes on to write or to succeed only by a step that sees, or makes, the target what it goes by |
| ChangeRollback.OthersWait | internal/edc/change.go:198-254 | While one process changes a target or is about to say that it rolled back, no other is, when commands wait for apply to be gone |
| ChangeRollback.ReliedOnSince | internal/edc/change.go:366-427 | Over every such run, what a rollback goes by is as it saw it, but for others' edits since that step |
| ChangeRollback.UndoneIsAsBefore | internal/edc/change.go:570-585 | Over every such run of all processes, a run that becomes rolled back leaves its target as it was before the change, if and only if nobody edited it to something else since the rollback last saw it so |
| ChangeRollback.WhatIsReplaced | internal/edc/change.go:366-427 | Over every such run, what a rollback by command or by apply has judged, a keys file or rules, is what its state file says was applied; what it replaces is that but for others' edits since, so for keys the applied file if and only if nobody edited it to something else between its reading and its writing; it writes in either case |
| ChangeStale.StaleSpoils | internal/edc/change.go:400-427 | For each step of apply but its end, a run without edits in which commands begin only when their apply is at that step, and the next change is rolled back with a target that is not as before |
| ChangeStale.UndoneExactly | internal/edc/change.go:570-585 | For any set of steps of apply at which commands may begin: in every run without edits, each run that becomes rolled back has its target as before, if and only if apply has ended or has crashed at each of them |
| ChangeStale.ReplacedExactly | internal/edc/change.go:366-427 | For any such set: in every run without edits, each rollback about to write would judge the target as it is then as it judged it, under the same condition and no other |
| ChangeRollback.EditIsOverwritten | internal/edc/change.go:372-399 | A run in which an edited keys file is overwritten and the rollback succeeds |
| ChangeRollback.EditIsMissed | internal/edc/change.go:570-585 | A run that is rolled back and whose target is the edited one |
| ChangeTooEarly.EarlyBreaks | internal/edc/change.go:198-238 | For each step of apply up to the change, a run in which a rollback that begins there ends the change, and apply is then about to make it unguarded |
| ChangeTooEarly.LateBreaks | internal/edc/change.go:216-272 | For each step of apply after the change but its last ones, a run in which a confirm that begins there and apply's rollback both succeed |
| ChangeTooEarly.WaitsExactly | internal/edc/change.go:188-272 | For any set of steps of apply at which commands on a run may begin: every run is safe from both if and only if apply is giving up, has ended or has crashed at each of them |
| CodecRemove.CarefulSnoc | internal/edc/compress.go:396-450 | What each step has to keep: move only after the output is durable, replace nothing, delete only what was put back or checked |
| CodecRemove.StopAnywhere | internal/edc/compress.go:396-450 | Stopped at any moment, an inode taken from the hold was put back or is the unchanged input, and the output is durable |
| CodecRemove.FileSystem.Link | internal/edc/compress.go:441-446 | A link replaces nothing |
| CodecRemove.Examine | internal/edc/compress.go:414-436 | Without an error the file that was moved aside is the one that was opened and its bytes are those converted |
| CodecRemove.DeleteOrPutBack | internal/edc/compress.go:414-450 | The file moved aside is deleted as the unchanged input, put back, or still held with an error |
| CodecRemove.RemoveInput | internal/edc/compress.go:396-450 | Beside any others' steps, only the converted input is deleted, and everything moved aside is accounted for |
| CodecRemove.Produce | internal/edc/compress.go:288-316 | The output is synced before it gets its name, and gets it only if the name is free; the temporary name goes |
| CodecRemove.ConvertFile | internal/edc/compress.go:247-326 | The whole run is careful; what has the output's name is all of the conversion of what was read; without --rm nothing is moved |
| CleanWalk.UnderIsPrefix | internal/edc/disk_layout.go:104-109 | The test on path texts is the prefix test on path components |
| CleanWalk.RestOfIsAll | internal/edc/clean.go:822-846 | With nothing excluded at or below it, what is left of an entry is all of it |
| CleanWalk.ChildWalk.Add | internal/edc/clean.go:848-857 | Groups go on adding up to the usage |
| CleanWalk.ChildWalk.HoldsExcluded | internal/edc/clean.go:813-820 | True exactly when an excluded path is at or below the folder |
| CleanWalk.ChildWalk.VisitEntry | internal/edc/clean.go:767-811 | An entry adds at most what is left of it, to one group, and all of it when nothing is reported missing; the new roots are inside it and nested with nothing excluded |
| CleanWalk.ChildWalk.Visit | internal/edc/clean.go:767-811 | The same for the entries of a folder below the first level |
| CleanWalk.ChildWalk.VisitAll | internal/edc/clean.go:767-857 | Usage is never more than the blocks neither excluded nor below an excluded path, and exactly those for a complete walk without links; each group has its own entry's share; roots are not nested, and unless the walk was stopped they are the entries measured whole; without faults nothing is missing |
| CleanRoots.Scanner.MeasureOne | internal/edc/clean.go:496-543 | A home, what is above one, and a path measured before are not measured; new roots are nested with nothing before (entry by entry) or at least not the same (single) |
| CleanRoots.Scanner.MeasureChildren | internal/edc/clean.go:609-699 | Entry by entry, around what was measured before: usage and roots as above |
| CleanRoots.MarkInside | internal/edc/clean.go:993-1015 | An item is marked if and only if it is counted and lies in what another counted item measured, with the first such item |
| CleanRoots.NoDoubleCounting | internal/edc/clean.go:993-1015 | Roots of counted, unmarked items are pairwise not nested if and only if none of them is a single path between an entry-by-entry folder and something measured below it |
| CleanRoots.NoneMisplaced | internal/edc/clean.go:468-494 | When nothing fails, roots are pairwise not nested if and only if no single path that will count lies between the folder of an entry-by-entry candidate and something that will be measured below it, read off the candidates and the homes |
| CleanRoots.SinglesFirstIsEnough | internal/edc/clean.go:468-494 | They are not nested when single paths come first |
| CleanRoots.NothingLost | internal/edc/clean.go:993-1015 | In any order, each root of a counted item is under a root of a counted, unmarked item |
| CleanRoots.OrderMatters | internal/edc/clean.go:468-699 | Whatever a scan makes of three candidates in another order, a file is counted twice |
| CleanRoots.ScanMisordered | internal/edc/clean.go:468-699 | Scanning them does measure the nested paths, and the two usages exceed what is on disk by the shared bytes |
| CleanRoots.Scanner.Scan | internal/edc/clean.go:468-494 | The whole scan meets the hypotheses of these lemmas; when nothing fails, the paths it measures, what counts and the usages are those of the candidates in their order, and nothing is counted twice if and only if no candidate is misplaced |
| Overlay.ReadImage | internal/edc/clean_docker_layers.go:161-199 | An image's layers are the folders of its chain IDs (section "Layer ChainID" of the OCI Image Format Specification, config.md), once each, and the rest is counted missing |
| Overlay.CountUsers | internal/edc/clean_docker_layers.go:58-151 | For each layer, how many images use it |
| Overlay.Attribute | internal/edc/clean_docker_layers.go:58-151 | Total, image, container, unused and unknown bytes and counts, and a row per image, as sums over sets of folders |
| Overlay.PartsAndWhole | internal/edc/clean_docker_layers.go:58-151 | The parts add up to the total plus what is counted twice, so to the total if and only if nothing is |
| Overlay.NoExcess | internal/edc/clean_docker_layers.go:58-151 | Nothing is counted twice if and only if every container folder with data is mentioned once, and no image's layer |
| Overlay.CountedTwice | internal/edc/clean_docker_layers.go:58-151 | A container on an image's layer makes the parts twice the total |
| Overlay.DoubleCount | internal/edc/clean_docker_layers.go:58-151 | Adding up per image counts each layer as often as images use it |
| Overlay.ImageBytesConserved | internal/edc/clean_docker_layers.go:58-151 | Image bytes are what each image would free by itself plus each shared layer once |
| Overlay.OwnAndShared | internal/edc/clean_docker_layers.go:58-151 | An image's bytes less its shared bytes are those only it uses |
| TokenScan.LinesAppend | internal/edc/ai_sources.go:685-720 | Lines read up to a line end and lines read from there are the lines of the whole |
| TokenScan.BatchSnoc | internal/edc/ai_sources.go:742-771 | One more record adds to the batch totals what it grows its message by, where the message was first recorded, or all of itself |
| TokenScan.BatchIgnoresOrder | internal/edc/ai_sources.go:742-771 | The totals (largest count of each message, each record without one) do not depend on the order |
| TokenScan.AskedExact | internal/edc/ai_sources.go:722-771 | Requests are the messages whose first record has tokens plus the records with tokens and without a message |
| TokenScan.BlankFirst | internal/edc/ai_sources.go:722-771 | An empty record read before the full one of its message makes one request less than in the other order |
| TokenScan.AskedSteady | internal/edc/ai_sources.go:722-771 | The number of requests is the same in every order if and only if no message has both an empty and a full record |
| TokenScan.Scanner.UsageDelta | internal/edc/ai_sources.go:742-771 | What a record adds, when it was first recorded, and what is then kept of its message |
| TokenScan.Scanner.Add | internal/edc/ai_sources.go:722-731 | An empty or too old usage is dropped, any other added to its ten-second bucket |
| TokenScan.Scanner.ClaudeLine | internal/edc/ai_sources.go:734-738 | A line keeps every bucket since the retention at its part of the batch totals |
| TokenScan.Scanner.ReadFile | internal/edc/ai_sources.go:685-720 | Hands over the complete lines added since the last time, each once; a file that got shorter is read again from its start, whatever it holds |
| TokenScan.Scanner.Prune | internal/edc/ai_sources.go:613-659 | Drops what is older than the retention, and nothing else; the buckets since then keep their totals |
| TokenScan.Scanner.Scan | internal/edc/ai_sources.go:613-682 | One scan of any files, with records of any age: every bucket since the retention holds its part of the batch totals of all complete lines taken up, where a dropped message that comes back is a new one; skipped files are left; while no record is too old, all buckets add up to the whole totals |
| TokenScan.GrownIsRead | internal/edc/ai_sources.go:685-720 | A file that only grew has been read up to its last line end, and nothing of it is past |
| TokenScan.AnotherLife | internal/edc/ai_sources.go:613-771 | A dropped message that comes back counts in full where it comes back |
| TokenScan.LivesAddNothing | internal/edc/ai_sources.go:613-771 | Counting each life of a message by itself gives at least what counting each message once gives, and the same if and only if no message has counts in two of its lives |
| TokenScan.IncrementalIsBatch | internal/edc/ai_sources.go:613-771 | Whatever the scans were, as long as nothing was too old, the totals are those of all records of what was read, taken at once in any order |
| TokenScan.ScheduleDoesNotMatter | internal/edc/ai_sources.go:613-771 | Two such scanners that read the same text in whatever scans have the same totals, and the same requests when no message has both an empty and a full record |
| CodexScan.Session.Line | internal/edc/ai_sources.go:775-794 | A line with running totals adds its growth over the line before |
| CodexScan.AddsUpToLast | internal/edc/ai_sources.go:775-794 | While the counts only grow, what the lines add is what the last of them says, cached input counted once |
| CodexScan.RepeatAddsNothing | internal/edc/ai_sources.go:775-794 | A repeated line adds nothing and is no request |
| ClaudePacing.Collector.constructor | internal/edc/ai.go:131-167 | A restart keeps every earlier call's spacing; the backoff goes on within one more backoff after the next try, and is gone later |
| ClaudePacing.RefusalsDouble | internal/edc/ai.go:252-268 | Polled every five minutes or more often, refused calls double the interval, from five minutes or the backoff there was, up to 30 minutes |
| ClaudePacing.ThreeRefusals | internal/edc/ai.go:252-268 | However often it is polled, three refused calls reach the 30 minutes, and more stay there |
| ClaudePacing.Collector.Every | internal/edc/ai.go:260-268 | The interval is the largest of the backoff, five minutes and the interval asked for |
| ClaudePacing.Collector.Poll | internal/edc/ai.go:179-219 | A poll calls exactly when it is due within a second; what is saved then tells of this call; the backoff never shrinks |
| ClaudePacing.Run | internal/edc/ai.go:131-257 | Over any run of polls and restarts, no call comes before an earlier successful or refused call's time plus the larger of its backoff and five minutes, less a second; the backoff is at most 30 minutes |
| StatuslineWrap.QuoteUndone | internal/edc/ai_statusline.go:346-363 | Unquoting a quoted text gives the text, whatever it holds |
| StatuslineWrap.WrapUndone | internal/edc/ai_statusline.go:314-338 | Unwrapping a wrapped one-line command gives the command |
| StatuslineWrap.LinesNotUndone | internal/edc/ai_statusline.go:314-338 | A wrapped command with a newline is not unwrapped |
| StatuslineWrap.EditStatusline | internal/edc/ai_statusline.go:240-304 | The edit of the members, in place, is the edit function on their list |
| StatuslineWrap.UninstallRestores | internal/edc/ai_statusline.go:240-304 | Install and then uninstall gives back the ordered members if and only if there was no statusLine, or a one-line command, or a typed statusLine with more members and no command |

## Left out

- Terminal rendering, tables, translations, flag parsing, prompts and progress screens: presentation.
- HTTP, SSH, Docker, systemd, `ps` and the Codex RPC client: their answers are arbitrary inputs.
- Wrap-around of 64-bit counters and sums: counts are unbounded numbers (the 64-bit bound of JSON integers is modelled).
- TCP trace: per-second rates, sorting and JSON of a report; the ports of the host are constant during a trace; uncounted traffic details of UDP and HTTP events.
- Kernel maps never evict and per-CPU lookups do not fail; failing reads, writes of records and user memory are modelled.
- TlsPrefix.Advance: what the alert watch finds after a hello is an input, since it depends on read boundaries on purpose.
- StreamCapture.Streams.CaptureReceived: the received side only; offsets of h2c sends, which come from the TCP write sequence, and the records of a TLS hello are not modelled.
- JSON reader: decoding of skipped strings, timestamps and field values; callbacks of arrays and objects are always the skipping ones.
- ChangeGuard.ChangedUnderGuard: a confirm that cannot stop the timer looks whether it is active in the same step; apply with --yes, which confirms before it lets go of its lock, is apply and then a confirm.
- ChangeRollback.WhatIsReplaced: a file's mode and owner and its data are read in one step; the program looks and then reads, and an edit between the two calls is not modelled.
- Protected change: the syntax of rules, private-key checks and the counters left out of listings; a listing is compared as it is given.
- compress --rm: leases and the search for writers are inputs; file times are an input; digests are taken to be injective; the other processes are assumed to leave the program's own temporary name in the shared directory alone.
- CleanWalk.ChildWalk.VisitAll: what a measurement of a whole path says is an input, all its blocks unless it says otherwise; counts of entries, unreadable paths and a file that disappears between two steps of the walk are not modelled.
- Disk accounting: choosing candidates, Xcode folder checks, file system sums and sorting.
- Overlay: sorting and cutting of the image list, names and tags.
- Token scan: parsing of a line is a parameter; per-second stamps, rows and windows of a snapshot are sums of the same buckets.
- ClaudePacing.Run: one process at a time, an advancing clock and successful writes of the state file, as the program assumes; the snapshot file read on macOS is not rate limited.
- Statusline: encoding of the settings file, its backup and permissions; the two wrapper patterns are modelled by the texts they accept.
- `check`, `audit`, `alias`, `changes` and the other evaluators: single-branch rules.
