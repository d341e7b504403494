# Verified model of the microservice toolbox

This project models the parts of the toolbox that hold state machines, tree transforms and
text-rewriting loops, in the languages in which the toolbox implements them (C++, Go, Python,
Rust), and proves what they keep, compute and agree on.

- **Connections.** `Interleaving.dfy` defines threads that interleave, schedules and runs, and
  proves a rely-guarantee rule. `CppConnection.dfy`, `GoConnection.dfy`, `PythonConnection.dfy`
  and `Notification.dfy` are the four locking protocols as machines whose steps are single
  accesses to shared state. A schedule lists which thread moves and what the environment answers,
  so a statement about all schedules is a statement about every interleaving of any number of
  threads.
- **Configuration trees.** `ConfigTree.dfy` (trees and what a reader sees at a path),
  `DeepMerge.dfy` (the three merges and their algebra), `MergeInPlace.dfy` (the Go merge on
  heap objects), `DottedPath.dfy` and `RustConfig.dfy` (dotted reads and writes, command-line
  overrides, addresses), `GoLayers.dfy` (the three layers of the Go loader), `Endpoints.dfy`
  (endpoint validation, printing and splitting of addresses), `EndpointVerdicts.dfy` (where the
  validations of the three languages part ways).
- **Text loops.** `EnvExpansion.dfy` (`${VAR:default}`), `Framing.dfy` (`%s` ports),
  `BraceScanner.dfy` (repair of a settings file), `CommandLine.dfy` (the C++ parser), over the
  string operations of `Text.dfy`.
- **Menu and handlers.** `TeleMenu.dfy`.
- **Delays and retries.** `Backoff.dfy` and `Retry.dfy`.

Code that changes state step by step is modelled by methods and classes with loops; each is
proved against a function, and the properties are proved about that function.

## Where the code falls short of its promise

Each of these is a theorem, with the exact condition where the code does keep the promise.

- The three merges do not behave alike on null values, although the comments promise parity: Go
  skips a null of the source, Python and Rust let it overwrite (`LanguagesAgreeIff`).
- Merging three layers is not associative when a path is a mapping, then a leaf, then a mapping
  again, and the first layer adds something to the third there (`AssociativeIff`; with null as a
  leaf `PythonAssociativeIff` and `RustAssociativeIff`).
- A Go reconnect that takes leadership directly overwrites a live connection without closing it
  (`DirectLeaderLosesIffLive`, `LossIsReachable`). That can happen exactly if some goroutine may
  call `reconnect` or two may write (`GoConnection.LossIsPossibleIff`).
- A Go `Write` can call a nil connection exactly if two goroutines may write
  (`PanicIsReachableIff`).
- In Python a thread that waited for a reconnect which succeeded dials again and loses the
  connection it waited for (`ServedWaiterLosesConnection`), under exactly the same condition on
  the callers (`PythonConnection.LossIsPossibleIff`), and `close` keeps the connection closed
  exactly if no call under way will reconnect (`CloseKeepsClosedIff`, `CloseDoesNotStopLeader`).
- A C++ `Send` that is woken by a close can dereference a null socket, exactly when no socket was
  ever created and under exactly the settings that allow an attempt (`FirstUseFaultsIff`,
  `FaultIsReachableIff`).
- Go's command-line overrides panic for a dotted target that is not already a mapping
  (`LayeringPanicsIff`).
- C++ reads the port of an address without a colon as empty, the other languages as the whole
  address (`CppExtractsLikeGoIff`).
- The Rust endpoint validation also rejects conflicts among ports that are not positive
  (`RustVerdictAgreesIff`, `ZeroPortsDiffer`); the C++ one reads a numeric prefix such as `8x` as
  a port, skips empty hosts and ports beyond 32 bits, and does not trim (`CppReadsLikeGoIff`,
  `VerdictsAgreeIff`, `TrailingTextDiffers`).
- The C++ command line does not read back what it was given if a specific flag clashes with
  another flag (`ParseRenderRoundTripIff`).
- With the same `MaxRetries`, an initial connect and a C++ reconnect give up one attempt earlier
  than the other reconnects (`LoopsDisagreeIff`).
- Rust expands environment values again exactly if they can open a token (`AgreeIff`), and the
  `%s` loop misplaces exactly the ports that can form a placeholder (`PlainPortIff`).
- A callback on a menu entry that has a sub-menu is registered but gets no button
  (`RoutedWithoutButtonIff`), and equal labels route to the last entry (`EveryButtonRunsItsOwnIff`).

## Model

| member | source | states |
|---|---|---|
| CppConnection.NoSocketLeaks | cpp/include/microservice_toolbox/conn_manager/ManagedConnection.hpp:95-119 | In every interleaving each socket ever created is the held one or has been closed. |
| CppConnection.LockDiscipline | cpp/include/microservice_toolbox/conn_manager/ManagedConnection.hpp:47-119 | A thread owns the mutex exactly at the points that touch the socket, never while it sleeps, and no two threads do. |
| CppConnection.AtMostOneLateCreation | cpp/include/microservice_toolbox/conn_manager/ManagedConnection.hpp:81-115 | Once `closed_` is set, at most one more creation is attempted in any continuation. |
| CppConnection.CloseIsFinal | cpp/include/microservice_toolbox/conn_manager/ManagedConnection.hpp:81-87 | After the winning Close returned, every socket is closed, none is ever created again and the held one never changes. |
| CppConnection.AttemptsAreLimited | cpp/include/microservice_toolbox/conn_manager/ManagedConnection.hpp:95-121 | In every run no call of Reconnect attempts more than `max_retries` creations, unless that is -1. |
| CppConnection.FirstUseFaultsIff | cpp/include/microservice_toolbox/conn_manager/ManagedConnection.hpp:51-53 | The first use of the socket dereferences null exactly when no socket was ever created, and then only under a concurrent close. |
| CppConnection.ConnectedConnectionNeverFaults | cpp/include/microservice_toolbox/conn_manager/ManagedConnection.hpp:47-79 | A connection established once never dereferences null, in any continuation. |
| CppConnection.FaultIsReachable | cpp/include/microservice_toolbox/conn_manager/ManagedConnection.hpp:113-115 | The interleaving that reaches the null dereference: failed creation, close during the sleep, early return. |
| CppConnection.NoAttemptsNoFault | cpp/include/microservice_toolbox/conn_manager/ManagedConnection.hpp:99-121 | A setting that allows no attempt never creates a socket and never faults. |
| CppConnection.FaultIsReachableIff | cpp/include/microservice_toolbox/conn_manager/ManagedConnection.hpp:99-115 | The null dereference can happen exactly when `max_retries` allows an attempt. |
| CppConnection.LoneUse | cpp/include/microservice_toolbox/conn_manager/ManagedConnection.hpp:47-53 | A use of a held socket that works uses it under the mutex and changes nothing. |
| CppConnection.LoneUseConnects | cpp/include/microservice_toolbox/conn_manager/ManagedConnection.hpp:47-53 | A use that finds no socket creates one, holds it and uses it. |
| CppConnection.LoneUseRecovers | cpp/include/microservice_toolbox/conn_manager/ManagedConnection.hpp:52-60 | A use whose first use fails closes the old socket, holds a new one and uses that one. |
| CppConnection.LoneReconnect | cpp/include/microservice_toolbox/conn_manager/ManagedConnection.hpp:90-104 | Reconnect alone closes the held socket, if any, and holds a new one. |
| CppConnection.AttemptKeepsSocket | cpp/include/microservice_toolbox/conn_manager/ManagedConnection.hpp:100-114 | When closing the old socket throws, nothing is created, the old socket stays held and the loop sleeps without the mutex. |
| CppConnection.FailingLoopGivesUp | cpp/include/microservice_toolbox/conn_manager/ManagedConnection.hpp:99-121 | A loop whose creations all fail ends after exactly the allowed attempts, with the mutex released. |
| CppConnection.ClosedLoopStops | cpp/include/microservice_toolbox/conn_manager/ManagedConnection.hpp:99-121 | The loop makes no attempt once `closed_` is set. |
| CppConnection.ClosedWhileSleeping | cpp/include/microservice_toolbox/conn_manager/ManagedConnection.hpp:56-60 | A close during the sleep ends a Reconnect, and a recovering use without a second use. |
| CppConnection.LoneClose | cpp/include/microservice_toolbox/conn_manager/ManagedConnection.hpp:81-87 | Close alone closes the held socket, if any. |
| CppConnection.LoneCloseThrows | cpp/include/microservice_toolbox/conn_manager/ManagedConnection.hpp:81-87 | When closing the socket throws, the object is closed and the socket is not. |
| CppConnection.ClosedCallsDoNothing | cpp/include/microservice_toolbox/conn_manager/ManagedConnection.hpp:49-49 | On a closed object a use and a second close change nothing. |
| GoConnection.OneLeader | go/pkg/conn_manager/connection.go:128-218 | `reconnecting` is set exactly while one goroutine is inside the retry loop, and never two are. |
| GoConnection.EveryDialIsAccountedFor | go/pkg/conn_manager/connection.go:172-189 | Every connection ever dialed was installed or closed, or is in the hands of a goroutine about to do one of the two. |
| GoConnection.NothingIsInstalledAfterClosing | go/pkg/conn_manager/connection.go:108-189 | Once `closing` is closed nothing is installed again, at most one more dial is made, and its connection is closed. |
| GoConnection.CloseIsFinal | go/pkg/conn_manager/connection.go:108-124 | After any Close returned, `currentConn` is nil or closed in every continuation. |
| GoConnection.GuardedRunsLoseNothing | go/pkg/conn_manager/connection.go:128-189 | If leadership is never taken directly over a live connection, every connection dialed is current, closed or carried. |
| GoConnection.LoneReconnect | go/pkg/conn_manager/connection.go:128-189 | An undisturbed reconnect whose dial succeeds installs the new connection and clears the flag. |
| GoConnection.DirectLeaderLosesIffLive | go/pkg/conn_manager/connection.go:155-158 | Taking leadership directly loses exactly the live connection it finds. |
| GoConnection.LostIff | go/pkg/conn_manager/connection.go:172-189 | In every run a step loses a connection exactly when it installs another one over a live one. |
| GoConnection.LossIsReachable | go/pkg/conn_manager/connection.go:155-158 | One background reconnect and one write suffice to overwrite a live connection without closing it. |
| GoConnection.TwoWritersLose | go/pkg/conn_manager/connection.go:56-63 | So do any two writers. |
| GoConnection.LoneWriterLosesNothing | go/pkg/conn_manager/connection.go:51-218 | One writer, with anybody closing, never loses a connection. |
| GoConnection.LossIsPossibleIff | go/pkg/conn_manager/connection.go:51-218 | A loss is possible exactly if some goroutine may call `reconnect` or at least two may call `Write`. |
| GoConnection.SingleWriterNeverPanics | go/pkg/conn_manager/connection.go:51-82 | With one writing goroutine, Write never meets a nil connection after a successful reconnect. |
| GoConnection.TwoWritersPanic | go/pkg/conn_manager/connection.go:56-65 | The schedule on which any two writers reach the call on a nil connection. |
| GoConnection.PanicIsReachableIff | go/pkg/conn_manager/connection.go:51-82 | A call on a nil connection can happen exactly if at least two goroutines may call Write. |
| GoConnection.AttemptsAreLimited | go/pkg/conn_manager/connection.go:161-217 | In every run no leader dials more than `MaxRetries` + 1 times, unless that is -1. |
| GoConnection.LoneWrite | go/pkg/conn_manager/connection.go:51-65 | A write over a connection that works uses it under the mutex and changes nothing. |
| GoConnection.LoneWriteConnects | go/pkg/conn_manager/connection.go:55-65 | A write that finds no connection dials one, installs it and is sent over it. |
| GoConnection.LoneWriteHeals | go/pkg/conn_manager/connection.go:65-82 | A write whose first send fails closes that connection, installs a new one and sends again over it under the mutex. |
| GoConnection.LoneWriteGivesUp | go/pkg/conn_manager/connection.go:56-61 | A write whose dials all fail returns and leaves the object as it was. |
| GoConnection.FailingLeaderGivesUp | go/pkg/conn_manager/connection.go:161-197 | A leader whose dials all fail ends after exactly `MaxRetries` + 1 of them, with the flag cleared. |
| GoConnection.WaiterIsServed | go/pkg/conn_manager/connection.go:139-144 | A waiter that finds a connection returns to its own caller without a dial. |
| GoConnection.WaiterTakesOver | go/pkg/conn_manager/connection.go:145-151 | A waiter that finds the flag cleared and no connection leads. |
| GoConnection.ClosingStopsLeader | go/pkg/conn_manager/connection.go:165-170 | A leader that sees `closing` gives up without a dial. |
| GoConnection.ClosingWakesLeader | go/pkg/conn_manager/connection.go:207-214 | `Close` ends the sleep of a leader, which gives up. |
| GoConnection.ClosingDiscardsDial | go/pkg/conn_manager/connection.go:173-182 | A connection dialed while the object closed is closed instead of installed. |
| GoConnection.LoneClose | go/pkg/conn_manager/connection.go:108-124 | Close sets `closing` and closes the current connection, which stays in the field. |
| PythonConnection.OneLeader | python/microservice_toolbox/conn_manager/connection.py:110-137 | `_reconnecting` is set exactly while one thread is inside the retry loop, never two are, and what it installs is the newest connection. |
| PythonConnection.SendsAreOnInstalledConnections | python/microservice_toolbox/conn_manager/connection.py:51-93 | A send is only ever made on a connection that was installed, never on None; the current one was never closed. |
| PythonConnection.LostIff | python/microservice_toolbox/conn_manager/connection.py:127-134 | In every run a step loses a connection exactly when it installs another one over it. |
| PythonConnection.GuardedRunsLoseNothing | python/microservice_toolbox/conn_manager/connection.py:110-137 | If leadership is never taken over a current connection, every connection dialed is current, closed or carried. |
| PythonConnection.LoneReconnect | python/microservice_toolbox/conn_manager/connection.py:110-134 | An undisturbed reconnect whose dial succeeds installs the new connection and clears the flag. |
| PythonConnection.ServedWaiterLosesConnection | python/microservice_toolbox/conn_manager/connection.py:114-121 | A thread at the top of reconnect that finds the flag cleared dials again and loses exactly the current connection. |
| PythonConnection.TwoWritersLose | python/microservice_toolbox/conn_manager/connection.py:51-64 | Any two writing threads can lose a connection, without any failure of the network. |
| PythonConnection.LoneWriterLosesNothing | python/microservice_toolbox/conn_manager/connection.py:51-137 | One writing thread, with anybody closing, never loses a connection. |
| PythonConnection.LossIsPossibleIff | python/microservice_toolbox/conn_manager/connection.py:51-137 | A loss is possible exactly if some thread may call `reconnect` or at least two may call `write`. |
| PythonConnection.CloseDoesNotStopLeader | python/microservice_toolbox/conn_manager/connection.py:97-106 | Whenever a thread is dialing and another closes, the dialed connection is installed afterwards and stays open. |
| PythonConnection.StaysUnconnectedIff | python/microservice_toolbox/conn_manager/connection.py:51-134 | Without a current connection, the calls under way install one in some continuation exactly if some thread is at a point from which it still reconnects. |
| PythonConnection.CloseKeepsClosedIff | python/microservice_toolbox/conn_manager/connection.py:97-134 | So `close` keeps the connection closed against the calls under way exactly if none of them will reconnect. |
| PythonConnection.AttemptsAreLimited | python/microservice_toolbox/conn_manager/connection.py:123-150 | In every run no leader dials more than `max_retries` + 1 times, unless that is -1. |
| PythonConnection.LoneWrite | python/microservice_toolbox/conn_manager/connection.py:51-69 | A write over a connection that works sends on it and changes nothing. |
| PythonConnection.LoneWriteConnects | python/microservice_toolbox/conn_manager/connection.py:58-69 | A write that finds no connection dials one, installs it and is sent over it. |
| PythonConnection.LoneWriteHeals | python/microservice_toolbox/conn_manager/connection.py:67-93 | A write whose first send fails closes that connection, installs a new one and sends again over it. |
| PythonConnection.OtherConnectionIsKept | python/microservice_toolbox/conn_manager/connection.py:74-80 | A failed send drops only the connection it was made on. |
| PythonConnection.UnservedWriteFails | python/microservice_toolbox/conn_manager/connection.py:64-65 | A write that returns from `reconnect` to no connection fails without another attempt. |
| PythonConnection.WaiterIsServed | python/microservice_toolbox/conn_manager/connection.py:114-120 | While another thread leads, a waiter that finds a connection returns to its own caller. |
| PythonConnection.FailingLeaderGivesUp | python/microservice_toolbox/conn_manager/connection.py:123-141 | A leader whose dials all fail ends after exactly `max_retries` + 1 of them, with the flag cleared. |
| PythonConnection.LoneClose | python/microservice_toolbox/conn_manager/connection.py:97-106 | `close` closes and forgets the current connection. |
| Notification.AtMostOneDial | go/pkg/notification/client.go:176-206 | In every interleaving at most one dial succeeds and every sender is given its client. |
| Notification.FieldsAgree | go/pkg/notification/client.go:159-206 | Outside the write lock `conn` and `client` are set or unset together; readers never overlap a writer. |
| Notification.ClosedIsQuiet | go/pkg/notification/client.go:159-206 | Once closed no dial is attempted, and the dialed connection is closed. |
| Notification.ClosedFixesDials | go/pkg/notification/client.go:159-171 | `closed` is never undone and fixes the number of dials. |
| Notification.LoneSenderConnects | go/pkg/notification/client.go:190-205 | A sender on an open client without a connection dials one, publishes it and is given its client. |
| Notification.LoneSendConnects | go/pkg/notification/client.go:175-205 | The same from the start of the call. |
| Notification.LoneSenderIsAnswered | go/pkg/notification/client.go:181-185 | A sender that finds a client is given it, without the write lock and without a dial. |
| Notification.LoneSenderIsRefused | go/pkg/notification/client.go:177-180 | On a closed client a sender is refused. |
| Notification.LoneSenderFails | go/pkg/notification/client.go:198-201 | A failing dial refuses the sender and changes nothing. |
| Notification.SecondCheckServes | go/pkg/notification/client.go:188-196 | Under the write lock a closed client refuses and a client published meanwhile is given out, without a dial. |
| Notification.LoneClose | go/pkg/notification/client.go:159-171 | Close alone closes and forgets the connection, if there is one. |
| ConfigTree.BlockedIff | go/pkg/config/merger.go:27-38 | A path is blocked exactly when a proper prefix of it is a leaf. |
| DeepMerge.RustDeepMerge | rust/src/config/merger.rs:20-32 | The loop computes the Rust merge, in any key order. |
| DeepMerge.PythonDeepMerge | python/microservice_toolbox/config/merger.py:24-36 | The loop computes the Python merge, in any key order. |
| DeepMerge.RustMergesLikePython | rust/src/config/merger.rs:21-31 | Rust and Python compute the same tree on all mappings, nulls included. |
| DeepMerge.LanguagesAgreeIff | go/pkg/config/merger.go:22-38 | Go agrees with Python and Rust exactly when every null of the source meets a null where the trees are merged. |
| DeepMerge.LanguagesAgreeOnNullFree | rust/src/config/merger.rs:15-32 | On null-free sources the three languages compute the same tree. |
| DeepMerge.MergeLaw | go/pkg/config/merger.go:18-41 | Lookup at every path: the source wins, a source leaf on a proper prefix hides the rest, otherwise the destination shows. |
| DeepMerge.MergeIsIdempotent | go/pkg/config/merger.go:18-41 | Go: merging the same source twice is merging it once; merging a tree into itself changes nothing. |
| DeepMerge.AssociativeAt | go/pkg/config/merger.go:18-41 | The exact paths at which the two groupings of three layers differ. |
| DeepMerge.AddsNothingIff | go/pkg/config/merger.go:18-41 | Merging a tree over another gives it back exactly if it decides everything the other has and brings no null of its own. |
| DeepMerge.AssociativeIff | go/pkg/config/merger.go:18-41 | Go: three layers merge associatively exactly if, wherever a path is a mapping, a leaf and a mapping again, the first layer adds nothing to the third; nulls included. |
| DeepMerge.AssociativeWithoutFlips | go/pkg/config/merger.go:18-41 | In particular always when no path flips. |
| DeepMerge.SolidMerge | python/microservice_toolbox/config/merger.py:24-36 | Python merges as Go does once null is a leaf like any other. |
| DeepMerge.PythonMergeLaw | python/microservice_toolbox/config/merger.py:24-36 | The lookup law of Python and Rust, with null as a leaf. |
| DeepMerge.PythonMergeIsIdempotent | python/microservice_toolbox/config/merger.py:24-36 | Python: idempotence on all mappings, nulls included. |
| DeepMerge.PythonAssociativeIff | python/microservice_toolbox/config/merger.py:24-36 | Python: associativity under the same exact condition, with null as a leaf, on all mappings. |
| DeepMerge.PythonAssociativeWithoutFlips | python/microservice_toolbox/config/merger.py:24-36 | In particular always when no path flips. |
| DeepMerge.RustMergeIsIdempotent | rust/src/config/merger.rs:20-32 | Rust: idempotence on all pairs of values. |
| DeepMerge.RustAssociativeIff | rust/src/config/merger.rs:20-32 | Rust: associativity on all values, scalar files included, under the same exact condition as Python. |
| DeepMerge.RustAssociativeWithoutFlips | rust/src/config/merger.rs:20-32 | In particular always when no path flips. |
| MergeInPlace.GoDeepMerge | go/pkg/config/merger.go:18-41 | On heap-disjoint trees the in-place merge terminates, leaves every source object unchanged, writes only destination objects, and its result refines the pure merge although subtrees are shared. |
| MergeInPlace.GoMergeInto | go/pkg/config/merger.go:22-39 | The loop over the keys, in any order, refines the pure merge. |
| MergeInPlace.GoMergeChild | go/pkg/config/merger.go:32-34 | Recursing into one child leaves its siblings as they were. |
| MergeInPlace.GoMergeKey | go/pkg/config/merger.go:23-38 | One iteration: skip, recurse or overwrite. |
| MergeInPlace.VisitKeepsPartial | go/pkg/config/merger.go:22-38 | After any subset of keys the destination is the merge restricted to them. |
| DottedPath.GetAfterSet | rust/src/config/loader.rs:478-514 | Reading at or below a path just written reads inside the written value. |
| DottedPath.GetAboveSet | rust/src/config/loader.rs:478-514 | Reading above it sees the old value with the write made inside it. |
| DottedPath.SetLeavesOthers | rust/src/config/loader.rs:478-514 | A write changes no read at a path that is neither a prefix nor an extension, even when it replaces scalars. |
| DottedPath.SecondSetWins | rust/src/config/loader.rs:478-501 | The second write at a path wins. |
| DottedPath.SetsCommute | rust/src/config/loader.rs:478-501 | Writes at incomparable paths commute. |
| DottedPath.SetValue | rust/src/config/loader.rs:478-501 | The cursor loop computes the recursive write at the split path. |
| DottedPath.GetValue | rust/src/config/loader.rs:503-514 | The lookup loop computes the recursive read at the split path. |
| DottedPath.CapPathSplits | rust/src/config/loader.rs:460-464 | The formatted capability path splits into its parts for every name, dots included. |
| RustConfig.AppConfig.ApplyCliOverrides | rust/src/config/loader.rs:332-357 | The override sequence: name first, then the four fields of the target resolved afterwards. |
| RustConfig.AppConfig.OverrideField | rust/src/config/loader.rs:341-357 | One flag: written as a string under the target, or nothing. |
| RustConfig.AppConfig.OverrideName | rust/src/config/loader.rs:333-335 | The name flag writes `common.name`. |
| RustConfig.AppConfig.ResolveTarget | rust/src/config/loader.rs:337-339 | The target: flag, else configured name, else the default. |
| RustConfig.AppConfig.ResolveAddr | rust/src/config/loader.rs:460-472 | Address resolution with its three errors and the host fallback. |
| RustConfig.FlagsDecideFields | rust/src/config/loader.rs:332-357 | Every field of the target is its flag's value, or what it was without one. |
| RustConfig.FlagsDecideAddress | rust/src/config/loader.rs:332-357 | Host and port flags determine the target's address. |
| RustConfig.OtherCapabilitiesKeepAddresses | rust/src/config/loader.rs:332-357 | All addresses of every other capability stay, unless one name is a dotted prefix of the other. |
| RustConfig.DotFreeCapabilitiesKeepAddresses | rust/src/config/loader.rs:332-357 | In particular for all dot-free names. |
| RustConfig.FlagsReachTarget | rust/src/config/loader.rs:332-357 | With a name flag the flags go to that capability and the name becomes the common name; else to the configured name, else to `config_server`; ports are stored as numerals of their value. |
| RustConfig.AddressIsRead | rust/src/config/loader.rs:460-472 | An address is the host at its key, or else at `ip`, a colon, and the port as text, integer or other number. |
| RustConfig.AddressFails | rust/src/config/loader.rs:460-470 | Exactly when each of the three errors is returned. |
| GoLayers.AppConfig.LoadLayers | go/pkg/config/loader.go:115-119 | The phases of loading after the base compute the three layers, with the target resolved from the name that the file leaves, and panic exactly when the layering does. |
| GoLayers.AppConfig.EnsurePathOf | go/pkg/config/loader.go:348-363 | Only the part of the target before its first dot is made a mapping. |
| GoLayers.AppConfig.Overwrite | go/pkg/config/loader.go:315-324 | A pair of flags written into the target, or the panic of the type assertion. |
| GoLayers.AppConfig.ApplyCLIOverrides | go/pkg/config/loader.go:302-325 | TCP flags: target resolution, write, panic. |
| GoLayers.AppConfig.ApplyCLIGRPCOverrides | go/pkg/config/loader.go:327-346 | The same for the gRPC flags. |
| GoLayers.WriteFlagsPanicsIff | go/pkg/config/loader.go:315-317 | The override panics exactly when a flag is given for a dotted target that is not a mapping. |
| GoLayers.WriteFlagsLaw | go/pkg/config/loader.go:315-324 | After a pair of flags, the two fields of the target are theirs and no view at or below any other field changes, for every target that does not panic. |
| GoLayers.LayeringPanicsIff | go/pkg/config/loader.go:302-363 | Loading panics exactly when a flag is given for a dotted target that base and file do not make a mapping. |
| GoLayers.HighestLayerWins | go/pkg/config/loader.go:194-346 | Strict priority at and below every field of every capability: flags over file over base. |
| GoLayers.FlagsReachTarget | go/pkg/config/loader.go:302-346 | The flags go to the capability named by the flag, else by the name that base and file leave, else to `config_server`; a stored port reads back as the flag, and every other field shows the merge of base and file. |
| GoLayers.OtherCapabilitiesStay | go/pkg/config/loader.go:348-363 | No other capability changes, except that the first part of a dotted target becomes a mapping. |
| Endpoints.ValidateUniquePorts | go/pkg/config/loader.go:392-442 | In each language the validation accepts exactly when no two endpoints of the configured capabilities conflict, whatever the iteration order; a reported duplicate is a conflict. |
| Endpoints.CheckAndAdd | cpp/include/microservice_toolbox/config/AppConfig.hpp:224-237 | Accepting an endpoint never overwrites an entry of `seen`. |
| Endpoints.FindConflict | rust/src/config/loader.rs:609-624 | The inner search finds a conflicting endpoint if there is one. |
| Endpoints.PrintedAddressSplits | rust/src/config/loader.rs:626-633 | host:port split at the last colon gives back both, for any host and any colon-free port. |
| Endpoints.PrintedRecordIsRead | go/pkg/config/loader.go:399-412 | Each language reads back exactly the printed (host, port) records that count for it: any host for Go and Rust, a non-empty one and a 32-bit port for C++. |
| Endpoints.ValidatesRecords | go/pkg/config/loader.go:392-442 | Validating printed addresses is validating the records, in every language, for any hosts and ports. |
| Endpoints.LanguagesValidateAlike | rust/src/config/loader.rs:592-647 | On printed records with trimmed hosts and positive 32-bit ports the three validations reach the same verdict. |
| Endpoints.TwoRecordsConflictIff | go/pkg/config/loader.go:392-442 | Two printed records with plain hosts are rejected exactly if they share a port and a host, where 0.0.0.0 is every host. |
| Endpoints.LocalhostIsLoopback | go/pkg/config/loader.go:384-390 | `localhost` in any case is 127.0.0.1, in Go and Rust with white space around it. |
| Endpoints.CaseIsIgnored | cpp/include/microservice_toolbox/config/AppConfig.hpp:215-220 | The case of letters never tells hosts apart, and padding does not in Go and Rust. |
| EndpointVerdicts.RustAcceptsIff | rust/src/config/loader.rs:592-647 | Rust rejects what Go rejects, and besides exactly the conflicts among ports that are zero or negative. |
| EndpointVerdicts.RustVerdictAgreesIff | rust/src/config/loader.rs:592-647 | The verdicts of Rust and Go agree exactly if no such conflict hides in what Go accepts. |
| EndpointVerdicts.ZeroPortsDiffer | rust/src/config/loader.rs:626-633 | Two capabilities at port zero of one host, such as 0.0.0.0, are accepted by Go and a duplicate for Rust. |
| EndpointVerdicts.CppReadsLikeGoIff | cpp/include/microservice_toolbox/config/AppConfig.hpp:239-251 | The exact addresses that C++ and Go count as the same endpoint, or both as none. |
| EndpointVerdicts.SharedAddressDiffers | cpp/include/microservice_toolbox/config/AppConfig.hpp:224-251 | Two capabilities that share an address which only one of two languages counts get different verdicts. |
| EndpointVerdicts.TrailingTextDiffers | cpp/include/microservice_toolbox/config/AppConfig.hpp:239-251 | For instance every address whose port has text behind it, such as 8x, is counted by C++ and not by Go. |
| EndpointVerdicts.VerdictsAgreeIff | cpp/include/microservice_toolbox/config/AppConfig.hpp:201-263 | C++ and Go reach the same verdict wherever an address stands beside addresses both read alike, exactly if they read it alike too or both count it with a blank host. |
| Endpoints.CppNormalizesLikeGoIff | cpp/include/microservice_toolbox/config/AppConfig.hpp:215-220 | Without trimming, a host is normalised as with it exactly if there is nothing to trim. |
| Endpoints.GoExtractsLikeRust | go/pkg/spec/spec.go:79-88 | Last piece of a split equals text after the last colon, for every address. |
| Endpoints.CppExtractsLikeGoIff | cpp/include/microservice_toolbox/spec/spec.hpp:285-288 | C++ extracts the same port exactly for addresses that are empty or contain a colon. |
| Endpoints.ExtractedPortIsPrintedPort | rust/src/spec.rs:376-384 | On printed addresses all extractors recover the port. |
| Endpoints.ColonlessAddress | rust/src/spec.rs:376-384 | An address without a colon is its own port in Go and Rust and has none in C++. |
| Text.PrintedIntIsRead | cpp/include/microservice_toolbox/config/CommandLine.hpp:66-76 | `std::stoi` reads back a printed integer exactly if it fits in 32 bits. |
| EnvExpansion.RustExpand | rust/src/config/loader.rs:312-327 | The loop replaces each captured token everywhere, one after the other. |
| EnvExpansion.RustExpandsLikePython | python/microservice_toolbox/config/loader.py:295-304 | For documents whose dollars only start tokens and values that cannot open a token, Rust's repeated replacement is Python's single pass. |
| EnvExpansion.PythonExpandsDefault | python/microservice_toolbox/config/loader.py:295-303 | A token with a default expands to the variable if it is set and else to the default, further colons included; the rest is expanded on its own. |
| EnvExpansion.PythonExpandsVariable | python/microservice_toolbox/config/loader.py:295-303 | A token without a colon expands to the variable, or to nothing. |
| EnvExpansion.PythonKeepsText | python/microservice_toolbox/config/loader.py:303-303 | Text without a dollar sign is kept. |
| EnvExpansion.EmptyTokenIsKept | python/microservice_toolbox/config/loader.py:303-303 | Empty braces are no token. |
| EnvExpansion.PythonKeepsUnclosed | python/microservice_toolbox/config/loader.py:303-303 | A document without a closing brace is kept. |
| EnvExpansion.RustExpandsDefault | rust/src/config/loader.rs:317-327 | Rust expands a lone token with a default to the variable if it is set and else to the default, whatever they contain. |
| EnvExpansion.RustExpandsVariable | rust/src/config/loader.rs:317-327 | And a lone token without one to the variable, or to nothing. |
| EnvExpansion.ReplaceOneToken | rust/src/config/loader.rs:326-326 | A global replacement replaces exactly the occurrences of its own token in a partly expanded document. |
| EnvExpansion.AgreeIff | rust/src/config/loader.rs:319-327 | A value cannot open a token exactly if Rust and Python agree on every such document and environment whose other values cannot open one either. |
| EnvExpansion.OpenValueDiffers | rust/src/config/loader.rs:319-327 | For every value that can open a token, a document and an environment on which Rust's text is shorter. |
| BraceScanner.ScanObject | python/microservice_toolbox/utils/mcp_ai_config.py:100-122 | The loop with its three variables computes the scan. |
| BraceScanner.ScanStopsAtMatchingBrace | python/microservice_toolbox/utils/mcp_ai_config.py:100-122 | The scan stops exactly at the brace that closes the object, for any nesting, strings, escapes and surrounding text. |
| BraceScanner.UnclosedObjectHasNoEnd | python/microservice_toolbox/utils/mcp_ai_config.py:100-122 | For an object that is never closed the scan finds no end. |
| BraceScanner.Repair | python/microservice_toolbox/utils/mcp_ai_config.py:91-122 | The search, scan and splice of the repair. |
| BraceScanner.RepairPreservesTheRest | python/microservice_toolbox/utils/mcp_ai_config.py:91-122 | The splice empties the object of the first key and keeps everything before the key and after the brace verbatim. |
| BraceScanner.KeylessTextIsKept | python/microservice_toolbox/utils/mcp_ai_config.py:91-95 | The splice keeps a text without the key. |
| BraceScanner.UnclosedObjectIsKept | python/microservice_toolbox/utils/mcp_ai_config.py:100-122 | The splice keeps a text that ends inside the object of its first key. |
| Framing.CountPlaceholders | cpp/include/microservice_toolbox/spec/spec.hpp:311-316 | The counting loop counts every position at which `%s` occurs. |
| Framing.InterpolatePorts | cpp/include/microservice_toolbox/spec/spec.hpp:304-328 | It fails exactly when placeholders outnumber the available ports; otherwise it replaces once per placeholder. |
| Framing.AvailablePorts | rust/src/spec.rs:156-159 | The non-empty ports, tcp first and grpc last. |
| Framing.ReplacingIsInterleaving | cpp/include/microservice_toolbox/spec/spec.hpp:322-327 | For ports that cannot form a placeholder, the find-and-replace loop equals one simultaneous interleaving of literals and ports. |
| Framing.LiteralsRejoin | cpp/include/microservice_toolbox/spec/spec.hpp:311-316 | The literals hold no placeholder and rejoin to the text with `%s` between them. |
| Framing.EachIterationRemovesOne | rust/src/spec.rs:165-167 | Every iteration removes exactly one placeholder. |
| Framing.NoneRemain | rust/src/spec.rs:165-167 | After n iterations n placeholders fewer are left. |
| Framing.NumericPortsAreInterleaved | cpp/include/microservice_toolbox/spec/spec.hpp:304-328 | With numeric ports: interleaving in tcp, rest, grpc order, and no placeholder is left. |
| Framing.PlainPortIff | cpp/include/microservice_toolbox/spec/spec.hpp:322-327 | A port is put in place by the loop in every framing with two placeholders exactly if it is plain: no placeholder inside, no `s` first, no `%` last. |
| Framing.UnplainPortFails | cpp/include/microservice_toolbox/spec/spec.hpp:322-327 | For every other port, the framing on which the loop misses. |
| Framing.PlaceholderInPortIsFilledInstead | cpp/include/microservice_toolbox/spec/spec.hpp:322-327 | A placeholder inside the first port is filled by the second one, whatever the rest of the framing is. |
| CommandLine.Parse | cpp/include/microservice_toolbox/config/CommandLine.hpp:38-123 | The parser's index loop, with the help exit and the program's base name as default name. |
| CommandLine.FindFlag | cpp/include/microservice_toolbox/config/CommandLine.hpp:54-107 | The chain of flag tests takes the first flag that matches, in either style. |
| CommandLine.Basename | cpp/include/microservice_toolbox/config/CommandLine.hpp:112-120 | The part of a path after its last slash of either kind. |
| CommandLine.ParseRender | cpp/include/microservice_toolbox/config/CommandLine.hpp:46-110 | Settings rendered in either style, with unrelated words between them, are applied in order, for every unambiguous flag table. |
| CommandLine.TableIsUnambiguousIff | cpp/include/microservice_toolbox/config/CommandLine.hpp:78-107 | When the parser's table is unambiguous, in terms of the specific flags. |
| CommandLine.RoundTripsIff | cpp/include/microservice_toolbox/config/CommandLine.hpp:46-110 | The round trip holds for exactly the unambiguous tables of flags. |
| CommandLine.ParseRenderRoundTripIff | cpp/include/microservice_toolbox/config/CommandLine.hpp:38-110 | For the real table it holds exactly if no specific flag is the help flag, repeats a built-in one or starts with another flag and an equals sign. |
| CommandLine.FlagsMeanWhatTheySay | cpp/include/microservice_toolbox/config/CommandLine.hpp:78-95 | Each of the ten built-in flags, in either style, sets its own field, whatever specific flags are added. |
| CommandLine.HelpStops | cpp/include/microservice_toolbox/config/CommandLine.hpp:49-52 | A request for help after any settings ends the parse. |
| CommandLine.TrailingFlagIsIgnored | cpp/include/microservice_toolbox/config/CommandLine.hpp:54-64 | A flag at the end without a value is ignored. |
| CommandLine.ProgramNamesItself | cpp/include/microservice_toolbox/config/CommandLine.hpp:112-120 | Without a name the program is named after the last part of its path. |
| CommandLine.LastTextWins | cpp/include/microservice_toolbox/config/CommandLine.hpp:54-107 | Every text field and extra has its last setting. |
| CommandLine.LastNumberWins | cpp/include/microservice_toolbox/config/CommandLine.hpp:66-87 | A port has its last setting that reads as a number. |
| TeleMenu.TeleClient.AddAction | go/pkg/teleremote/client.go:93-98 | Adding keeps the handler map equal to the fold over the whole forest, so adding one by one is updating at once. |
| TeleMenu.TeleClient.UpdateActions | go/pkg/teleremote/client.go:101-109 | An update makes the map the fold over the new forest. |
| TeleMenu.TeleClient.RegisterHandlersRecursive | rust/src/teleremote/client.rs:173-183 | The recursion stores the callbacks of the tree in preorder. |
| TeleMenu.TeleClient.GenerateMenu | go/pkg/teleremote/client.go:127-139 | One row with one button per action. |
| TeleMenu.TeleClient.Route | go/pkg/teleremote/client.go:296-313 | A command runs the callback of the last node in preorder that carries its label. |
| TeleMenu.StoredIsLastWins | go/pkg/teleremote/client.go:111-118 | The map holds exactly the labels with a callback, each with that of its last bearer. |
| TeleMenu.MenuCommands | go/pkg/teleremote/client.go:142-163 | The menu's commands are the labels of the leaves, in preorder. |
| TeleMenu.MenuCaptions | rust/src/teleremote/client.rs:198-224 | The menu shows every action's label and prompt, in preorder, and nothing else. |
| TeleMenu.MenuShape | go/pkg/teleremote/client.go:127-163 | One row with a single button per action, in order: leaves send their label as a command of type 99, other actions open their sub-menu. |
| TeleMenu.EveryCommandIsRouted | go/pkg/teleremote/client.go:142-163 | Every command at any depth of the menu is in the handler map. |
| TeleMenu.RoutedWithoutButtonIff | go/pkg/teleremote/client.go:148-160 | A routed label has no button exactly when only nodes with sub-menus carry it. |
| TeleMenu.EveryButtonRunsItsOwnIff | go/pkg/teleremote/client.go:111-118 | All buttons run their own callbacks exactly when no leaf is followed by a last bearer of its label with another callback. |
| TeleMenu.UniqueLabelsRunTheirOwn | go/pkg/teleremote/client.go:157-160 | In particular when labels are unique. |
| Backoff.DelaysArePositive | go/pkg/conn_manager/manager.go:89-93 | Delays are positive and at most the maximum. |
| Backoff.DelaysGrow | go/pkg/conn_manager/manager.go:89-93 | Delays never shrink when the backoff is at least 1. |
| Backoff.JitterIsBounded | rust/src/conn_manager/manager.rs:110-123 | Jitter only lengthens a delay, up to max * (1 + jitter). |
| Backoff.TotalWaitIsCapped | python/microservice_toolbox/conn_manager/manager.py:88-99 | n unjittered waits take at most n * max. |
| Backoff.TotalWaitIsGeometric | python/microservice_toolbox/conn_manager/manager.py:88-99 | And at most the geometric sum of the unclamped delays. |
| Backoff.GeometricSumIs | python/microservice_toolbox/conn_manager/manager.py:88-99 | That sum in closed form: (b - 1) * sum is base * (b^n - 1). |
| Backoff.DoublingStep | go/pkg/spec/spec.go:387-390 | Saturating doubling takes the closed form of the delay one failure further. |
| Backoff.BackgroundPublisher | python/microservice_toolbox/spec.py:379-420 | Over every trace: the delay is min(2^k, 30) for k trailing failures, the pauses are its jittered values or heartbeats, the first success is announced and all later ones are heartbeats. |
| Backoff.PublishSync | go/pkg/spec/spec.go:343-391 | Over every trace: published exactly on the first success, cancelled after all of it otherwise, with sleeps in closed form between the attempts. |
| Backoff.SaturatedDelays | go/pkg/spec/spec.go:387-390 | Once saturated, every further failure adds exactly the cap. |
| Backoff.PythonTotalWait | python/microservice_toolbox/spec.py:379-415 | After n >= 5 failures exactly 31 + 30 (n - 5) seconds of unjittered wait. |
| Backoff.GoTotalWait | go/pkg/spec/spec.go:343-391 | After n >= 6 failures exactly 31.5 + 30 (n - 6) seconds. |
| Backoff.PausesAre | python/microservice_toolbox/spec.py:379-415 | The pauses after k failures: 1, 2, 4, 8, 16 and then 30 seconds in Python, 0.5 to 16 and then 30 in Go, with up to half of each as jitter. |
| Retry.ManagedConnection.Reconnect | rust/src/conn_manager/connection.rs:83-112 | The exact dials, reports, sleeps and outcome of the reconnect loop of Go, Python and Rust over every script of outcomes. |
| Retry.ManagedConnection.ConnectWithRetry | go/pkg/conn_manager/manager.go:114-141 | The same for the initial connect. |
| Retry.ManagedConnection.ConnectBlocking | go/pkg/conn_manager/manager.go:145-155 | A failed blocking connect adds one report numbered 1. |
| Retry.ManagedConnection.Write | go/pkg/conn_manager/connection.go:51-82 | The exact result, accounts and connectedness after a write by the only user. |
| Retry.WritesAreBounded | go/pkg/conn_manager/connection.go:51-82 | A write costs at most two reconnects' dials and reports. |
| Retry.WriteResultsMean | go/pkg/conn_manager/connection.go:51-82 | Sent means that a send succeeded over a connection, failed that both sends failed over one, and exactly the other results leave none. |
| Retry.WriteHeals | go/pkg/conn_manager/connection.go:65-82 | When the first send fails and the peer is back after k tolerated failures, the write dials k + 1 times, reports 1 to k, stays connected and has the result of the second send. |
| Retry.UnconnectedWriteConnects | go/pkg/conn_manager/connection.go:55-65 | A write without a connection reconnects and is sent. |
| Retry.UnconnectedWriteHeals | go/pkg/conn_manager/connection.go:55-82 | And heals with a second reconnect if that send fails. |
| Retry.WriteGivesUp | go/pkg/conn_manager/connection.go:72-76 | When the peer stays away the write ends without a connection after exactly one failing reconnect. |
| Retry.NotConnectedMeans | go/pkg/conn_manager/connection.go:56-76 | A write ends without a connection only if its last `MaxRetries` + 1 dials all failed. |
| Retry.StillTryingMeans | go/pkg/conn_manager/connection.go:161-217 | A write that is still trying has used up the script. |
| Retry.FailingReconnect | go/pkg/conn_manager/connection.go:161-217 | A wholly failing reconnect dials MaxRetries + 1 times and reports 1 to MaxRetries. |
| Retry.SucceedingReconnect | go/pkg/conn_manager/connection.go:161-217 | A reconnect that meets a success after k tolerated failures dials k + 1 times, reports 1 to k and sleeps for attempts 0 to k - 1. |
| Retry.SucceedingConnectWithRetry | go/pkg/conn_manager/manager.go:114-141 | The same for an initial connect, with one failure less tolerated. |
| Retry.SucceedingConnectBlocking | go/pkg/conn_manager/manager.go:145-155 | A blocking connect that succeeds adds no report. |
| Retry.FailingConnectWithRetry | rust/src/conn_manager/manager.rs:125-163 | A wholly failing initial connect dials and reports exactly MaxRetries times. |
| Retry.FailingBlockingConnectThenWrite | rust/src/conn_manager/manager.rs:166-177 | A failed blocking connect and then a failed write: 2 * MaxRetries + 1 reports, in this order. |
| Retry.LoopsDisagreeIff | python/microservice_toolbox/conn_manager/connection.py:126-150 | The two loops end differently exactly when MaxRetries failures come first. |
| Retry.ReconnectSleepsAtMost | go/pkg/conn_manager/connection.go:203-216 | A bounded reconnect sleeps, jitter aside, at most MaxRetries times the longest delay. |

## Left out

- Sockets, TLS, gRPC, HTTP and NATS: establishing, sending and posting succeed or fail as the schedule or the script says.
- YAML, JSON and MessagePack decoding: trees are an abstract datatype with string keys. Lists and booleans are copied and never looked into; a float carries the text it is printed as, which an address takes as its port.
- The FFI bridge to the distributed configuration, its callbacks and its decryption: absent in the model.
- Memory model: every access to shared state is one atomic step, and unlocked reads of the C++ atomic flag are sequentially consistent.
- Fairness and timing: a schedule may starve a thread, sleeping threads wake at any time, and the read-write mutex does not prefer writers, so the proofs cover more interleavings than the runtimes produce.
- PythonConnection.SendsAreOnInstalledConnections: a connection that another thread closed meanwhile may still be used; the send then fails or succeeds as the schedule says.
- GoConnection.LossIsPossibleIff: a goroutine that may call `reconnect` may call it again; the constructors call it once per connection, and `LossIsReachable` shows that one such call beside one writer already suffices.
- Connections that are replaced by a background connect while the client object is being handed out: covered only as interleaved calls on one object.
- DeepMerge.PythonDeepMerge: works on the tree that a dictionary represents, so sharing of subtrees between destination and source is not captured for Python; `MergeInPlace` captures it for Go.
- DeepMerge.RustDeepMerge: exclusive borrows make the destination a value that the call replaces.
- MergeInPlace.GoDeepMerge: asks for destination and source trees without common objects; what later writes through a shared subtree do is not modelled.
- DottedPath.SetValue: the mutable cursor is a value together with the maps that enclose it.
- GoLayers.AppConfig.LoadLayers: starts after the base is loaded; the merge of the `local` section, which is the same call on another map, and the Rust file override, which is shallow, are not modelled.
- The C++ loader's override functions, the lookups of the `local` section (the same walk as `GetValue`) and the Python loader's validation, which catches its own error.
- Endpoints.ValidateUniquePorts: case folding is ASCII, white space is the Latin-1 part of it; resolved addresses are given as a map.
- EnvExpansion.AgreeIff: speaks about documents whose dollar signs all start tokens; documents with other dollar signs are not covered.
- Framing.ReplacingIsInterleaving: the Go publisher formats with `fmt.Sprintf`, whose other verbs are not modelled.
- BraceScanner.RepairPreservesTheRest: states the splice; the fallback for values that are not objects and the later removal of trailing commas are not modelled.
- CommandLine.Parse: the flag tests run over a table instead of being written out one by one, and the help text is not printed.
- TeleMenu.TeleClient.UpdateActions: the caller's slice is a value, so a caller that changes it later is not modelled; the JSON encoding of the menu, which omits empty payloads, is left to the encoder.
- Backoff.PublishSync: the pause in which a run is cancelled counts in full; durations are reals, so the truncation of jitter to nanoseconds is not modelled; the Rust publishers, which use the same doubling without jitter, have no method of their own.
- Backoff.JitterIsBounded: floating-point rounding and the random source are replaced by reals and an arbitrary fraction.
- Process locks, lifecycle hooks, loggers, version discovery and the container resolver: members that a short reading settles.
