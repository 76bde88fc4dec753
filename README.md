# aws-spot-game-server boot agent, modelled in Dafny

The agent runs once when an AWS spot instance boots to host a game server. It
reads the operator's pipe-delimited user data from the instance metadata
service and parses it into a `GameServerUserData` record. It reads the instance
id, publishes the public address as a Route 53 A record, attaches the data
volume, waits for its device file to appear, and mounts it at `/mnt/game`. It
also has a spot-termination check that runs the stop executable and exits on a
termination notice.

This project models the decision logic of `main.go`. Every outcome of the
network, the AWS SDK and the kernel is an input.

- `GoStrings` models `strings.Split` and `strings.Join` for a one-character
  separator. Empty fields are kept, as Go keeps them.
- `GoStrconv` models `strconv.Atoi` as a signed decimal parser for a 64-bit
  `int`, with `strconv.Itoa` as its inverse.
- `UserData` models `getUserData`'s split, field-count check, integer
  conversion and positional mapping. `CheckAndMap` takes the checked field
  count as a parameter. `ParseUserData` uses 5, as the code does, and
  `ParseUserDataFixed` uses 8. A Go index-out-of-range panic is the result
  `IndexOutOfRange`.
- `Termination` models the body of the `checkTermination` goroutine for one
  poll. It also holds a looping watcher that polls until a notice, which is
  what the goroutine's comments describe.
- `Mount` models the device-file search of `mountVolume` as a method with a
  loop, proved against the function `DeviceSearch`. It also models the
  function's step order: attach, search, umask and mkdir, mount.
- `Dns` models `setDNS`: the public-address fetch and the single UPSERT change
  it sends.
- `Boot` models `main`'s step order, which failures are fatal, and the exit
  status. `os.Exit(1)` gives 1, a Go panic gives 2, and returning from `main`
  gives 0.

The code behaves in ways a reader may not expect. The model follows the
code as written:

- `GameServerUserData` (main.go:20-30) has eight fields, and `getUserData`
  reads fields 0 to 7 (main.go:80-98), but the count check at main.go:76
  asks for five (see Findings).
- The termination check's comments say it keeps running and checks again
  (main.go:103, 127). In the code it polls once, and `main` never starts
  it, because the call at main.go:258 is commented out (see Findings).
- `strconv.Atoi` accepts a leading `-` or `+` (main.go:80, 85), and nothing
  checks the sign of the idle interval or of the idle threshold.
- `main` prints a `mountVolume` error and returns normally (main.go:253-256),
  so a failed mount still ends with exit status 0.
- When `os.Mkdir` fails, `mountVolume` returns before restoring the old
  umask (main.go:211-216). `MountVolume` records this: the umask it reports
  is then 0.
- `AttachVolume` is called once, with no retry (main.go:182). There is no
  idle watcher, and `main` does not launch the game process.

## Model

| member | source | states |
|---|---|---|
| `GoStrings.Split` | main.go:74 | Splitting on the pipe character gives exactly one more field than there are pipes, empty fields included, so `""` gives one field. No field contains the separator. |
| `GoStrings.JoinSplit` | main.go:74 | Joining the fields of a split back with the separator rebuilds the original blob. |
| `GoStrings.SplitJoin` | main.go:74 | Splitting separator-free fields joined by the separator gives back exactly those fields. |
| `GoStrconv.Atoi` | main.go:80-88 | An accepted value fits a 64-bit int. Only accepted text is one digit or a sign followed by more characters, with only digits after the first character, so the empty string, a lone sign, letters, `_` and `0x` are rejected. A plain digit string is read as its decimal value when it fits and rejected when it does not. A `-` followed by digits gives the negated value when it fits and is rejected otherwise. A `+` followed by digits gives their value when it fits and is rejected otherwise. |
| `GoStrconv.AtoiItoa` | main.go:80-88 | `Atoi` reads back the decimal text of every 64-bit value, negatives included. |
| `UserData.CheckAndMap` | main.go:76-99 | The result is "malformed" exactly when the field count differs from the checked width. A configuration is returned only with at least 8 fields. Fields 0-5 map by position to the six text members, and fields 6 and 7 convert to the two integers. |
| `UserData.ParseUserData` | main.go:74-99 | As written, a blob is rejected as malformed exactly when it does not hold four pipes. With exactly four it panics indexing field 6. It never returns a configuration, and the interval and threshold errors never happen. |
| `UserData.FiveFieldsPanic` | main.go:76-80 | The five-field blob of the fields a to e joined by pipes passes the count check and panics at index 6. |
| `UserData.AsWrittenRejectsEveryEncoding` | main.go:76-78 | As written, the eight-field encoding of any configuration is rejected as malformed, before any integer is parsed. |
| `UserData.ParseUserDataFixed` | main.go:74-99 | With the count checked against 8, a blob is malformed exactly when it does not hold seven pipes. It never panics. The interval error happens exactly when field 6 is not an integer. The threshold error happens exactly when field 6 is an integer and field 7 is not. |
| `UserData.FixedRoundTrip` | main.go:74-99 | The corrected parser returns every configuration encodable as a blob unchanged, positionally. |
| `Termination.CheckTermination` | main.go:105-128 | `cmd.Start` is attempted exactly when the request succeeded with a status other than 404. A 404 or a request error takes no action. The process exits, always with status 0, exactly when the attempt to start stop succeeded. Wait is called exactly when the process exits. It exits even if stop reports an error. The body is closed exactly when a response arrived and the process did not exit. The trailing sleep is reached exactly when it did not exit. A message is printed for each branch: poll error, notice, start error, wait error, and exiting. Nothing is printed exactly on a 404. |
| `Termination.CheckTerminationOnce` | main.go:102-129 | The goroutine consumes one poll. It ends the process exactly when that first poll is a notice and stop starts. Later polls never matter. |
| `Termination.WatchTermination` | main.go:103-128 | The looping watcher ends the process at the first cycle whose check exits. It never ends it when no cycle exits. |
| `Termination.WatchIgnoresNonNotices` | main.go:105-109 | For the looping watcher, repeated 404s and failed polls never trigger stop. |
| `Termination.SinglePollMissesLaterNotice` | main.go:103-129 | When the first poll is not a notice, the single-poll goroutine takes no action. The looping watcher acts on a later notice. |
| `Termination.NoticeOnThirdPoll` | main.go:103-129 | For polls 404, 404, 200, the code as written does nothing. The looping watcher exits on the third poll. |
| `Mount.FirstHit` | main.go:191-204 | Returns the first probe at which either device path exists. Its result is none exactly when no probe found one. |
| `Mount.FindDeviceFile` | main.go:188-204 | The loop's `found`, `deviceFile`, probe count and sleep count equal `DeviceSearch` of the five observations. |
| `Mount.DeviceSearchStopsAtFirstHit` | main.go:191-208 | The search makes 1 to 5 probes and stops at the first probe where either path exists. It reports "Device file not found" exactly when no probe among the five saw either path, and then it has made all 5. |
| `Mount.DeviceSearchTieBreak` | main.go:194-200 | `found` holds exactly when the device file is one of the two candidates. `/dev/xvdf` is chosen whenever it exists on the deciding probe. `/dev/nvme1n1` is chosen only when `/dev/xvdf` is absent there. |
| `Mount.MountVolume` | main.go:172-227 | `mountVolume` succeeds exactly when attach, search, mkdir and mount all succeed. Each error names its step. The attach error comes exactly when attach fails. The device-not-found error comes exactly after a good attach with no device seen. The mkdir error comes exactly after a found device when mkdir fails. The mount error comes exactly when only the mount fails. Mount is called exactly when attach, search and mkdir succeed, and on the device the search chose. The umask is left at 0 exactly on the mkdir error path, and is restored otherwise. |
| `Dns.SetDns` | main.go:132-170 | A change is sent exactly when the public IP was read. That change is an UPSERT of an A record with TTL 300, for the configured name in the configured zone, pointing at that IP. The result is success exactly when the IP was read and the call succeeded. |
| `Boot.BootSequence` | main.go:229-258 | Steps run in source order. The exit status is 1 exactly when user data fails with an error, or when user data succeeds and the instance id fetch fails. When `main` does not return, it stops at the failing step: step one for any user-data error or parse panic, step two for an instance-id error, step three for a session panic, so neither DNS nor mount runs. A parse panic or a session failure panics. When user data, instance id and session succeed, `main` returns normally after all five steps, whatever DNS and mount do. Their failures are then only reported, and DNS and mount are the only steps ever reported. |
| `Boot.AsWrittenBootStopsAtUserData` | main.go:229-235 | With `getUserData` as written, `main` ends, with status 1 or 2, at its first step for every blob. |
| `Boot.FixedBootProvisions` | main.go:229-258 | With the corrected parser and an encodable configuration, `main` runs DNS and mount and returns with status 0. |

## Left out

- The HTTP metadata fetches and body reads (`getInstanceID`, `getPublicIP`, the fetch in `getUserData`, main.go:32-72) are network I/O. Each is the input `Fetch`: failed, or the body text.
- The AWS SDK calls are foreign library code: session creation, the Route 53 `ChangeResourceRecordSets` call and EC2 `AttachVolume`. Each is a success or failure input (`sessionOk`, `upsertOk`, `attachOk`). Only the Route 53 request value is built.
- The goroutine, `time.Sleep`, `os.Stat`, `os.Mkdir`, `syscall.Umask`, `syscall.Mount`, `exec.Command`, `os.Exit` and printing are replaced by abstract inputs and recorded outcomes. Sleeps are counted, not timed.
- Log text is not modelled. Only the termination check records which of its messages it prints.
- GoStrconv.Atoi: syntax and range errors are not told apart, and the value Go returns alongside an error is not modelled, because `getUserData` only tests the error for nil.
- Go strings are bytes and this model's strings are characters: each byte of the blob is read as one character. Nothing is lost, because the separator and the digits are ASCII, and UTF-8 never places an ASCII byte inside a multi-byte character.
- GoStrconv: the Go `int` is taken as 64 bits, as on the 64-bit instances the agent runs on.
- Mount.FindDeviceFile: the two `os.Stat` calls of a probe are taken as one observation, a pair of booleans.
- `checkTermination` is never called from `main`, because the call is commented out. `Boot` has no termination step.
- The idle watcher, a retried volume attach, a repeating termination poll and the launch of the game process have no code in the repository, so they are not modelled.

## Findings

| source | as written | input that shows it | evidently intended | confidence | as-written member | corrected member |
|---|---|---|---|---|---|---|
| main.go:76-88 | The field count is checked against 5, and then fields 6 and 7 are read | The fields a to e joined by pipes pass the check and panic on index 6. The eight fields zoneA, host.example.com, vol-1, /r, /s, /i, 30, 5 joined by pipes are rejected as malformed | Check the count against 8, the number of fields read | high, not executed | `UserData.ParseUserData`, `UserData.FiveFieldsPanic`, `UserData.AsWrittenRejectsEveryEncoding` | `UserData.ParseUserDataFixed`, `UserData.FixedRoundTrip` |
| main.go:102-129 | The goroutine polls once, sleeps five seconds and ends, although its comments say it keeps checking and checks again | Polls answering 404, 404, 200: no stop is ever invoked | A loop around the poll, sleeping 5 seconds between polls until a notice | high, not executed | `Termination.CheckTerminationOnce`, `Termination.SinglePollMissesLaterNotice` | `Termination.WatchTermination`, `Termination.NoticeOnThirdPoll` |
