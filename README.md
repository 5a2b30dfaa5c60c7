# fdsify deck layer in Dafny

fdsify lets one person "DJ" between two Spotify windows. Each window is a *deck*.
Volume moves by synthetic `Ctrl+Up` / `Ctrl+Down` key presses sent through `xdotool`.
Pause and play/pause are MPRIS method calls sent through `dbus-send`, run as the deck owner via `sudo`.
This project models the layer that turns deck operations into those external process invocations:

- the `xdotool` argv builder (`XDoTool.call`, `key`, `type`);
- the `dbus-send` argv (`DbusSend.call`);
- the deck (`Spotify`): `pause`, `toggle`, `change_volume`, `mute`, `volume_up`, `volume_down`;
- the pair (`Decks`): `crossfade`, `_quickfade`, `quickfade_left`, `quickfade_right`, `mute`;
- the `--reset` start-up sequence of `main`.

Layout:

- `processes.dfy`: module `Processes`. Starting a process (`check_call`) appends an `Invocation` to the log of a `Shell` object. `Shell` is the only mutable state in the model. `Interleaving` describes the orders two threads may produce.
- `fdsify.dfy`: module `Fdsify`. Clients, deck and pair are datatypes, because the source never updates their fields after construction. Their methods append to the `Shell` they are given. Each method is specified by a function (`Argv`, `ChangeVolumeRuns`, `QuickfadeRuns`, …) that gives exactly what it appends.
- `effects.dfy`: module `Effects`. It reads an invocation the way the tools would, independently of how the argv was built. It decodes `key --window <wid> <key>` groups into key presses per window, and a `dbus-send` argv into the user and the MPRIS method called. Round-trip lemmas connect these readings to the builders.
- `deck_properties.dfy`: module `DeckProperties`. Lemmas on what each operation delivers: how many processes, which keys reach which window, and which method is called on whose session.
- `decimal.dfy`: module `Decimal`. Python's `str` on an `int` (the window id in the argv), with a parser and a round-trip lemma.
- `options.dfy`: module `Options`, an `Option` datatype.

Facts about the source that shape the model:

- `toggle` always uses `dbus-send` (src/fdsify.py:76-77).
- `change_volume` sends all |delta| presses in one `xdotool` run (src/fdsify.py:82-84).
- `crossfade` calls `change_volume` once per side, on two threads (src/fdsify.py:105-112). The sign `d` it computes at line 106 is never used.

## Model

| member | source | states |
|---|---|---|
| `Decimal.StrRoundTrip` | src/fdsify.py:50 | the decimal spelling `str(wid)` put in the argv reads back as exactly `wid`, negative ids included |
| `Decimal.StrInjective` | src/fdsify.py:50 | two different window ids never produce the same argv word |
| `Decimal.NatStr` | src/fdsify.py:50 | the spelling of a natural number is non-empty, all digits, and starts with `0` only for zero (no leading zeros) |
| `Processes.Shell.CheckCall` | src/fdsify.py:54 | starting a process appends exactly that invocation to the log and changes nothing else |
| `Processes.ConcatIsInterleaving` | src/fdsify.py:107-112 | running the left thread to completion before the right one is one of the schedules the two threads allow |
| `Processes.InterleavingSymmetric` | src/fdsify.py:107-112 | the two threads play symmetric roles, so the right-first schedule is allowed too |
| `Processes.InterleavingMultiset` | src/fdsify.py:107-112 | under any schedule, every invocation of both threads is started exactly once and nothing else is |
| `Fdsify.DbusSend.Call` | src/fdsify.py:31-42 | `call(command)` starts exactly one `dbus-send` process with the fixed sudo/destination/object argv and `org.mpris.MediaPlayer2.Player.<command>` |
| `Fdsify.XDoTool.Call` | src/fdsify.py:49-54 | the loop that extends `args` command by command builds the argv of one `xdotool` run, and exactly that one process is started |
| `Fdsify.XDoTool.Key` | src/fdsify.py:56-58 | `key(wid, keys)` starts one `xdotool` run made of one `key` command per key, in order |
| `Fdsify.XDoTool.Type` | src/fdsify.py:60-61 | `type(wid, chars)` starts one run whose argv is the path, `type`, `--window`, the id and the text |
| `Fdsify.XDoTool.ArgvLength` | src/fdsify.py:49-53 | the argv has 1 + Σ(len(cmd) + 2) words |
| `Fdsify.XDoTool.ArgvCommandAt` | src/fdsify.py:51-53 | the argv starts with the tool path, and command k fills the words right after those of commands 0..k-1: `cmd[0]`, `--window`, `str(wid)`, then `cmd[1:]` |
| `Fdsify.XDoTool.KeyArgvLayout` | src/fdsify.py:56-58 | `key(wid, k1..kn)` builds 1 + 4n words, with group i (from 0) being `key --window <wid> keys[i]`, at words 4i+1..4i+4 |
| `Fdsify.Repeat` | src/fdsify.py:83 | `[key] * n` has length n and every element is `key` |
| `Fdsify.Spotify.Pause` | src/fdsify.py:73-74 | `pause` starts exactly the dbus-send run for `Pause` |
| `Fdsify.Spotify.Toggle` | src/fdsify.py:76-77 | `toggle` starts exactly the dbus-send run for `PlayPause` |
| `Fdsify.Spotify.ChangeVolume` | src/fdsify.py:79-84 | `change_volume(delta)` appends exactly `ChangeVolumeRuns(delta)`: nothing for 0, otherwise one `key` run with the volume key repeated abs(delta) times |
| `Fdsify.Spotify.Mute` | src/fdsify.py:86-87 | `mute` appends exactly what `change_volume(-10)` appends |
| `Fdsify.Spotify.VolumeDown` | src/fdsify.py:89-90 | `volume_down(d)` appends exactly what `change_volume(-d)` appends |
| `Fdsify.Spotify.VolumeUp` | src/fdsify.py:92-93 | `volume_up(d)` appends exactly what `change_volume(d)` appends |
| `Fdsify.Decks.Crossfade` | src/fdsify.py:105-112 | the invocations are only added at the end of the log, and they interleave the left deck's `change_volume(-delta)` with the right deck's `change_volume(delta)` |
| `Fdsify.Decks.Quickfade` | src/fdsify.py:114-120 | `_quickfade(from, to)` appends, in order: `to.pause`, `to.volume_up(10)`, `to.toggle`, `from.pause`, `from.mute`, `from.toggle` |
| `Fdsify.Decks.QuickfadeLeft` | src/fdsify.py:122-123 | `quickfade_left` is the hand-over from the right deck to the left deck |
| `Fdsify.Decks.QuickfadeRight` | src/fdsify.py:125-126 | `quickfade_right` is the hand-over from the left deck to the right deck |
| `Fdsify.Decks.Mute` | src/fdsify.py:128-130 | the pair's `mute` appends the left deck's mute and then the right deck's |
| `Fdsify.Reset` | src/fdsify.py:254-257 | `--reset` appends `left.change_volume(10)`, `right.change_volume(-10)`, `left.toggle()`, in that order |
| `Effects.DbusRoundTrip` | src/fdsify.py:31-42 | the dbus-send argv asks the Spotify session of the configured user for `Player.<command>`, and presses no key |
| `Effects.DecodeKeyRoundTrip` | src/fdsify.py:49-58 | the words of the `key` commands read back as exactly the given keys, in order, each aimed at `wid` |
| `Effects.KeyRunStrokes` | src/fdsify.py:56-58 | one `key(wid, keys)` run delivers exactly `keys`, in order, to window `wid` |
| `Effects.InterleavingKeepsWindow` | src/fdsify.py:107-112 | if one thread sends nothing to a window, every schedule delivers to that window exactly the other thread's keys, in its order |
| `Effects.InterleavingTwoWindows` | src/fdsify.py:107-112 | when each of two threads sends nothing to the other's window, every schedule gives each window exactly its own thread's keys |
| `DeckProperties.VolumeKeyDirection` | src/fdsify.py:82 | the key chosen is `Ctrl+Up` exactly when delta > 0, and `Ctrl+Down` otherwise |
| `DeckProperties.ChangeVolumeKeysAt` | src/fdsify.py:79-84 | `change_volume(delta)` delivers abs(delta) copies of its volume key to the deck's window and nothing to any other window (nothing at all for 0) |
| `DeckProperties.ChangeVolumeEffect` | src/fdsify.py:79-84 | `change_volume(0)` starts no process. Any other delta starts one xdotool run: `Ctrl+Up` delta times if delta > 0, `Ctrl+Down` -delta times if delta < 0, on the deck's window only |
| `DeckProperties.ChangeVolumeArgv` | src/fdsify.py:82-84 | for delta ≠ 0 the argv is the tool path followed by abs(delta) groups `key --window str(wid) Ctrl+Up/Down`, i.e. 1 + 4·abs(delta) words |
| `DeckProperties.SessionCommandsEffect` | src/fdsify.py:73-77 | `pause` and `toggle` each start one dbus-send calling `Player.Pause` or `Player.PlayPause` for the deck owner, and press no key anywhere |
| `DeckProperties.CrossfadeRuns` | src/fdsify.py:105-112 | under any thread schedule and for any two windows: `crossfade(0)` starts no process, any other delta starts exactly two processes, both xdotool runs |
| `DeckProperties.CrossfadeEffect` | src/fdsify.py:105-112 | under any thread schedule, with two distinct windows: the left window gets abs(delta) presses against delta's direction, and the right window abs(delta) presses with it |
| `DeckProperties.CrossfadeMirror` | src/fdsify.py:105-112 | for two distinct windows, what the left window gets from `crossfade(delta)` is what the right window gets from `crossfade(-delta)`, and vice versa |
| `DeckProperties.QuickfadeChoreography` | src/fdsify.py:114-120 | a quickfade is exactly six runs: Pause(to), ten `Ctrl+Up` on to, PlayPause(to), Pause(from), ten `Ctrl+Down` on from, PlayPause(from) |
| `DeckProperties.QuickfadeKeys` | src/fdsify.py:114-120 | for two distinct windows, over the whole quickfade the `to` window gets exactly ten `Ctrl+Up` and the `from` window exactly ten `Ctrl+Down` |
| `DeckProperties.DecksMuteEffect` | src/fdsify.py:128-130 | the pair's mute is two runs, and each of two distinct windows gets exactly ten `Ctrl+Down` |
| `DeckProperties.ResetEffect` | src/fdsify.py:254-257 | reset is three runs: ten `Ctrl+Up` to the left window, ten `Ctrl+Down` to the right window, then `PlayPause` for the left owner |

## Left out

- Process failure is not modelled: every recorded invocation is taken to succeed. In the source, a `check_call` that raises on a non-zero exit status cuts short the sequential operations: `_quickfade` (src/fdsify.py:114-120), `Decks.mute` (128-130) and the reset sequence (254-257). In the reset case it also ends `main` before the GUI starts.
- A failure inside `crossfade` is swallowed: the exception stays in its thread and `join()` does not re-raise it. So it neither stops the other side nor reaches the caller, and each side starts at most one process anyway.
- `sudo` appears only as argv words and is not executed. Nothing about what the tools do beyond reading their argv is modelled.
- dbus-send's stdout goes to `/dev/null` (src/fdsify.py:32, 41). That redirect is not part of the argv and is not modelled.
- Fdsify.Decks.Crossfade: the two threads are modelled only by the order of the recorded runs. The contract allows any interleaving, and the body takes the left-first schedule. Concurrent execution and the thread joins are not modelled.
- DeckProperties.CrossfadeEffect: states the per-window keys only when the two decks have different window ids. With one shared window, the presses of the two sides land on the same window.
- Effects.KeysSentTo reads only `key` commands. A `type` run delivers no key presses in this reading.
- The local `d` computed in `crossfade` (src/fdsify.py:106) has no effect and is not modelled.
- XDoTool.call indexes `cmd[0]` without a check. The model requires every command to be non-empty (`WellFormed`). Every caller in the source passes two-word commands.
- The tkinter GUI is not modelled: `FdsifyGui`, `INST`, the key bindings, `_callback` dropping the event, `_autofade_left`/`_autofade_right` (which are `crossfade(∓10)`) and `mainloop`.
- Argument parsing and default tool paths are not modelled (`build_argument_parser`). Neither are object construction in `main` and the `__str__` methods.
