/**
 * The deck layer of fdsify: two Spotify windows driven through xdotool (synthetic
 * key presses) and dbus-send (MPRIS player commands). Every operation only starts
 * external processes; here each process started is appended to a `Shell` log, and
 * every method is specified by a function giving exactly what it appends.
 */
module Fdsify {
  import opened Processes
  import Decimal

  // ---------------------------------------------------------------------------
  // dbus-send client
  // ---------------------------------------------------------------------------

  const Sudo := "/usr/bin/sudo"
  const PrintReply := "--print-reply"
  const SpotifyDest := "--dest=org.mpris.MediaPlayer2.spotify"
  const PlayerObject := "/org/mpris/MediaPlayer2"
  const PlayerInterface := "org.mpris.MediaPlayer2.Player."

  /** Sends one MPRIS player command to the Spotify session of `user`. */
  datatype DbusSend = DbusSend(path: string, user: string) {

    /** The argv of `call(command)`: dbus-send run as `user` through sudo. */
    function Argv(command: string): seq<string> {
      [Sudo, "-u", user, path, PrintReply, SpotifyDest, PlayerObject, PlayerInterface + command]
    }

    method Call(sh: Shell, command: string)
      modifies sh
      ensures sh.log == old(sh.log) + [DbusSendRun(Argv(command))]
    {
      sh.CheckCall(DbusSendRun([Sudo, "-u", user, path, PrintReply, SpotifyDest,
                                PlayerObject, PlayerInterface + command]));
    }
  }

  // ---------------------------------------------------------------------------
  // xdotool client
  // ---------------------------------------------------------------------------

  /** A command list as `call` accepts it: every command has at least its verb. */
  predicate WellFormed(commands: seq<seq<string>>) {
    forall k :: 0 <= k < |commands| ==> |commands[k]| >= 1
  }

  /** The words one command contributes: verb, `--window`, the window, operands. */
  function CommandWords(wid: string, cmd: seq<string>): seq<string>
    requires |cmd| >= 1
  {
    [cmd[0], "--window", wid] + cmd[1..]
  }

  /** The words of all commands, in order. */
  function WindowedWords(wid: string, commands: seq<seq<string>>): seq<string>
    requires WellFormed(commands)
  {
    if commands == [] then []
    else CommandWords(wid, commands[0]) + WindowedWords(wid, commands[1..])
  }

  /** Number of argv words after the tool path: each command adds `--window` and the window. */
  function WordCount(commands: seq<seq<string>>): nat {
    if commands == [] then 0 else |commands[0]| + 2 + WordCount(commands[1..])
  }

  /** The `key` commands for `keys`, one per key, in order. */
  function KeyCommands(keys: seq<string>): (cmds: seq<seq<string>>)
    ensures |cmds| == |keys|
    ensures forall k :: 0 <= k < |keys| ==> cmds[k] == ["key", keys[k]]
  {
    seq(|keys|, k requires 0 <= k < |keys| => ["key", keys[k]])
  }

  lemma {:induction false} WindowedWordsSnoc(wid: string, commands: seq<seq<string>>, cmd: seq<string>)
    requires WellFormed(commands) && |cmd| >= 1
    ensures WellFormed(commands + [cmd])
    ensures WindowedWords(wid, commands + [cmd]) == WindowedWords(wid, commands) + CommandWords(wid, cmd)
    decreases |commands|
  {
    if commands != [] {
      assert (commands + [cmd])[1..] == commands[1..] + [cmd];
      WindowedWordsSnoc(wid, commands[1..], cmd);
    }
  }

  lemma {:induction false} WindowedWordsAppend(wid: string, a: seq<seq<string>>, b: seq<seq<string>>)
    requires WellFormed(a) && WellFormed(b)
    ensures WellFormed(a + b)
    ensures WindowedWords(wid, a + b) == WindowedWords(wid, a) + WindowedWords(wid, b)
    decreases |a|
  {
    if a != [] {
      assert (a + b)[1..] == a[1..] + b;
      WindowedWordsAppend(wid, a[1..], b);
    } else {
      assert a + b == b;
    }
  }

  lemma {:induction false} WindowedWordsLength(wid: string, commands: seq<seq<string>>)
    requires WellFormed(commands)
    ensures |WindowedWords(wid, commands)| == WordCount(commands)
    decreases |commands|
  {
    if commands != [] {
      WindowedWordsLength(wid, commands[1..]);
    }
  }

  lemma {:induction false} KeyWordsLayout(wid: string, keys: seq<string>)
    ensures |WindowedWords(wid, KeyCommands(keys))| == 4 * |keys|
    ensures forall k :: 0 <= k < |keys| ==>
      WindowedWords(wid, KeyCommands(keys))[4 * k..4 * k + 4] == ["key", "--window", wid, keys[k]]
    decreases |keys|
  {
    if keys != [] {
      var rest := WindowedWords(wid, KeyCommands(keys[1..]));
      assert KeyCommands(keys)[1..] == KeyCommands(keys[1..]);
      assert WindowedWords(wid, KeyCommands(keys)) == ["key", "--window", wid, keys[0]] + rest;
      KeyWordsLayout(wid, keys[1..]);
      forall k | 1 <= k < |keys|
        ensures WindowedWords(wid, KeyCommands(keys))[4 * k..4 * k + 4] == ["key", "--window", wid, keys[k]]
      {
        assert rest[4 * (k - 1)..4 * (k - 1) + 4] == ["key", "--window", wid, keys[1..][k - 1]];
      }
    }
  }

  /** Runs xdotool; the tool path, window ids and argv are the only state. */
  datatype XDoTool = XDoTool(path: string) {

    /** The argv of `call(wid, commands)`. */
    function Argv(wid: int, commands: seq<seq<string>>): seq<string>
      requires WellFormed(commands)
    {
      [path] + WindowedWords(Decimal.Str(wid), commands)
    }

    /** `call`: builds the argv command by command, then starts xdotool once. */
    method Call(sh: Shell, wid: int, commands: seq<seq<string>>)
      requires WellFormed(commands)
      modifies sh
      ensures sh.log == old(sh.log) + [XdoToolRun(Argv(wid, commands))]
    {
      var w := Decimal.Str(wid);
      var args := [path];
      for i := 0 to |commands|
        invariant args == [path] + WindowedWords(w, commands[..i])
        invariant sh.log == old(sh.log)
      {
        assert commands[..i + 1] == commands[..i] + [commands[i]];
        WindowedWordsSnoc(w, commands[..i], commands[i]);
        args := args + [commands[i][0], "--window", w] + commands[i][1..];
      }
      assert commands[..|commands|] == commands;
      assert args == Argv(wid, commands);
      sh.CheckCall(XdoToolRun(args));
    }

    /** `key`: one xdotool run pressing every key of `keys`, in order. */
    method Key(sh: Shell, wid: int, keys: seq<string>)
      modifies sh
      ensures sh.log == old(sh.log) + [XdoToolRun(Argv(wid, KeyCommands(keys)))]
    {
      Call(sh, wid, KeyCommands(keys));
    }

    /** `type`: one xdotool run typing `chars`. */
    method Type(sh: Shell, wid: int, chars: string)
      modifies sh
      ensures sh.log == old(sh.log) + [XdoToolRun([path, "type", "--window", Decimal.Str(wid), chars])]
    {
      var cmds := [["type", chars]];
      assert cmds[1..] == [];
      assert WindowedWords(Decimal.Str(wid), cmds) == ["type", "--window", Decimal.Str(wid), chars];
      assert Argv(wid, cmds) == [path, "type", "--window", Decimal.Str(wid), chars];
      Call(sh, wid, cmds);
    }

    /** The argv has the tool path, then two extra words for every command. */
    lemma ArgvLength(wid: int, commands: seq<seq<string>>)
      requires WellFormed(commands)
      ensures |Argv(wid, commands)| == 1 + WordCount(commands)
    {
      WindowedWordsLength(Decimal.Str(wid), commands);
    }

    /**
     * Command `k` occupies the words right after those of the commands before it:
     * its verb, `--window`, the window id in decimal, then its operands.
     */
    lemma ArgvCommandAt(wid: int, commands: seq<seq<string>>, k: nat)
      requires WellFormed(commands) && k < |commands|
      ensures Argv(wid, commands)[0] == path
      ensures WordCount(commands[..k + 1]) == WordCount(commands[..k]) + |commands[k]| + 2
      ensures 1 + WordCount(commands[..k + 1]) <= |Argv(wid, commands)|
      ensures Argv(wid, commands)[1 + WordCount(commands[..k])..1 + WordCount(commands[..k + 1])]
           == [commands[k][0], "--window", Decimal.Str(wid)] + commands[k][1..]
    {
      var w := Decimal.Str(wid);
      var before, after := commands[..k], commands[k + 1..];
      assert commands == before + [commands[k]] + after;
      assert commands[..k + 1] == before + [commands[k]];
      WindowedWordsSnoc(w, before, commands[k]);
      WindowedWordsAppend(w, before + [commands[k]], after);
      WindowedWordsLength(w, before);
      WindowedWordsLength(w, before + [commands[k]]);
      var all := WindowedWords(w, commands);
      assert all == WindowedWords(w, before) + CommandWords(w, commands[k]) + WindowedWords(w, after);
    }

    /** `key(wid, k1..kn)` gives 1 + 4n words, key `i` at word 4(i + 1). */
    lemma KeyArgvLayout(wid: int, keys: seq<string>)
      ensures |Argv(wid, KeyCommands(keys))| == 1 + 4 * |keys|
      ensures Argv(wid, KeyCommands(keys))[0] == path
      ensures forall k :: 0 <= k < |keys| ==>
        Argv(wid, KeyCommands(keys))[4 * k + 1..4 * k + 5] == ["key", "--window", Decimal.Str(wid), keys[k]]
    {
      var w := Decimal.Str(wid);
      KeyWordsLayout(w, keys);
      var argv := Argv(wid, KeyCommands(keys));
      forall k | 0 <= k < |keys|
        ensures argv[4 * k + 1..4 * k + 5] == ["key", "--window", w, keys[k]]
      {
        assert argv[4 * k + 1..4 * k + 5] == WindowedWords(w, KeyCommands(keys))[4 * k..4 * k + 4];
      }
    }
  }

  // ---------------------------------------------------------------------------
  // One deck
  // ---------------------------------------------------------------------------

  function Abs(x: int): nat {
    if x < 0 then -x else x
  }

  /** `[x] * n`: `n` copies of `x`. */
  function Repeat<T>(x: T, n: nat): (r: seq<T>)
    ensures |r| == n
    ensures forall k :: 0 <= k < n ==> r[k] == x
  {
    if n == 0 then [] else [x] + Repeat(x, n - 1)
  }

  /** The key `change_volume` presses: `Ctrl+Up` to raise, `Ctrl+Down` otherwise. */
  function VolumeKey(delta: int): string {
    "Ctrl+" + (if delta > 0 then "Up" else "Down")
  }

  /** One Spotify window: an xdotool client, a dbus-send client and the window id. */
  datatype Spotify = Spotify(xdotool: XDoTool, dbusSend: DbusSend, wid: int) {

    function PauseRuns(): seq<Invocation> {
      [DbusSendRun(dbusSend.Argv("Pause"))]
    }

    function ToggleRuns(): seq<Invocation> {
      [DbusSendRun(dbusSend.Argv("PlayPause"))]
    }

    /** Nothing for a zero delta, otherwise one xdotool run with |delta| volume keys. */
    function ChangeVolumeRuns(delta: int): seq<Invocation> {
      if delta == 0 then []
      else [XdoToolRun(xdotool.Argv(wid, KeyCommands(Repeat(VolumeKey(delta), Abs(delta)))))]
    }

    method Pause(sh: Shell)
      modifies sh
      ensures sh.log == old(sh.log) + PauseRuns()
    {
      dbusSend.Call(sh, "Pause");
    }

    method Toggle(sh: Shell)
      modifies sh
      ensures sh.log == old(sh.log) + ToggleRuns()
    {
      dbusSend.Call(sh, "PlayPause");
    }

    method ChangeVolume(sh: Shell, delta: int)
      modifies sh
      ensures sh.log == old(sh.log) + ChangeVolumeRuns(delta)
    {
      if delta == 0 {
        return;
      }
      var key := "Ctrl+" + (if delta > 0 then "Up" else "Down");
      var keys := Repeat(key, Abs(delta));
      xdotool.Key(sh, wid, keys);
    }

    /** Ten steps down: the same processes as `change_volume(-10)`. */
    method Mute(sh: Shell)
      modifies sh
      ensures sh.log == old(sh.log) + ChangeVolumeRuns(-10)
    {
      ChangeVolume(sh, -10);
    }

    method VolumeDown(sh: Shell, delta: int)
      modifies sh
      ensures sh.log == old(sh.log) + ChangeVolumeRuns(-delta)
    {
      ChangeVolume(sh, -delta);
    }

    method VolumeUp(sh: Shell, delta: int)
      modifies sh
      ensures sh.log == old(sh.log) + ChangeVolumeRuns(delta)
    {
      ChangeVolume(sh, delta);
    }
  }

  // ---------------------------------------------------------------------------
  // The pair of decks
  // ---------------------------------------------------------------------------

  /** The fixed hand-over from `fromDeck` to `toDeck`. */
  function QuickfadeRuns(fromDeck: Spotify, toDeck: Spotify): seq<Invocation> {
    toDeck.PauseRuns() + toDeck.ChangeVolumeRuns(10) + toDeck.ToggleRuns()
    + fromDeck.PauseRuns() + fromDeck.ChangeVolumeRuns(-10) + fromDeck.ToggleRuns()
  }

  datatype Decks = Decks(left: Spotify, right: Spotify) {

    /**
     * The two sides run on their own threads, joined before returning: the
     * processes appended are the left side's and the right side's, in an order
     * one schedule of the two threads produces.
     */
    method Crossfade(sh: Shell, delta: int)
      modifies sh
      ensures |old(sh.log)| <= |sh.log| && sh.log[..|old(sh.log)|] == old(sh.log)
      ensures Interleaving(sh.log[|old(sh.log)|..],
                           left.ChangeVolumeRuns(-delta), right.ChangeVolumeRuns(delta))
    {
      ghost var before := sh.log;
      left.ChangeVolume(sh, -delta);
      right.ChangeVolume(sh, delta);
      assert sh.log[|before|..] == left.ChangeVolumeRuns(-delta) + right.ChangeVolumeRuns(delta);
      ConcatIsInterleaving(left.ChangeVolumeRuns(-delta), right.ChangeVolumeRuns(delta));
    }

    /** `_quickfade`; like the source it uses nothing of the pair itself. */
    static method Quickfade(sh: Shell, fromDeck: Spotify, toDeck: Spotify)
      modifies sh
      ensures sh.log == old(sh.log) + QuickfadeRuns(fromDeck, toDeck)
    {
      ghost var runs := [toDeck.PauseRuns(), toDeck.ChangeVolumeRuns(10), toDeck.ToggleRuns(),
                          fromDeck.PauseRuns(), fromDeck.ChangeVolumeRuns(-10), fromDeck.ToggleRuns()];
      ghost var log0 := sh.log;
      toDeck.Pause(sh);
      assert sh.log == log0 + runs[0];
      toDeck.VolumeUp(sh, 10);
      assert sh.log == log0 + runs[0] + runs[1];
      toDeck.Toggle(sh);
      assert sh.log == log0 + runs[0] + runs[1] + runs[2];
      fromDeck.Pause(sh);
      assert sh.log == log0 + runs[0] + runs[1] + runs[2] + runs[3];
      fromDeck.Mute(sh);
      assert sh.log == log0 + runs[0] + runs[1] + runs[2] + runs[3] + runs[4];
      fromDeck.Toggle(sh);
      assert sh.log == log0 + runs[0] + runs[1] + runs[2] + runs[3] + runs[4] + runs[5];
    }

    method QuickfadeLeft(sh: Shell)
      modifies sh
      ensures sh.log == old(sh.log) + QuickfadeRuns(right, left)
    {
      Quickfade(sh, right, left);
    }

    method QuickfadeRight(sh: Shell)
      modifies sh
      ensures sh.log == old(sh.log) + QuickfadeRuns(left, right)
    {
      Quickfade(sh, left, right);
    }

    method Mute(sh: Shell)
      modifies sh
      ensures sh.log == old(sh.log) + left.ChangeVolumeRuns(-10) + right.ChangeVolumeRuns(-10)
    {
      left.Mute(sh);
      right.Mute(sh);
    }
  }

  /** The `--reset` start-up sequence: left up ten, right down ten, left plays. */
  method Reset(sh: Shell, left: Spotify, right: Spotify)
    modifies sh
    ensures sh.log == old(sh.log) + left.ChangeVolumeRuns(10) + right.ChangeVolumeRuns(-10)
                      + left.ToggleRuns()
  {
    left.ChangeVolume(sh, 10);
    right.ChangeVolume(sh, -10);
    left.Toggle(sh);
  }
}
