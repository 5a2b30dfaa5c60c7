/**
 * What each deck and pair operation does, read through the tools' eyes:
 * how many processes it starts, which keys reach which window, and which
 * MPRIS method is called on whose session.
 */
module DeckProperties {
  import opened Options
  import opened Processes
  import Decimal
  import opened Fdsify
  import opened Effects

  /** The key `change_volume` presses names its direction. */
  lemma VolumeKeyDirection(delta: int)
    ensures VolumeKey(delta) == if delta > 0 then "Ctrl+Up" else "Ctrl+Down"
  {
  }

  /** `change_volume(delta)` starts nothing for 0, otherwise exactly one xdotool run. */
  lemma ChangeVolumeShape(s: Spotify, delta: int)
    ensures (s.ChangeVolumeRuns(delta) == []) == (delta == 0)
    ensures delta != 0 ==> |s.ChangeVolumeRuns(delta)| == 1 && s.ChangeVolumeRuns(delta)[0].XdoToolRun?
  {
  }

  /** What `change_volume(delta)` delivers to one window `w`. */
  lemma ChangeVolumeKeysAt(s: Spotify, delta: int, w: int)
    ensures KeysSentTo(s.ChangeVolumeRuns(delta), w)
         == if w == s.wid then Repeat(VolumeKey(delta), Abs(delta)) else []
  {
    if delta != 0 {
      var keys := Repeat(VolumeKey(delta), Abs(delta));
      var run := XdoToolRun(s.xdotool.Argv(s.wid, KeyCommands(keys)));
      assert s.ChangeVolumeRuns(delta) == [run];
      KeyRunStrokes(s.xdotool, s.wid, keys);
      KeysForOneWindow(KeyStrokes(run), s.wid, keys, w);
      assert KeysSentTo([run], w) == KeysFor(KeyStrokes(run), w) + KeysSentTo([], w);
    }
  }

  /**
   * `change_volume(delta)`: nothing at all for a zero delta; otherwise one
   * xdotool run pressing `Ctrl+Up` delta times (delta > 0) or `Ctrl+Down`
   * |delta| times (delta < 0) on the deck's window, and on no other window.
   */
  lemma ChangeVolumeEffect(s: Spotify, delta: int)
    ensures (s.ChangeVolumeRuns(delta) == []) == (delta == 0)
    ensures delta != 0 ==> |s.ChangeVolumeRuns(delta)| == 1 && s.ChangeVolumeRuns(delta)[0].XdoToolRun?
    ensures delta > 0 ==> KeysSentTo(s.ChangeVolumeRuns(delta), s.wid) == Repeat("Ctrl+Up", delta)
    ensures delta < 0 ==> KeysSentTo(s.ChangeVolumeRuns(delta), s.wid) == Repeat("Ctrl+Down", -delta)
    ensures forall w :: w != s.wid ==> KeysSentTo(s.ChangeVolumeRuns(delta), w) == []
  {
    ChangeVolumeShape(s, delta);
    VolumeKeyDirection(delta);
    ChangeVolumeKeysAt(s, delta, s.wid);
    forall w | w != s.wid
      ensures KeysSentTo(s.ChangeVolumeRuns(delta), w) == []
    {
      ChangeVolumeKeysAt(s, delta, w);
    }
  }

  /** The single xdotool argv of `change_volume(delta)`: tool path, then one `key` group per step. */
  lemma ChangeVolumeArgv(s: Spotify, delta: int)
    requires delta != 0
    ensures s.ChangeVolumeRuns(delta)[0].argv[0] == s.xdotool.path
    ensures |s.ChangeVolumeRuns(delta)[0].argv| == 1 + 4 * Abs(delta)
    ensures forall k :: 0 <= k < Abs(delta) ==>
      s.ChangeVolumeRuns(delta)[0].argv[4 * k + 1..4 * k + 5]
        == ["key", "--window", Decimal.Str(s.wid), if delta > 0 then "Ctrl+Up" else "Ctrl+Down"]
  {
    var keys := Repeat(VolumeKey(delta), Abs(delta));
    var argv := s.xdotool.Argv(s.wid, KeyCommands(keys));
    assert s.ChangeVolumeRuns(delta)[0].argv == argv;
    s.xdotool.KeyArgvLayout(s.wid, keys);
    assert VolumeKey(delta) == if delta > 0 then "Ctrl+Up" else "Ctrl+Down";
    forall k | 0 <= k < Abs(delta)
      ensures argv[4 * k + 1..4 * k + 5] == ["key", "--window", Decimal.Str(s.wid), VolumeKey(delta)]
    {
      assert keys[k] == VolumeKey(delta);
    }
  }

  /**
   * `pause` and `toggle` each start exactly one dbus-send, asking the deck
   * owner's Spotify session for `Player.Pause` or `Player.PlayPause`, and press no key.
   */
  lemma SessionCommandsEffect(s: Spotify)
    ensures |s.PauseRuns()| == 1 && s.PauseRuns()[0].DbusSendRun?
    ensures DbusRequestOf(s.PauseRuns()[0]) == Some(DbusRequest(s.dbusSend.user, "Pause"))
    ensures |s.ToggleRuns()| == 1 && s.ToggleRuns()[0].DbusSendRun?
    ensures DbusRequestOf(s.ToggleRuns()[0]) == Some(DbusRequest(s.dbusSend.user, "PlayPause"))
    ensures forall w :: KeysSentTo(s.PauseRuns(), w) == [] && KeysSentTo(s.ToggleRuns(), w) == []
  {
    DbusRoundTrip(s.dbusSend, "Pause");
    DbusRoundTrip(s.dbusSend, "PlayPause");
  }

  /**
   * `crossfade(delta)`, whatever the thread schedule and whatever the windows:
   * no process at all for a zero delta, otherwise two runs, both xdotool runs.
   */
  lemma CrossfadeRuns(d: Decks, delta: int, t: seq<Invocation>)
    requires Interleaving(t, d.left.ChangeVolumeRuns(-delta), d.right.ChangeVolumeRuns(delta))
    ensures |t| == if delta == 0 then 0 else 2
    ensures forall k :: 0 <= k < |t| ==> t[k].XdoToolRun?
  {
    var l, r := d.left.ChangeVolumeRuns(-delta), d.right.ChangeVolumeRuns(delta);
    ChangeVolumeShape(d.left, -delta);
    ChangeVolumeShape(d.right, delta);
    InterleavingMultiset(t, l, r);
    forall k | 0 <= k < |t|
      ensures t[k].XdoToolRun?
    {
      assert t[k] in multiset(t);
    }
  }

  /**
   * `crossfade(delta)` on two different windows, whatever the thread schedule:
   * the left window gets |delta| presses in the direction of `-delta` and the
   * right one |delta| presses in the direction of `delta`.
   */
  lemma CrossfadeEffect(d: Decks, delta: int, t: seq<Invocation>)
    requires d.left.wid != d.right.wid
    requires Interleaving(t, d.left.ChangeVolumeRuns(-delta), d.right.ChangeVolumeRuns(delta))
    ensures |t| == if delta == 0 then 0 else 2
    ensures delta > 0 ==> KeysSentTo(t, d.left.wid) == Repeat("Ctrl+Down", delta)
    ensures delta > 0 ==> KeysSentTo(t, d.right.wid) == Repeat("Ctrl+Up", delta)
    ensures delta < 0 ==> KeysSentTo(t, d.left.wid) == Repeat("Ctrl+Up", -delta)
    ensures delta < 0 ==> KeysSentTo(t, d.right.wid) == Repeat("Ctrl+Down", -delta)
  {
    var l, r := d.left.ChangeVolumeRuns(-delta), d.right.ChangeVolumeRuns(delta);
    CrossfadeRuns(d, delta, t);
    ChangeVolumeKeysAt(d.left, -delta, d.left.wid);
    ChangeVolumeKeysAt(d.left, -delta, d.right.wid);
    ChangeVolumeKeysAt(d.right, delta, d.left.wid);
    ChangeVolumeKeysAt(d.right, delta, d.right.wid);
    InterleavingTwoWindows(t, l, r, d.left.wid, d.right.wid);
    VolumeKeyDirection(delta);
    VolumeKeyDirection(-delta);
  }

  /**
   * `crossfade(delta)` and `crossfade(-delta)` mirror each other: what the left
   * window gets in one is what the right window gets in the other.
   */
  lemma CrossfadeMirror(d: Decks, delta: int, t: seq<Invocation>, u: seq<Invocation>)
    requires d.left.wid != d.right.wid
    requires Interleaving(t, d.left.ChangeVolumeRuns(-delta), d.right.ChangeVolumeRuns(delta))
    requires Interleaving(u, d.left.ChangeVolumeRuns(delta), d.right.ChangeVolumeRuns(-delta))
    ensures KeysSentTo(t, d.left.wid) == KeysSentTo(u, d.right.wid)
    ensures KeysSentTo(t, d.right.wid) == KeysSentTo(u, d.left.wid)
  {
    CrossfadeEffect(d, delta, t);
    CrossfadeEffect(d, -delta, u);
    if delta == 0 {
      assert t == [] && u == [];
    }
  }

  /**
   * `_quickfade(from, to)`: pause `to`, ten steps up on `to`, play/pause `to`,
   * pause `from`, ten steps down on `from` (its mute), play/pause `from`, in that order.
   */
  lemma QuickfadeChoreography(fromDeck: Spotify, toDeck: Spotify)
    ensures |QuickfadeRuns(fromDeck, toDeck)| == 6
    ensures DbusRequestOf(QuickfadeRuns(fromDeck, toDeck)[0]) == Some(DbusRequest(toDeck.dbusSend.user, "Pause"))
    ensures QuickfadeRuns(fromDeck, toDeck)[1].XdoToolRun?
    ensures KeysSentTo([QuickfadeRuns(fromDeck, toDeck)[1]], toDeck.wid) == Repeat("Ctrl+Up", 10)
    ensures DbusRequestOf(QuickfadeRuns(fromDeck, toDeck)[2]) == Some(DbusRequest(toDeck.dbusSend.user, "PlayPause"))
    ensures DbusRequestOf(QuickfadeRuns(fromDeck, toDeck)[3]) == Some(DbusRequest(fromDeck.dbusSend.user, "Pause"))
    ensures QuickfadeRuns(fromDeck, toDeck)[4].XdoToolRun?
    ensures KeysSentTo([QuickfadeRuns(fromDeck, toDeck)[4]], fromDeck.wid) == Repeat("Ctrl+Down", 10)
    ensures DbusRequestOf(QuickfadeRuns(fromDeck, toDeck)[5]) == Some(DbusRequest(fromDeck.dbusSend.user, "PlayPause"))
  {
    var p1, v1, t1 := toDeck.PauseRuns(), toDeck.ChangeVolumeRuns(10), toDeck.ToggleRuns();
    var p2, v2, t2 := fromDeck.PauseRuns(), fromDeck.ChangeVolumeRuns(-10), fromDeck.ToggleRuns();
    ChangeVolumeShape(toDeck, 10);
    ChangeVolumeShape(fromDeck, -10);
    ChangeVolumeKeysAt(toDeck, 10, toDeck.wid);
    ChangeVolumeKeysAt(fromDeck, -10, fromDeck.wid);
    VolumeKeyDirection(10);
    VolumeKeyDirection(-10);
    DbusRoundTrip(toDeck.dbusSend, "Pause");
    DbusRoundTrip(toDeck.dbusSend, "PlayPause");
    DbusRoundTrip(fromDeck.dbusSend, "Pause");
    DbusRoundTrip(fromDeck.dbusSend, "PlayPause");
    SixSingletons(p1, v1, t1, p2, v2, t2);
    assert v1 == [v1[0]] && v2 == [v2[0]];
  }

  /** Six one-run lists joined in order are those six runs. */
  lemma SixSingletons(p1: seq<Invocation>, v1: seq<Invocation>, t1: seq<Invocation>,
                      p2: seq<Invocation>, v2: seq<Invocation>, t2: seq<Invocation>)
    requires |p1| == 1 && |v1| == 1 && |t1| == 1 && |p2| == 1 && |v2| == 1 && |t2| == 1
    ensures p1 + v1 + t1 + p2 + v2 + t2 == [p1[0], v1[0], t1[0], p2[0], v2[0], t2[0]]
  {
  }

  /** With two different windows, a quickfade's only key presses are the ten up on `to` and ten down on `from`. */
  lemma QuickfadeKeys(fromDeck: Spotify, toDeck: Spotify)
    requires fromDeck.wid != toDeck.wid
    ensures KeysSentTo(QuickfadeRuns(fromDeck, toDeck), toDeck.wid) == Repeat("Ctrl+Up", 10)
    ensures KeysSentTo(QuickfadeRuns(fromDeck, toDeck), fromDeck.wid) == Repeat("Ctrl+Down", 10)
  {
    ChangeVolumeEffect(toDeck, 10);
    ChangeVolumeEffect(fromDeck, -10);
    SessionCommandsEffect(toDeck);
    SessionCommandsEffect(fromDeck);
    var p1, v1, t1 := toDeck.PauseRuns(), toDeck.ChangeVolumeRuns(10), toDeck.ToggleRuns();
    var p2, v2, t2 := fromDeck.PauseRuns(), fromDeck.ChangeVolumeRuns(-10), fromDeck.ToggleRuns();
    assert QuickfadeRuns(fromDeck, toDeck) == p1 + v1 + t1 + p2 + v2 + t2;
    KeysSentToSixSilent(p1, v1, t1, p2, v2, t2, toDeck.wid);
    KeysSentToSixSilent(p1, v1, t1, p2, v2, t2, fromDeck.wid);
  }

  /** `Decks.mute` on two different windows: ten `Ctrl+Down` to each, left's run first. */
  lemma DecksMuteEffect(d: Decks)
    requires d.left.wid != d.right.wid
    ensures |d.left.ChangeVolumeRuns(-10) + d.right.ChangeVolumeRuns(-10)| == 2
    ensures KeysSentTo(d.left.ChangeVolumeRuns(-10) + d.right.ChangeVolumeRuns(-10), d.left.wid)
         == Repeat("Ctrl+Down", 10)
    ensures KeysSentTo(d.left.ChangeVolumeRuns(-10) + d.right.ChangeVolumeRuns(-10), d.right.wid)
         == Repeat("Ctrl+Down", 10)
  {
    ChangeVolumeEffect(d.left, -10);
    ChangeVolumeEffect(d.right, -10);
    KeysSentToAppend(d.left.ChangeVolumeRuns(-10), d.right.ChangeVolumeRuns(-10), d.left.wid);
    KeysSentToAppend(d.left.ChangeVolumeRuns(-10), d.right.ChangeVolumeRuns(-10), d.right.wid);
  }

  /**
   * The `--reset` sequence: ten `Ctrl+Up` to the left window, then ten
   * `Ctrl+Down` to the right window, then `Player.PlayPause` for the left owner.
   */
  lemma ResetEffect(left: Spotify, right: Spotify)
    ensures |left.ChangeVolumeRuns(10) + right.ChangeVolumeRuns(-10) + left.ToggleRuns()| == 3
    ensures KeysSentTo([(left.ChangeVolumeRuns(10) + right.ChangeVolumeRuns(-10) + left.ToggleRuns())[0]], left.wid)
         == Repeat("Ctrl+Up", 10)
    ensures KeysSentTo([(left.ChangeVolumeRuns(10) + right.ChangeVolumeRuns(-10) + left.ToggleRuns())[1]], right.wid)
         == Repeat("Ctrl+Down", 10)
    ensures DbusRequestOf((left.ChangeVolumeRuns(10) + right.ChangeVolumeRuns(-10) + left.ToggleRuns())[2])
         == Some(DbusRequest(left.dbusSend.user, "PlayPause"))
  {
    ChangeVolumeEffect(left, 10);
    ChangeVolumeEffect(right, -10);
    SessionCommandsEffect(left);
  }
}
