/**
 * What the external tools make of an invocation, written independently of how
 * the argv is built: the key presses xdotool delivers to each window, and the
 * MPRIS method dbus-send calls on whose session. The deck properties are stated
 * through these readings.
 */
module Effects {
  import opened Options
  import opened Processes
  import Decimal
  import opened Fdsify

  /** One key press delivered to a window. */
  datatype KeyStroke = KeyStroke(wid: int, key: string)

  /** One MPRIS method called on the Spotify session of `user`. */
  datatype DbusRequest = DbusRequest(user: string, member: string)

  /** Reads `key --window <wid> <key>` groups; anything else is not a key sequence. */
  function DecodeKeyWords(words: seq<string>): Option<seq<KeyStroke>>
    decreases |words|
  {
    if words == [] then Some([])
    else if |words| >= 4 && words[0] == "key" && words[1] == "--window"
            && Decimal.Parse(words[2]).Some? then
      match DecodeKeyWords(words[4..])
      case None => None
      case Some(rest) => Some([KeyStroke(Decimal.Parse(words[2]).value, words[3])] + rest)
    else None
  }

  /** The key presses an invocation delivers (none for dbus-send or a non-key run). */
  function KeyStrokes(run: Invocation): seq<KeyStroke> {
    match run
    case XdoToolRun(argv) =>
      if |argv| >= 1 && DecodeKeyWords(argv[1..]).Some? then DecodeKeyWords(argv[1..]).value else []
    case DbusSendRun(_) => []
  }

  /** The keys among `strokes` that go to window `w`, in order. */
  function KeysFor(strokes: seq<KeyStroke>, w: int): seq<string> {
    if strokes == [] then []
    else (if strokes[0].wid == w then [strokes[0].key] else []) + KeysFor(strokes[1..], w)
  }

  /** The keys a whole trace delivers to window `w`, in order. */
  function KeysSentTo(trace: seq<Invocation>, w: int): seq<string> {
    if trace == [] then [] else KeysFor(KeyStrokes(trace[0]), w) + KeysSentTo(trace[1..], w)
  }

  /** The MPRIS call a dbus-send invocation makes, if it is one. */
  function DbusRequestOf(run: Invocation): Option<DbusRequest> {
    match run
    case DbusSendRun(argv) =>
      if |argv| == 8 && argv[0] == Sudo && argv[1] == "-u" && argv[4] == PrintReply
         && argv[5] == SpotifyDest && argv[6] == PlayerObject && PlayerInterface <= argv[7]
      then Some(DbusRequest(argv[2], argv[7][|PlayerInterface|..]))
      else None
    case XdoToolRun(_) => None
  }

  // ---------------------------------------------------------------------------
  // Round trips: the argv builders say what the tools read back
  // ---------------------------------------------------------------------------

  /** `DbusSend.call(command)` asks the user's Spotify session for `Player.command`. */
  lemma DbusRoundTrip(d: DbusSend, command: string)
    ensures DbusRequestOf(DbusSendRun(d.Argv(command))) == Some(DbusRequest(d.user, command))
    ensures KeyStrokes(DbusSendRun(d.Argv(command))) == []
  {
    var argv := d.Argv(command);
    assert PlayerInterface <= argv[7];
    assert argv[7][|PlayerInterface|..] == command;
  }

  /** The words of `key` commands read back as exactly those keys, to that window. */
  lemma {:induction false} DecodeKeyRoundTrip(wid: int, keys: seq<string>)
    ensures DecodeKeyWords(WindowedWords(Decimal.Str(wid), KeyCommands(keys))).Some?
    ensures |DecodeKeyWords(WindowedWords(Decimal.Str(wid), KeyCommands(keys))).value| == |keys|
    ensures forall k :: 0 <= k < |keys| ==>
      DecodeKeyWords(WindowedWords(Decimal.Str(wid), KeyCommands(keys))).value[k] == KeyStroke(wid, keys[k])
    decreases |keys|
  {
    if keys != [] {
      var w := Decimal.Str(wid);
      var rest := WindowedWords(w, KeyCommands(keys[1..]));
      assert KeyCommands(keys)[1..] == KeyCommands(keys[1..]);
      var words := WindowedWords(w, KeyCommands(keys));
      assert words == ["key", "--window", w, keys[0]] + rest;
      assert words[4..] == rest;
      Decimal.StrRoundTrip(wid);
      DecodeKeyRoundTrip(wid, keys[1..]);
    }
  }

  /** `XDoTool.key(wid, keys)` presses exactly `keys`, in order, on window `wid`. */
  lemma KeyRunStrokes(x: XDoTool, wid: int, keys: seq<string>)
    ensures |KeyStrokes(XdoToolRun(x.Argv(wid, KeyCommands(keys))))| == |keys|
    ensures forall k :: 0 <= k < |keys| ==>
      KeyStrokes(XdoToolRun(x.Argv(wid, KeyCommands(keys))))[k] == KeyStroke(wid, keys[k])
  {
    var argv := x.Argv(wid, KeyCommands(keys));
    assert argv[1..] == WindowedWords(Decimal.Str(wid), KeyCommands(keys));
    DecodeKeyRoundTrip(wid, keys);
  }

  // ---------------------------------------------------------------------------
  // Keys per window
  // ---------------------------------------------------------------------------

  /** Strokes all aimed at one window deliver their keys there and nothing elsewhere. */
  lemma {:induction false} KeysForOneWindow(strokes: seq<KeyStroke>, wid: int, keys: seq<string>, w: int)
    requires |strokes| == |keys|
    requires forall k :: 0 <= k < |keys| ==> strokes[k] == KeyStroke(wid, keys[k])
    ensures KeysFor(strokes, w) == if w == wid then keys else []
    decreases |keys|
  {
    if keys != [] {
      KeysForOneWindow(strokes[1..], wid, keys[1..], w);
    }
  }

  lemma {:induction false} KeysSentToAppend(a: seq<Invocation>, b: seq<Invocation>, w: int)
    ensures KeysSentTo(a + b, w) == KeysSentTo(a, w) + KeysSentTo(b, w)
    decreases |a|
  {
    if a == [] {
      assert a + b == b;
    } else {
      assert (a + b)[1..] == a[1..] + b;
      KeysSentToAppend(a[1..], b, w);
    }
  }

  /** Runs that send no key to `w` drop out of what a concatenation of six run lists delivers there. */
  lemma KeysSentToSixSilent(p1: seq<Invocation>, v1: seq<Invocation>, t1: seq<Invocation>,
                            p2: seq<Invocation>, v2: seq<Invocation>, t2: seq<Invocation>, w: int)
    requires KeysSentTo(p1, w) == [] && KeysSentTo(t1, w) == []
    requires KeysSentTo(p2, w) == [] && KeysSentTo(t2, w) == []
    ensures KeysSentTo(p1 + v1 + t1 + p2 + v2 + t2, w) == KeysSentTo(v1, w) + KeysSentTo(v2, w)
  {
    var a := p1 + v1;
    KeysSentToAppend(p1, v1, w);
    assert KeysSentTo(a, w) == KeysSentTo(v1, w);
    var b := a + t1;
    KeysSentToAppend(a, t1, w);
    assert KeysSentTo(b, w) == KeysSentTo(v1, w);
    var c := b + p2;
    KeysSentToAppend(b, p2, w);
    assert KeysSentTo(c, w) == KeysSentTo(v1, w);
    var e := c + v2;
    KeysSentToAppend(c, v2, w);
    assert KeysSentTo(e, w) == KeysSentTo(v1, w) + KeysSentTo(v2, w);
    KeysSentToAppend(e, t2, w);
    assert KeysSentTo(e + t2, w) == KeysSentTo(e, w) + [];
  }

  /**
   * When one worker sends nothing to window `w`, every schedule of the two
   * workers delivers to `w` exactly what the other worker sends, in its order.
   */
  lemma {:induction false} InterleavingKeepsWindow(t: seq<Invocation>, a: seq<Invocation>, b: seq<Invocation>, w: int)
    requires Interleaving(t, a, b)
    requires KeysSentTo(b, w) == []
    ensures KeysSentTo(t, w) == KeysSentTo(a, w)
    decreases |t|
  {
    if t != [] {
      if a != [] && t[0] == a[0] && Interleaving(t[1..], a[1..], b) {
        InterleavingKeepsWindow(t[1..], a[1..], b, w);
      } else {
        assert KeysSentTo(b, w) == KeysFor(KeyStrokes(b[0]), w) + KeysSentTo(b[1..], w);
        InterleavingKeepsWindow(t[1..], a, b[1..], w);
      }
    }
  }

  /** Two workers aimed at two windows, each silent on the other's: every schedule gives each window its own worker's keys. */
  lemma InterleavingTwoWindows(t: seq<Invocation>, a: seq<Invocation>, b: seq<Invocation>, wa: int, wb: int)
    requires Interleaving(t, a, b)
    requires KeysSentTo(b, wa) == [] && KeysSentTo(a, wb) == []
    ensures KeysSentTo(t, wa) == KeysSentTo(a, wa)
    ensures KeysSentTo(t, wb) == KeysSentTo(b, wb)
  {
    InterleavingKeepsWindow(t, a, b, wa);
    InterleavingSymmetric(t, a, b);
    InterleavingKeepsWindow(t, b, a, wb);
  }
}
