/**
 * The outside world as this model sees it: the processes the program starts.
 * `check_call` starts one process and waits for it; here it appends the
 * invocation to a log. Success is assumed: a non-zero exit is outside the model.
 */
module Processes {

  /** One external process started, tagged by the client that started it. */
  datatype Invocation =
    | XdoToolRun(argv: seq<string>)
    | DbusSendRun(argv: seq<string>)

  class Shell {
    /** Every process started so far, oldest first. */
    var log: seq<Invocation>

    constructor ()
      ensures log == []
    {
      log := [];
    }

    /** `subprocess.check_call`: start the process and record it. */
    method CheckCall(run: Invocation)
      modifies this
      ensures log == old(log) + [run]
    {
      log := log + [run];
    }
  }

  /**
   * `t` is an order in which two independent workers, one recording `a` and
   * the other recording `b`, may have started their processes.
   */
  predicate Interleaving<T(==)>(t: seq<T>, a: seq<T>, b: seq<T>)
    decreases |t|
  {
    if t == [] then a == [] && b == []
    else
      (a != [] && t[0] == a[0] && Interleaving(t[1..], a[1..], b)) ||
      (b != [] && t[0] == b[0] && Interleaving(t[1..], a, b[1..]))
  }

  /** Running one worker to completion before the other is one of the schedules. */
  lemma {:induction false} ConcatIsInterleaving<T>(a: seq<T>, b: seq<T>)
    ensures Interleaving(a + b, a, b)
    decreases |a| + |b|
  {
    if a != [] {
      assert (a + b)[1..] == a[1..] + b;
      ConcatIsInterleaving(a[1..], b);
    } else if b != [] {
      assert (a + b)[1..] == a + b[1..];
      ConcatIsInterleaving(a, b[1..]);
    }
  }

  /** The two workers play symmetric roles. */
  lemma {:induction false} InterleavingSymmetric<T>(t: seq<T>, a: seq<T>, b: seq<T>)
    requires Interleaving(t, a, b)
    ensures Interleaving(t, b, a)
    decreases |t|
  {
    if t != [] {
      if a != [] && t[0] == a[0] && Interleaving(t[1..], a[1..], b) {
        InterleavingSymmetric(t[1..], a[1..], b);
      } else {
        InterleavingSymmetric(t[1..], a, b[1..]);
      }
    }
  }

  /** Whatever the schedule, every process of both workers is started exactly once. */
  lemma {:induction false} InterleavingMultiset<T>(t: seq<T>, a: seq<T>, b: seq<T>)
    requires Interleaving(t, a, b)
    ensures |t| == |a| + |b|
    ensures multiset(t) == multiset(a) + multiset(b)
    decreases |t|
  {
    if t != [] {
      assert t == [t[0]] + t[1..];
      if a != [] && t[0] == a[0] && Interleaving(t[1..], a[1..], b) {
        InterleavingMultiset(t[1..], a[1..], b);
        assert a == [a[0]] + a[1..];
      } else {
        InterleavingMultiset(t[1..], a, b[1..]);
        assert b == [b[0]] + b[1..];
      }
    }
  }
}
