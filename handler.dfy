/** The Android Handler a session posts its runnables to, modelled as the
    ordered list of callbacks that are still pending. Wall-clock time is not
    modelled: a pending callback runs when the environment chooses to run it,
    and its delay is kept only as the number it was posted with. */
module Handler {

  /** The two runnables a ManagedMediaPlayer posts to its handler. */
  datatype Task = PauseAtEndpoint | UpdatePositionData

  /** One pending post: the runnable, and the delay in ms it was posted with. */
  datatype Callback = Callback(task: Task, delayMs: int)

  /** How many pending callbacks would run `t`. */
  function Count(q: seq<Callback>, t: Task): nat
  {
    if q == [] then 0
    else Count(q[..|q| - 1], t) + (if q[|q| - 1].task == t then 1 else 0)
  }

  lemma {:induction false} CountAppend(a: seq<Callback>, b: seq<Callback>, t: Task)
    ensures Count(a + b, t) == Count(a, t) + Count(b, t)
    decreases |b|
  {
    if b == [] {
      assert a + b == a;
    } else {
      assert (a + b)[..|a + b| - 1] == a + b[..|b| - 1];
      CountAppend(a, b[..|b| - 1], t);
    }
  }

  /** Splits the count at position `i` into before, at and after. */
  lemma CountSplit(q: seq<Callback>, i: nat, t: Task)
    requires i < |q|
    ensures Count(q, t) == Count(q[..i], t) + (if q[i].task == t then 1 else 0) + Count(q[i + 1..], t)
  {
    assert q == q[..i] + ([q[i]] + q[i + 1..]);
    CountAppend(q[..i], [q[i]] + q[i + 1..], t);
    CountAppend([q[i]], q[i + 1..], t);
    assert [q[i]][..0] == [];
  }

  /** A callback that is pending is counted. */
  lemma CountMember(q: seq<Callback>, i: nat)
    requires i < |q|
    ensures Count(q, q[i].task) >= 1
  {
    CountSplit(q, i, q[i].task);
  }

  /** Handler.postDelayed (and Handler.post, with delay 0): the callback joins
      the pending ones and nothing else changes. */
  function PostDelayed(q: seq<Callback>, t: Task, delayMs: int): (r: seq<Callback>)
    ensures Count(r, t) == Count(q, t) + 1
    ensures forall u :: u != t ==> Count(r, u) == Count(q, u)
    ensures forall c :: c in r <==> c in q || c == Callback(t, delayMs)
  {
    var r := q + [Callback(t, delayMs)];
    assert r[..|r| - 1] == q;
    r
  }

  /** Handler.removeCallbacks(runnable): every pending post of `t` is dropped,
      every other pending callback stays, in its order. */
  function RemoveCallbacks(q: seq<Callback>, t: Task): (r: seq<Callback>)
    ensures Count(r, t) == 0
    ensures forall u :: u != t ==> Count(r, u) == Count(q, u)
    ensures forall c :: c in r <==> c in q && c.task != t
    decreases |q|
  {
    if q == [] then []
    else
      var rest := RemoveCallbacks(q[..|q| - 1], t);
      var last := q[|q| - 1];
      assert q == q[..|q| - 1] + [last];
      if last.task == t then rest
      else
        var r := rest + [last];
        assert r[..|r| - 1] == rest;
        r
  }

  /** The handler takes the `i`-th pending callback off the queue to run it. */
  function RemoveAt(q: seq<Callback>, i: nat): (r: seq<Callback>)
    requires i < |q|
    ensures Count(r, q[i].task) == Count(q, q[i].task) - 1
    ensures forall u :: u != q[i].task ==> Count(r, u) == Count(q, u)
    ensures forall c :: c in r ==> c in q
  {
    CountSplit(q, i, PauseAtEndpoint);
    CountSplit(q, i, UpdatePositionData);
    CountAppend(q[..i], q[i + 1..], PauseAtEndpoint);
    CountAppend(q[..i], q[i + 1..], UpdatePositionData);
    q[..i] + q[i + 1..]
  }
}
