/** `java.lang.ThreadLocal<T>` as a map from thread to value: `set(v)` writes the calling
    thread's entry, `remove()` deletes it, and `get()` answers null for a missing entry. */
module ThreadLocals {
  import opened Common

  function Get<T>(m: map<ThreadId, T>, t: ThreadId): Option<T> {
    if t in m then Some(m[t]) else None
  }

  /** One call: `set(v)` is `Some(v)`, `remove()` is `None`. */
  datatype Write<T> = Write(thread: ThreadId, value: Option<T>)

  function Put<T>(m: map<ThreadId, T>, w: Write<T>): (r: map<ThreadId, T>)
    ensures Get(r, w.thread) == w.value
    ensures forall u | u != w.thread :: Get(r, u) == Get(m, u)
  {
    match w.value
    case Some(v) => m[w.thread := v]
    case None => m - {w.thread}
  }

  /** The map after a series of calls from any threads, in order. */
  function Replay<T>(m: map<ThreadId, T>, ws: seq<Write<T>>): map<ThreadId, T>
    decreases |ws|
  {
    if ws == [] then m else Put(Replay(m, ws[..|ws| - 1]), ws[|ws| - 1])
  }

  /** The value written by the last call of thread `t`, if it made any. */
  function LastWrite<T>(ws: seq<Write<T>>, t: ThreadId): Option<Option<T>>
    decreases |ws|
  {
    if ws == [] then None
    else if ws[|ws| - 1].thread == t then Some(ws[|ws| - 1].value)
    else LastWrite(ws[..|ws| - 1], t)
  }

  /** `get()` returns what the calling thread set last, null if it removed it last, and
      the initial entry if it never wrote; other threads' calls make no difference. */
  lemma {:induction false} GetAfterReplay<T>(m: map<ThreadId, T>, ws: seq<Write<T>>, t: ThreadId)
    ensures Get(Replay(m, ws), t) == LastWrite(ws, t).GetOr(Get(m, t))
    decreases |ws|
  {
    if ws != [] {
      GetAfterReplay(m, ws[..|ws| - 1], t);
    }
  }
}
