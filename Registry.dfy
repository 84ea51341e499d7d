/** PageManager.java: the per-thread registry of the current page and frame.
    The two static ThreadLocals become two maps keyed by the executing thread; a thread
    without an entry is a thread whose ThreadLocal returns null. */
module Registry {
  import opened Common

  /** The contents of both ThreadLocals, for all threads at once. */
  datatype Slots = Slots(tlPage: map<ThreadId, Page>, tlFrame: map<ThreadId, Frame>)

  /** What one thread sees: its page and its explicitly chosen frame, each possibly null. */
  datatype Slot = Slot(page: Option<Page>, frame: Option<Frame>)

  const Empty := Slots(map[], map[])

  function SlotOf(s: Slots, t: ThreadId): Slot {
    Slot(if t in s.tlPage then Some(s.tlPage[t]) else None,
         if t in s.tlFrame then Some(s.tlFrame[t]) else None)
  }

  /** `getPage()`. */
  function PageOf(s: Slots, t: ThreadId): Option<Page> {
    SlotOf(s, t).page
  }

  /** `getFrame()` dereferences the page only when no frame is set; with neither set
      it throws a NullPointerException, so callers must not get there. */
  predicate CanGetFrame(s: Slots, t: ThreadId) {
    t in s.tlFrame || t in s.tlPage
  }

  /** `getFrame()`: the explicitly set frame, else the main frame of the page. */
  function FrameOf(s: Slots, t: ThreadId): Frame
    requires CanGetFrame(s, t)
  {
    if t in s.tlFrame then s.tlFrame[t] else s.tlPage[t].mainFrame
  }

  /** `setPage(p)`: the page is stored and the frame forgotten, so a following
      `getFrame()` yields the main frame of `p` and never a frame of an earlier page. */
  function WithPage(s: Slots, t: ThreadId, p: Page): (r: Slots)
    ensures SlotOf(r, t) == Slot(Some(p), None)
    ensures PageOf(r, t) == Some(p)
    ensures CanGetFrame(r, t) && FrameOf(r, t) == p.mainFrame
    ensures forall u | u != t :: SlotOf(r, u) == SlotOf(s, u)
  {
    Slots(s.tlPage[t := p], s.tlFrame - {t})
  }

  /** `setFrame(f)`; `setFrame(null)` (used by `switchToDefaultFrame`) makes
      `getFrame()` fall back to the page's main frame. */
  function WithFrame(s: Slots, t: ThreadId, f: Option<Frame>): (r: Slots)
    ensures SlotOf(r, t) == Slot(PageOf(s, t), f)
    ensures f.Some? ==> CanGetFrame(r, t) && FrameOf(r, t) == f.value
    ensures f.None? ==> (CanGetFrame(r, t) <==> PageOf(s, t).Some?)
    ensures f.None? && PageOf(s, t).Some? ==> FrameOf(r, t) == PageOf(s, t).value.mainFrame
    ensures forall u | u != t :: SlotOf(r, u) == SlotOf(s, u)
  {
    match f
    case Some(fr) => Slots(s.tlPage, s.tlFrame[t := fr])
    case None => Slots(s.tlPage, s.tlFrame - {t})
  }

  /** `unload()`: the thread is left with neither page nor frame. */
  function Unloaded(s: Slots, t: ThreadId): (r: Slots)
    ensures SlotOf(r, t) == Slot(None, None)
    ensures !CanGetFrame(r, t)
    ensures forall u | u != t :: SlotOf(r, u) == SlotOf(s, u)
  {
    Slots(s.tlPage - {t}, s.tlFrame - {t})
  }

  /** Calling `unload()` twice is the same as calling it once. */
  lemma UnloadIdempotent(s: Slots, t: ThreadId)
    ensures Unloaded(Unloaded(s, t), t) == Unloaded(s, t)
  {
  }

  // ---------------------------------------------------------------------------------
  // Histories of registry calls made by many threads

  datatype Op = SetPage(page: Page) | SetFrame(frame: Option<Frame>) | Unload
  datatype Call = Call(thread: ThreadId, op: Op)

  function Apply(s: Slots, c: Call): Slots {
    match c.op
    case SetPage(p) => WithPage(s, c.thread, p)
    case SetFrame(f) => WithFrame(s, c.thread, f)
    case Unload => Unloaded(s, c.thread)
  }

  /** The registry after the calls, performed in order. */
  function Run(s: Slots, calls: seq<Call>): Slots
    decreases |calls|
  {
    if calls == [] then s else Run(Apply(s, calls[0]), calls[1..])
  }

  /** The calls that thread `u` made, in their order. */
  function OwnCalls(calls: seq<Call>, u: ThreadId): (r: seq<Call>)
    ensures forall i | 0 <= i < |r| :: r[i].thread == u
  {
    if calls == [] then []
    else (if calls[0].thread == u then [calls[0]] else []) + OwnCalls(calls[1..], u)
  }

  /** What a thread's own calls do to its entry depends only on its entry. */
  lemma {:induction false} OwnRunDependsOnOwnSlot(a: Slots, b: Slots, calls: seq<Call>, u: ThreadId)
    requires forall i | 0 <= i < |calls| :: calls[i].thread == u
    requires SlotOf(a, u) == SlotOf(b, u)
    ensures SlotOf(Run(a, calls), u) == SlotOf(Run(b, calls), u)
    decreases |calls|
  {
    if calls != [] {
      var a', b' := Apply(a, calls[0]), Apply(b, calls[0]);
      assert SlotOf(a', u) == SlotOf(b', u);
      OwnRunDependsOnOwnSlot(a', b', calls[1..], u);
    }
  }

  /** Thread isolation: however the calls of all threads interleave, the entry of thread
      `u` is exactly what `u`'s own calls alone would have made of it. */
  lemma {:induction false} ThreadIsolation(s: Slots, calls: seq<Call>, u: ThreadId)
    ensures SlotOf(Run(s, calls), u) == SlotOf(Run(s, OwnCalls(calls, u)), u)
    decreases |calls|
  {
    if calls != [] {
      var c, rest := calls[0], calls[1..];
      var s' := Apply(s, c);
      ThreadIsolation(s', rest, u);
      if c.thread == u {
        assert OwnCalls(calls, u) == [c] + OwnCalls(rest, u);
        assert ([c] + OwnCalls(rest, u))[1..] == OwnCalls(rest, u);
      } else {
        assert OwnCalls(calls, u) == OwnCalls(rest, u);
        assert SlotOf(s', u) == SlotOf(s, u);
        OwnRunDependsOnOwnSlot(s', s, OwnCalls(rest, u), u);
      }
    }
  }

  /** Once a thread has no page, it gets none back until it calls `setPage` itself:
      after `unload()` at teardown, `getPage()` stays null until the next setup. */
  lemma {:induction false} NoPageUntilSetPage(s: Slots, calls: seq<Call>, t: ThreadId)
    requires PageOf(s, t) == None
    requires forall i | 0 <= i < |calls| :: calls[i].thread == t ==> !calls[i].op.SetPage?
    ensures PageOf(Run(s, calls), t) == None
    decreases |calls|
  {
    if calls != [] {
      var s' := Apply(s, calls[0]);
      assert PageOf(s', t) == None;
      NoPageUntilSetPage(s', calls[1..], t);
    }
  }

  // ---------------------------------------------------------------------------------
  // The registry object

  /** The static state of PageManager, passed explicitly instead of being ambient. */
  class PageManager {
    var tlPage: map<ThreadId, Page>
    var tlFrame: map<ThreadId, Frame>

    function State(): Slots
      reads this
    {
      Slots(tlPage, tlFrame)
    }

    constructor ()
      ensures State() == Empty
    {
      tlPage, tlFrame := map[], map[];
    }

    method SetPage(t: ThreadId, page: Page)
      modifies this
      ensures State() == WithPage(old(State()), t, page)
    {
      tlPage := tlPage[t := page];
      tlFrame := tlFrame - {t};
    }

    method GetPage(t: ThreadId) returns (page: Option<Page>)
      ensures page == PageOf(State(), t)
    {
      page := if t in tlPage then Some(tlPage[t]) else None;
    }

    method Unload(t: ThreadId)
      modifies this
      ensures State() == Unloaded(old(State()), t)
    {
      tlPage := tlPage - {t};
      tlFrame := tlFrame - {t};
    }

    method SetFrame(t: ThreadId, frame: Option<Frame>)
      modifies this
      ensures State() == WithFrame(old(State()), t, frame)
    {
      if frame.Some? {
        tlFrame := tlFrame[t := frame.value];
      } else {
        tlFrame := tlFrame - {t};
      }
    }

    method GetFrame(t: ThreadId) returns (frame: Frame)
      requires CanGetFrame(State(), t)
      ensures frame == FrameOf(State(), t)
    {
      if t in tlFrame {
        frame := tlFrame[t];
      } else {
        frame := tlPage[t].mainFrame;
      }
    }
  }
}
