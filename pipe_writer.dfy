/**
 * The conduit writer (`UnixPipeWriter`): for every data frame of a
 * connection it announces the connection's conduit path downstream, makes
 * sure a named pipe is open for that path, and writes the frame's bytes to
 * it.  A "new connection" control notice from another source empties its
 * pending input.
 *
 * The state of the writer, of the files on disk and of the pipe handles it
 * opened is a `WriterState`; the pure functions below say what each step
 * does to it, and the class `UnixPipeWriter` performs those steps in place.
 * Handles are numbered in the order they are opened; what the writer does to
 * them (open, close, write), and each message it pushes downstream, is
 * recorded in order in `effects`.
 */
module PipeWriting {
  import opened Messages

  /** At most this many messages are handled per cycle (`1000.times`). */
  const Batch: nat := 1000

  datatype Effect =
    | Opened(handle: nat, path: string)   // Fifo.new(path): creates the named pipe and opens it
    | Closed(handle: nat)
    | Wrote(handle: nat, bytes: string)
    | Sent(msg: Msg)                      // pushed to the output queue

  datatype WriterState = WriterState(
    inQueue: seq<Msg>,
    outQueue: seq<Msg>,
    pipes: map<string, nat>,  // @pipes: conduit path to its open handle
    nextHandle: nat,
    disk: set<string>,        // the paths that exist on disk
    effects: seq<Effect>)

  /**
   * Every handle in the table is open, was opened for its own path, and
   * belongs to no other path; every handle ever used is below `nextHandle`.
   */
  ghost predicate Valid(s: WriterState) {
    && (forall e :: e in s.effects && !e.Sent? ==> e.handle < s.nextHandle)
    && (forall p :: p in s.pipes ==> Opened(s.pipes[p], p) in s.effects && Closed(s.pipes[p]) !in s.effects)
    && (forall p, q :: p in s.pipes && q in s.pipes && p != q ==> s.pipes[p] != s.pipes[q])
  }

  // ---------------------------------------------------------------- paths

  /** `s` with every trailing '/' removed. */
  function TrimSlashes(s: string): string {
    if s == [] || s[|s| - 1] != '/' then s else TrimSlashes(s[..|s| - 1])
  }

  /** Trimming keeps a prefix that does not end in '/', and removes only slashes. */
  lemma {:induction false} TrimSlashesSpec(s: string)
    ensures var r := TrimSlashes(s);
      && |r| <= |s| && r == s[..|r|]
      && (r == [] || r[|r| - 1] != '/')
      && forall i :: |r| <= i < |s| ==> s[i] == '/'
  {
    if s != [] && s[|s| - 1] == '/' {
      var t := s[..|s| - 1];
      TrimSlashesSpec(t);
      var r := TrimSlashes(t);
      assert s[..|r|] == t[..|r|];
    }
  }

  /**
   * Ruby's `File.join(a, b)`: when `b` starts with '/', the trailing slashes
   * of `a` are dropped; otherwise a '/' is inserted unless `a` already ends
   * with one.
   */
  function JoinSegment(a: string, b: string): string {
    if b != [] && b[0] == '/' then TrimSlashes(a) + b
    else if a != [] && a[|a| - 1] == '/' then a + b
    else a + "/" + b
  }

  /** `path`: `File.join(File.absolute_path('.'), 'data', connection_id.to_s)` with `cwd` the absolute working directory. */
  function Path(cwd: string, id: string): string {
    JoinSegment(JoinSegment(cwd, "data"), id)
  }

  /** The directory all conduits live in. */
  function DataDir(cwd: string): (r: string)
    ensures |r| >= 5 && r[|r| - 5..] == "/data"
  {
    var d := JoinSegment(cwd, "data");
    assert d[|d| - 5..] == "/data" by {
      if cwd != [] && cwd[|cwd| - 1] == '/' {
        assert d == cwd[..|cwd| - 1] + "/data";
      }
    }
    d
  }

  /** An id that does not start with '/' becomes the last path component under the data directory. */
  lemma PathShape(cwd: string, id: string)
    requires id == [] || id[0] != '/'
    ensures Path(cwd, id) == DataDir(cwd) + "/" + id
  {
  }

  /** Two such ids share a conduit only if they are equal. */
  lemma {:induction false} PathInjective(cwd: string, id1: string, id2: string)
    requires id1 == [] || id1[0] != '/'
    requires id2 == [] || id2[0] != '/'
    ensures Path(cwd, id1) == Path(cwd, id2) <==> id1 == id2
  {
    PathShape(cwd, id1);
    PathShape(cwd, id2);
    var d := DataDir(cwd) + "/";
    if Path(cwd, id1) == Path(cwd, id2) {
      assert id1 == (d + id1)[|d|..];
      assert id2 == (d + id2)[|d|..];
    }
  }

  /** An id with a leading '/' lands on the same conduit as the id without it. */
  lemma LeadingSlashCollides(cwd: string, id: string)
    requires id == [] || id[0] != '/'
    ensures Path(cwd, "/" + id) == Path(cwd, id)
  {
    PathShape(cwd, id);
    assert DataDir(cwd) != [] && DataDir(cwd)[|DataDir(cwd)| - 1] != '/';
  }

  // ---------------------------------------------------------------- steps

  /**
   * `ensure_fifo_exists p` as intended: a table entry whose path vanished
   * from disk is closed and removed; then a path without an entry gets a
   * freshly created named pipe.
   */
  function EnsureFifo(s: WriterState, p: string): WriterState {
    var s1 :=
      if p !in s.disk && p in s.pipes
      then s.(pipes := s.pipes - {p}, effects := s.effects + [Closed(s.pipes[p])])
      else s;
    if p in s1.pipes then s1
    else s1.(pipes := s1.pipes[p := s1.nextHandle], nextHandle := s1.nextHandle + 1,
             disk := s1.disk + {p}, effects := s1.effects + [Opened(s1.nextHandle, p)])
  }

  /**
   * Afterwards `p` is on disk with an open handle of its own.  An existing
   * path that had a handle keeps it and nothing happens; otherwise a fresh
   * handle replaces the old entry, after closing the old handle if the path
   * had vanished.  Entries for other paths and both queues are unchanged.
   */
  lemma EnsureFifoSpec(s: WriterState, p: string)
    requires Valid(s)
    ensures var r := EnsureFifo(s, p);
      && Valid(r) && p in r.pipes && p in r.disk
      && (p in s.disk && p in s.pipes ==> r == s)
      && (p in s.disk && p !in s.pipes ==>
            r.pipes == s.pipes[p := s.nextHandle] && r.effects == s.effects + [Opened(s.nextHandle, p)])
      && (p !in s.disk && p in s.pipes ==>
            r.pipes == s.pipes[p := s.nextHandle]
            && r.effects == s.effects + [Closed(s.pipes[p]), Opened(s.nextHandle, p)])
      && (p !in s.disk && p !in s.pipes ==>
            r.pipes == s.pipes[p := s.nextHandle] && r.effects == s.effects + [Opened(s.nextHandle, p)])
      && r.disk == s.disk + {p}
      && r.inQueue == s.inQueue && r.outQueue == s.outQueue
  {
    EnsureFifoValid(s, p);
    if p !in s.disk && p in s.pipes {
      assert (s.pipes - {p})[p := s.nextHandle] == s.pipes[p := s.nextHandle];
    }
  }

  lemma EnsureFifoValid(s: WriterState, p: string)
    requires Valid(s)
    ensures Valid(EnsureFifo(s, p))
  {
    if p !in s.disk && p in s.pipes {
      var r := EnsureFifo(s, p);
      var old_h := s.pipes[p];
      assert r.effects == s.effects + [Closed(old_h), Opened(s.nextHandle, p)];
      forall q | q in r.pipes ensures Opened(r.pipes[q], q) in r.effects && Closed(r.pipes[q]) !in r.effects {
        if q != p {
          assert s.pipes[q] != old_h;
        }
      }
    }
  }

  /** `push_to_fifo_block`: write the bytes to the path's handle. */
  function Write(s: WriterState, p: string, data: string): WriterState
    requires p in s.pipes
  {
    s.(effects := s.effects + [Wrote(s.pipes[p], data)])
  }

  /** `push_details`: announce the connection's conduit downstream. */
  function Announced(s: WriterState, cwd: string, id: string): WriterState {
    var a := Announcement(Path(cwd, id));
    s.(outQueue := s.outQueue + [a], effects := s.effects + [Sent(a)])
  }

  /** `push_to_pipe`: make sure the conduit is open, then write to it. */
  function Delivered(s: WriterState, cwd: string, id: string, data: string): WriterState {
    var p := Path(cwd, id);
    EnsureFifoHasPath(s, p);
    Write(EnsureFifo(s, p), p, data)
  }

  lemma EnsureFifoHasPath(s: WriterState, p: string)
    ensures p in EnsureFifo(s, p).pipes
  {
  }

  /** `handle_data`: announce first, then write. */
  function FrameHandled(s: WriterState, cwd: string, id: string, data: string): WriterState {
    Delivered(Announced(s, cwd, id), cwd, id, data)
  }

  /** `handle_message`: a data frame is written; a new-connection notice from another source clears the input queue. */
  function Handled(s: WriterState, cwd: string, m: Msg): WriterState {
    if m.connId.Some? && m.data.Some? then FrameHandled(s, cwd, m.connId.value, m.data.value)
    else if m.sourceKey.Some? && m.pipeMessage.Some? then
      if m.pipeMessage.value == NewConn && m.sourceKey != m.targetKey then s.(inQueue := []) else s
    else s
  }

  /** `cycle` with `budget` messages left to handle: pop one and handle it, until the queue is empty. */
  function CycleFrom(s: WriterState, cwd: string, budget: nat): WriterState
    decreases budget
  {
    if budget == 0 || s.inQueue == [] then s
    else CycleFrom(Handled(s.(inQueue := s.inQueue[1..]), cwd, s.inQueue[0]), cwd, budget - 1)
  }

  /** One step of `cycle`: a non-empty queue and a positive budget handle the head first. */
  lemma CycleAdvance(s: WriterState, cwd: string, budget: nat, next: WriterState, target: WriterState)
    requires budget > 0 && s.inQueue != []
    requires next == Handled(s.(inQueue := s.inQueue[1..]), cwd, s.inQueue[0])
    requires CycleFrom(s, cwd, budget) == target
    ensures CycleFrom(next, cwd, budget - 1) == target
  {
  }

  /** With nothing queued, or no budget left, a cycle changes nothing. */
  lemma CycleDone(s: WriterState, cwd: string, budget: nat)
    requires budget == 0 || s.inQueue == []
    ensures CycleFrom(s, cwd, budget) == s
  {
  }

  // ---------------------------------------------------------------- properties

  /** Handling any message keeps every handle in the table open and its own. */
  lemma HandledValid(s: WriterState, cwd: string, m: Msg)
    requires Valid(s)
    ensures Valid(Handled(s, cwd, m))
  {
    if m.connId.Some? && m.data.Some? {
      var s1 := Announced(s, cwd, m.connId.value);
      EnsureFifoSpec(s1, Path(cwd, m.connId.value));
    }
  }

  lemma {:induction false} CycleValid(s: WriterState, cwd: string, budget: nat)
    requires Valid(s)
    ensures Valid(CycleFrom(s, cwd, budget))
    decreases budget
  {
    if budget > 0 && s.inQueue != [] {
      HandledValid(s.(inQueue := s.inQueue[1..]), cwd, s.inQueue[0]);
      CycleValid(Handled(s.(inQueue := s.inQueue[1..]), cwd, s.inQueue[0]), cwd, budget - 1);
    }
  }

  predicate IsDataFrame(m: Msg) {
    m.connId.Some? && m.data.Some?
  }

  /** A new-connection notice whose source is not its target. */
  predicate IsForeignNewConn(m: Msg) {
    !IsDataFrame(m) && m.sourceKey.Some? && m.pipeMessage == Some(NewConn) && m.sourceKey != m.targetKey
  }

  /** Every message of `q` is a data frame. */
  predicate AllFrames(q: seq<Msg>) {
    q == [] || (IsDataFrame(q[0]) && AllFrames(q[1..]))
  }

  /** The announcements a queue of data frames produces, in order. */
  function AnnouncementsFor(cwd: string, q: seq<Msg>): seq<Msg>
    requires AllFrames(q)
  {
    if q == [] then []
    else [Announcement(Path(cwd, q[0].connId.value))] + AnnouncementsFor(cwd, q[1..])
  }

  /** The bytes a queue of data frames carries, frame by frame. */
  function Payloads(q: seq<Msg>): seq<string>
    requires AllFrames(q)
  {
    if q == [] then []
    else [q[0].data.value] + Payloads(q[1..])
  }

  /** The bytes written, write by write, whatever the handle. */
  function Writes(effects: seq<Effect>): seq<string> {
    if effects == [] then []
    else Writes(effects[..|effects| - 1]) + (if effects[|effects| - 1].Wrote? then [effects[|effects| - 1].bytes] else [])
  }

  lemma WritesSnoc(effects: seq<Effect>, e: Effect)
    ensures Writes(effects + [e]) == Writes(effects) + (if e.Wrote? then [e.bytes] else [])
  {
    assert (effects + [e])[..|effects|] == effects;
  }

  /** Making sure a conduit exists writes nothing and leaves both queues alone. */
  lemma EnsureFifoWritesNothing(s: WriterState, p: string)
    ensures var r := EnsureFifo(s, p);
      && Writes(r.effects) == Writes(s.effects) && r.inQueue == s.inQueue && r.outQueue == s.outQueue
      && s.effects <= r.effects
  {
    if p !in s.disk && p in s.pipes {
      WritesSnoc(s.effects, Closed(s.pipes[p]));
      var s1 := s.(pipes := s.pipes - {p}, effects := s.effects + [Closed(s.pipes[p])]);
      WritesSnoc(s1.effects, Opened(s1.nextHandle, p));
    } else if p !in s.pipes {
      WritesSnoc(s.effects, Opened(s.nextHandle, p));
    }
  }

  /**
   * A data frame adds exactly one announcement and exactly one write, of its
   * own bytes; the announcement is pushed before anything else happens and
   * the write comes last, through the conduit's handle.
   */
  lemma HandleDataFrame(s: WriterState, cwd: string, m: Msg)
    requires IsDataFrame(m)
    ensures var r := Handled(s, cwd, m); var p := Path(cwd, m.connId.value);
      && r.inQueue == s.inQueue
      && r.outQueue == s.outQueue + [Announcement(p)]
      && Writes(r.effects) == Writes(s.effects) + [m.data.value]
      && |r.effects| >= |s.effects| + 2
      && r.effects[..|s.effects| + 1] == s.effects + [Sent(Announcement(p))]
      && p in r.pipes && r.effects[|r.effects| - 1] == Wrote(r.pipes[p], m.data.value)
  {
    FrameQueues(s, cwd, m);
    FrameTrace(s, cwd, m);
  }

  lemma FrameQueues(s: WriterState, cwd: string, m: Msg)
    requires IsDataFrame(m)
    ensures var r := Handled(s, cwd, m);
      && r.inQueue == s.inQueue
      && r.outQueue == s.outQueue + [Announcement(Path(cwd, m.connId.value))]
      && Writes(r.effects) == Writes(s.effects) + [m.data.value]
  {
    var s1 := Announced(s, cwd, m.connId.value);
    var p := Path(cwd, m.connId.value);
    WritesSnoc(s.effects, Sent(Announcement(p)));
    EnsureFifoWritesNothing(s1, p);
    var s2 := EnsureFifo(s1, p);
    WritesSnoc(s2.effects, Wrote(s2.pipes[p], m.data.value));
  }

  lemma FrameTrace(s: WriterState, cwd: string, m: Msg)
    requires IsDataFrame(m)
    ensures var r := Handled(s, cwd, m); var p := Path(cwd, m.connId.value);
      && |r.effects| >= |s.effects| + 2
      && r.effects[..|s.effects| + 1] == s.effects + [Sent(Announcement(p))]
      && p in r.pipes && r.effects[|r.effects| - 1] == Wrote(r.pipes[p], m.data.value)
  {
    var s1 := Announced(s, cwd, m.connId.value);
    var p := Path(cwd, m.connId.value);
    EnsureFifoWritesNothing(s1, p);
    EnsureFifoHasPath(s1, p);
    var s2 := EnsureFifo(s1, p);
    var r := Handled(s, cwd, m);
    assert r.effects == s2.effects + [Wrote(s2.pipes[p], m.data.value)];
    assert r.effects[..|s.effects| + 1] == s2.effects[..|s.effects| + 1] == s1.effects;
  }

  /** What one step of a cycle over a queue of data frames does: the first frame is announced and written, the rest remain. */
  ghost predicate FrameStepped(s: WriterState, cwd: string, budget: nat, s1: WriterState)
    requires s.inQueue != [] && AllFrames(s.inQueue)
  {
    var m := s.inQueue[0];
    && budget > 0
    && CycleFrom(s, cwd, budget) == CycleFrom(s1, cwd, budget - 1)
    && s1.inQueue == s.inQueue[1..]
    && s1.outQueue == s.outQueue + [Announcement(Path(cwd, m.connId.value))]
    && Writes(s1.effects) == Writes(s.effects) + [m.data.value]
  }

  lemma FrameStep(s: WriterState, cwd: string, budget: nat)
    requires budget > 0 && s.inQueue != [] && AllFrames(s.inQueue)
    ensures exists s1 :: FrameStepped(s, cwd, budget, s1)
  {
    var s1 := Handled(s.(inQueue := s.inQueue[1..]), cwd, s.inQueue[0]);
    HandleDataFrame(s.(inQueue := s.inQueue[1..]), cwd, s.inQueue[0]);
    assert FrameStepped(s, cwd, budget, s1);
  }

  /**
   * A queue of at most 1000 data frames is handled in one cycle: the queue
   * ends empty and every frame is announced, in order.
   */
  lemma {:induction false} CycleDrainsFrames(s: WriterState, cwd: string, budget: nat)
    requires AllFrames(s.inQueue)
    requires |s.inQueue| <= budget
    ensures CycleFrom(s, cwd, budget).inQueue == []
    ensures CycleFrom(s, cwd, budget).outQueue == s.outQueue + AnnouncementsFor(cwd, s.inQueue)
    decreases budget
  {
    if s.inQueue != [] {
      FrameStep(s, cwd, budget);
      var s1 :| FrameStepped(s, cwd, budget, s1);
      var a := Announcement(Path(cwd, s.inQueue[0].connId.value));
      CycleDrainsFrames(s1, cwd, budget - 1);
      assert AnnouncementsFor(cwd, s.inQueue) == [a] + AnnouncementsFor(cwd, s1.inQueue);
      ConcatAssoc(s.outQueue, [a], AnnouncementsFor(cwd, s1.inQueue));
    }
  }

  /** In that cycle the bytes written are the frames' bytes, frame by frame. */
  lemma {:induction false} CycleWritesFrames(s: WriterState, cwd: string, budget: nat)
    requires AllFrames(s.inQueue)
    requires |s.inQueue| <= budget
    ensures Writes(CycleFrom(s, cwd, budget).effects) == Writes(s.effects) + Payloads(s.inQueue)
    decreases budget
  {
    if s.inQueue != [] {
      FrameStep(s, cwd, budget);
      var s1 :| FrameStepped(s, cwd, budget, s1);
      var d := s.inQueue[0].data.value;
      CycleWritesFrames(s1, cwd, budget - 1);
      assert Payloads(s.inQueue) == [d] + Payloads(s1.inQueue);
      ConsThrough(Writes(CycleFrom(s1, cwd, budget - 1).effects), Writes(s1.effects), Writes(s.effects), d, Payloads(s1.inQueue), Payloads(s.inQueue));
    }
  }

  /** Appending one element and then a tail is appending the tail with the element in front. */
  lemma ConsThrough<T>(r: seq<T>, w1: seq<T>, w: seq<T>, d: T, tail: seq<T>, whole: seq<T>)
    requires r == w1 + tail && w1 == w + [d] && whole == [d] + tail
    ensures r == w + whole
  {
  }

  /**
   * A cycle handles at most `budget` messages: unless the queue was emptied,
   * exactly the first `budget` messages are gone.  Without a foreign
   * new-connection notice among them, the queue is emptied only when it held
   * no more than `budget` messages.
   */
  lemma {:induction false} CycleBounded(s: WriterState, cwd: string, budget: nat)
    ensures var r := CycleFrom(s, cwd, budget);
      r.inQueue == [] || (budget < |s.inQueue| && r.inQueue == s.inQueue[budget..])
    ensures (forall i :: 0 <= i < |s.inQueue| ==> !IsForeignNewConn(s.inQueue[i])) ==>
      CycleFrom(s, cwd, budget).inQueue == if |s.inQueue| <= budget then [] else s.inQueue[budget..]
    decreases budget
  {
    if budget > 0 && s.inQueue != [] {
      QueueStep(s, cwd, budget);
      var s1 :| QueueStepped(s, cwd, budget, s1);
      CycleBounded(s1, cwd, budget - 1);
      if !IsForeignNewConn(s.inQueue[0]) {
        if budget - 1 < |s1.inQueue| {
          assert s.inQueue[1..][budget - 1..] == s.inQueue[budget..];
        }
        if forall i :: 0 <= i < |s.inQueue| ==> !IsForeignNewConn(s.inQueue[i]) {
          assert forall i :: 0 <= i < |s1.inQueue| ==> s1.inQueue[i] == s.inQueue[i + 1];
        }
      }
    }
  }

  /** What one step of a cycle does to the input queue: a foreign new-connection notice empties it, anything else is just popped. */
  ghost predicate QueueStepped(s: WriterState, cwd: string, budget: nat, s1: WriterState)
    requires s.inQueue != []
  {
    && budget > 0
    && CycleFrom(s, cwd, budget) == CycleFrom(s1, cwd, budget - 1)
    && s1.inQueue == if IsForeignNewConn(s.inQueue[0]) then [] else s.inQueue[1..]
  }

  lemma QueueStep(s: WriterState, cwd: string, budget: nat)
    requires budget > 0 && s.inQueue != []
    ensures exists s1 :: QueueStepped(s, cwd, budget, s1)
  {
    var rest := s.(inQueue := s.inQueue[1..]);
    var m := s.inQueue[0];
    if IsDataFrame(m) {
      HandleDataFrame(rest, cwd, m);
    }
    assert QueueStepped(s, cwd, budget, Handled(rest, cwd, m));
  }

  /** A new-connection notice from another source ends the cycle with nothing left to handle and nothing else changed. */
  lemma ForeignNoticeClears(s: WriterState, cwd: string, budget: nat)
    requires budget > 0 && s.inQueue != [] && IsForeignNewConn(s.inQueue[0])
    ensures CycleFrom(s, cwd, budget) == s.(inQueue := [])
  {
  }

  /** A notice that is not a foreign new-connection notice, and any message that is neither notice nor data frame, changes nothing. */
  lemma OtherMessagesIgnored(s: WriterState, cwd: string, m: Msg)
    requires !IsDataFrame(m) && !IsForeignNewConn(m)
    ensures Handled(s, cwd, m) == s
  {
  }

  // ---------------------------------------------------------------- as written

  /**
   * `ensure_fifo_exists` as the source reads: the `rescue` modifier at the
   * end of unix_pipe_writer.rb:99 takes the next line as its rescue value,
   * so the entry of a vanished path is deleted only when closing its handle
   * raises.  Closing normally keeps the closed handle in the table, and
   * `||=` then reuses it.
   */
  function EnsureFifoAsWritten(s: WriterState, p: string): WriterState {
    var s1 :=
      if p !in s.disk && p in s.pipes then s.(effects := s.effects + [Closed(s.pipes[p])]) else s;
    if p in s1.pipes then s1
    else s1.(pipes := s1.pipes[p := s1.nextHandle], nextHandle := s1.nextHandle + 1,
             disk := s1.disk + {p}, effects := s1.effects + [Opened(s1.nextHandle, p)])
  }

  /**
   * A conduit whose file was removed is written through the handle that was
   * just closed (Ruby raises IOError there), while the intended step writes
   * through a fresh open handle.
   */
  lemma AsWrittenWritesClosedHandle(p: string, data: string)
    ensures var s := WriterState([], [], map[p := 0], 1, {}, [Opened(0, p)]);
      && Valid(s)
      && Write(EnsureFifoAsWritten(s, p), p, data).effects == [Opened(0, p), Closed(0), Wrote(0, data)]
      && Write(EnsureFifo(s, p), p, data).effects == [Opened(0, p), Closed(0), Opened(1, p), Wrote(1, data)]
  {
    var s := WriterState([], [], map[p := 0], 1, {}, [Opened(0, p)]);
    assert (map[p := 0] - {p})[p := 1] == map[p := 1];
  }

  // ---------------------------------------------------------------- the writer

  class UnixPipeWriter {
    const cwd: string  // File.absolute_path('.')
    var inQueue: seq<Msg>
    var outQueue: seq<Msg>
    var pipes: map<string, nat>
    var nextHandle: nat
    var disk: set<string>
    var effects: seq<Effect>

    function State(): WriterState
      reads this
    {
      WriterState(inQueue, outQueue, pipes, nextHandle, disk, effects)
    }

    constructor (cwd: string, disk: set<string>)
      ensures this.cwd == cwd
      ensures State() == WriterState([], [], map[], 0, disk, [])
      ensures Valid(State())
    {
      this.cwd := cwd;
      inQueue, outQueue := [], [];
      pipes, nextHandle := map[], 0;
      this.disk := disk;
      effects := [];
    }

    method EnsureFifoExists(p: string)
      modifies this
      ensures State() == EnsureFifo(old(State()), p)
    {
      if p !in disk {
        if p in pipes {
          effects := effects + [Closed(pipes[p])];
        }
        pipes := pipes - {p};
      }
      if p !in pipes {
        pipes := pipes[p := nextHandle];
        disk := disk + {p};
        effects := effects + [Opened(nextHandle, p)];
        nextHandle := nextHandle + 1;
      }
    }

    method PushToFifo(p: string, data: string)
      requires p in pipes
      modifies this
      ensures State() == Write(old(State()), p, data)
    {
      effects := effects + [Wrote(pipes[p], data)];
    }

    method PushDetails(id: string)
      modifies this
      ensures State() == Announced(old(State()), cwd, id)
    {
      var a := Announcement(Path(cwd, id));
      outQueue := outQueue + [a];
      effects := effects + [Sent(a)];
    }

    method PushToPipe(id: string, data: string)
      modifies this
      ensures State() == Delivered(old(State()), cwd, id, data)
    {
      var p := Path(cwd, id);
      EnsureFifoExists(p);
      PushToFifo(p, data);
    }

    method HandleData(id: string, data: string)
      modifies this
      ensures State() == FrameHandled(old(State()), cwd, id, data)
    {
      PushDetails(id);
      PushToPipe(id, data);
    }

    method ClearQueue()
      modifies this
      ensures State() == old(State()).(inQueue := [])
    {
      inQueue := [];
    }

    method HandleMessage(m: Msg)
      modifies this
      ensures State() == Handled(old(State()), cwd, m)
    {
      if m.connId.Some? && m.data.Some? {
        HandleData(m.connId.value, m.data.value);
      } else if m.sourceKey.Some? && m.pipeMessage.Some? {
        if m.pipeMessage.value == NewConn && m.sourceKey != m.targetKey {
          ClearQueue();
        }
      }
    }

    /** `cycle`: handle up to 1000 queued messages, stopping early when the queue is empty. */
    method Cycle()
      requires Valid(State())
      modifies this
      ensures State() == CycleFrom(old(State()), cwd, Batch)
      ensures Valid(State())
    {
      CycleValid(State(), cwd, Batch);
      ghost var target := CycleFrom(State(), cwd, Batch);
      var left: nat := Batch;
      while left > 0
        invariant left <= Batch
        invariant CycleFrom(State(), cwd, left) == target
      {
        if inQueue == [] {
          CycleDone(State(), cwd, left);
          return;
        }
        ghost var before := State();
        var m := inQueue[0];
        inQueue := inQueue[1..];
        assert State() == before.(inQueue := before.inQueue[1..]);
        HandleMessage(m);
        CycleAdvance(before, cwd, left, State(), target);
        left := left - 1;
      }
      CycleDone(State(), cwd, left);
    }
  }
}
