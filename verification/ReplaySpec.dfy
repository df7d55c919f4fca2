/** The reliable-frame half of the daemon as a state machine over values: what each handler of the client
    does to the retained frames, the runs and the socket. Frame sizes, clock readings and the outcome of
    every socket write are inputs. */
module ReplaySpec {
  import opened Options

  type Exec = string
  type Task = string

  /** The payload of a task frame. `Overflow` is the small synthetic `task.fail` the client makes itself. */
  datatype Body = Data(content: string, terminal: bool) | Overflow
  datatype Wire = Wire(exec: Exec, num: nat, body: Body)
  datatype Frame = Frame(wire: Wire, bytes: nat, createdAt: int)
  datatype Socket = NoSocket | Connecting | Open | Closing
  datatype Run = Run(suppressed: bool, nextSeq: nat)
  datatype Limits = Limits(frames: nat, bytes: nat, age: nat)

  /** `sent` is what the current socket was handed. `behind` is set from the `hello.ack` until its replay has
      handed over every retained frame; it stays set when the replay stops at a frame the server would not take
      and retained frames of other executions come after it. */
  datatype Client = Client(
    pending: seq<Frame>,
    pendingBytes: int,
    ready: bool,
    socket: Socket,
    maxFrame: Option<nat>,
    inflight: map<Task, Exec>,
    runs: map<Exec, Run>,
    stopped: bool,
    sent: seq<Wire>,
    behind: bool)

  const Fresh := Client([], 0, false, NoSocket, None, map[], map[], false, [], false)

  // ---------------------------------------------------------------- retained frames

  function Bytes(p: seq<Frame>): nat {
    if p == [] then 0 else Bytes(p[..|p|-1]) + p[|p|-1].bytes
  }

  predicate Acked(f: Frame, e: Exec, upTo: int) {
    f.wire.exec == e && f.wire.num <= upTo
  }

  /** The frames that survive a cumulative acknowledgement. */
  function DropAcked(p: seq<Frame>, e: Exec, upTo: int): seq<Frame> {
    if p == [] then []
    else DropAcked(p[..|p|-1], e, upTo) + (if Acked(p[|p|-1], e, upTo) then [] else [p[|p|-1]])
  }

  /** The frames of all other executions. */
  function DropExec(p: seq<Frame>, e: Exec): seq<Frame> {
    if p == [] then []
    else DropExec(p[..|p|-1], e) + (if p[|p|-1].wire.exec == e then [] else [p[|p|-1]])
  }

  /** The numbers an execution has retained, in queue order. */
  function Nums(p: seq<Frame>, e: Exec): seq<nat> {
    if p == [] then []
    else Nums(p[..|p|-1], e) + (if p[|p|-1].wire.exec == e then [p[|p|-1].wire.num] else [])
  }

  /** Replace the retained frames and charge the difference to the byte counter. */
  function Keep(c: Client, p: seq<Frame>): Client {
    c.(pending := p, pendingBytes := c.pendingBytes - Bytes(c.pending) + Bytes(p))
  }

  function RemoveExec(c: Client, e: Exec): Client {
    Keep(c, DropExec(c.pending, e))
  }

  function Acknowledge(c: Client, e: Exec, upTo: int): Client {
    Keep(c, DropAcked(c.pending, e, upTo))
  }

  // ---------------------------------------------------------------- the socket

  function Terminate(c: Client): Client {
    if c.socket == Open then c.(socket := Closing) else c
  }

  /** `ws.send`: ignored unless open; a write that throws terminates the socket. */
  function SendEncoded(c: Client, w: Wire, ok: bool): Client {
    if c.socket != Open then c
    else if ok then c.(sent := c.sent + [w])
    else Terminate(c)
  }

  function Suppress(c: Client, e: Exec): Client {
    if e in c.runs then c.(runs := c.runs[e := c.runs[e].(suppressed := true)]) else c
  }

  predicate Suppressed(c: Client, e: Exec) {
    e in c.runs && c.runs[e].suppressed
  }

  function FailRun(c: Client, e: Exec, disconnect: bool): Client {
    if Suppressed(c, e) then c
    else
      var d := RemoveExec(Suppress(c, e), e);
      if disconnect then Terminate(d) else d
  }

  /** Send the synthetic failure at `num`; anything in the way terminates the socket instead. */
  function SendFailure(c: Client, e: Exec, num: nat, failBytes: nat, ok: bool): Client {
    if !c.ready || c.socket != Open then Terminate(c)
    else if c.maxFrame.Some? && failBytes > c.maxFrame.value then Terminate(c)
    else SendEncoded(c, Wire(e, num, Overflow), ok)
  }

  // ---------------------------------------------------------------- handlers

  predicate TooLarge(c: Client, bytes: nat) {
    c.maxFrame.Some? && bytes > c.maxFrame.value
  }

  predicate Overflows(lim: Limits, c: Client, bytes: nat) {
    TooLarge(c, bytes) || bytes > lim.bytes || |c.pending| >= lim.frames || c.pendingBytes + bytes > lim.bytes
  }

  /** `sendTaskFrame` for a run with an execution id, retention on. */
  function Emit(lim: Limits, c: Client, e: Exec, body: Body, bytes: nat, now: int, failBytes: nat, ok: bool): Client
    requires e in c.runs
  {
    if c.runs[e].suppressed then c
    else
      var num := c.runs[e].nextSeq;
      var d := c.(runs := c.runs[e := Run(false, num + 1)]);
      if Overflows(lim, d, bytes) then SendFailure(FailRun(d, e, false), e, num, failBytes, ok)
      else
        var w := Wire(e, num, body);
        var k := d.(pending := d.pending + [Frame(w, bytes, now)], pendingBytes := d.pendingBytes + bytes);
        if k.ready then SendEncoded(k, w, ok) else k
  }

  predicate InFlight(c: Client, e: Exec) {
    e in c.inflight.Values
  }

  /** Executions holding a frame created at or before `cutoff`, in queue order, each once. */
  function Expired(p: seq<Frame>, cutoff: int): (es: seq<Exec>)
    ensures forall e :: e in es <==> exists i :: 0 <= i < |p| && p[i].wire.exec == e && p[i].createdAt <= cutoff
  {
    if p == [] then []
    else
      var last := |p| - 1;
      var es := Expired(p[..last], cutoff);
      if p[last].createdAt <= cutoff && p[last].wire.exec !in es then es + [p[last].wire.exec] else es
  }

  function ExpireOne(c: Client, e: Exec): Client {
    if InFlight(c, e) then FailRun(c, e, true) else Terminate(RemoveExec(c, e))
  }

  function ExpireAll(c: Client, es: seq<Exec>): Client
    decreases |es|
  {
    if es == [] then c else ExpireAll(ExpireOne(c, es[0]), es[1..])
  }

  function Expire(lim: Limits, c: Client, now: int): Client {
    ExpireAll(c, Expired(c.pending, now - lim.age))
  }

  /** Give up an execution whose frame cannot be replayed; its run may have ended already. */
  function GiveUp(c: Client, e: Exec): Client {
    if InFlight(c, e) then FailRun(c, e, false) else RemoveExec(c, e)
  }

  /** The replay loop from position `i` on; the first `good` writes succeed, the next one throws. */
  function ReplayFrom(c: Client, i: nat, failBytes: nat, good: nat): Client
    requires i <= |c.pending|
    decreases |c.pending| - i
  {
    if i == |c.pending| then c.(behind := false)
    else
      var f := c.pending[i];
      if TooLarge(c, f.bytes) then
        var d := GiveUp(c, f.wire.exec).(behind := DropExec(c.pending[i+1..], f.wire.exec) != []);
        SendFailure(d, f.wire.exec, f.wire.num, failBytes, good > 0)
      else
        ReplayFrom(SendEncoded(c, f.wire, good > 0), i + 1, failBytes, if good > 0 then good - 1 else 0)
  }

  /** `flushPendingFrames`. */
  function Flush(lim: Limits, c: Client, now: int, failBytes: nat, good: nat): Client {
    if !c.ready || c.socket != Open then c
    else
      var d := Expire(lim, c, now);
      if d.socket != Open then d else ReplayFrom(d, 0, failBytes, good)
  }

  function HelloAck(lim: Limits, c: Client, maxFrame: nat, now: int, failBytes: nat, good: nat): Client {
    Flush(lim, c.(ready := true, maxFrame := Some(maxFrame), behind := true), now, failBytes, good)
  }

  function Cancel(c: Client, t: Task, e: Option<Exec>): Client {
    if t in c.inflight && e.Some? && c.inflight[t] == e.value then RemoveExec(Suppress(c, e.value), e.value) else c
  }

  function SuppressAll(runs: map<Exec, Run>, which: set<Exec>): map<Exec, Run> {
    map e | e in runs :: if e in which then runs[e].(suppressed := true) else runs[e]
  }

  function Halt(c: Client): Client {
    c.(stopped := true, runs := SuppressAll(c.runs, c.inflight.Values), pending := [], pendingBytes := 0)
  }

  /** The close event; `fatal` for the close codes the daemon does not reconnect after. */
  function Close(c: Client, fatal: bool): Client {
    var d := c.(socket := NoSocket, sent := [], behind := false);
    if fatal then Halt(d) else d
  }

  function Stop(c: Client): Client {
    var d := Halt(c);
    if d.socket == NoSocket then d else d.(socket := Closing)
  }

  function Connect(c: Client): Client {
    c.(ready := false, maxFrame := None, socket := Connecting, sent := [], behind := false)
  }

  function Assign(c: Client, t: Task, e: Exec): Client {
    var d := if t in c.inflight then RemoveExec(Suppress(c, c.inflight[t]), c.inflight[t]) else c;
    d.(inflight := d.inflight[t := e], runs := d.runs[e := Run(false, 0)])
  }

  /** The end of `runTask`: forget the run unless a newer one took its place. */
  function Finish(c: Client, t: Task, e: Exec): Client {
    if t in c.inflight && c.inflight[t] == e then c.(inflight := c.inflight - {t}) else c
  }
}
