/**
 * The asynchronous message logger: a bounded channel, one draining worker and a flush on
 * close (internal/gateway/msglog.go). Each atomic action of Log, drain and Close is one
 * step; every interleaving of them is a run.
 */
module MessageLog {
  import opened Protocol
  import opened FrontMatter

  datatype Entry = Entry(
    envelopeId: string, threadId: string, fromAgent: string, toAgent: string, msgType: MessageType,
    direction: string, toolName: string, bodySize: nat, body: seq<byte>)

  /**
   * Where the drain goroutine is: entering the outer select, parked in it as a receiver, in
   * write, at the inner select, in write there, or gone.
   */
  datatype Worker =
    | Selecting
    | Parked
    | Writing(entry: Entry)
    | Flushing
    | FlushWriting(entry: Entry)
    | Exited

  /**
   * `ch` is the channel buffer and `done` the closed signal. The rest is history: what Log
   * accepted and dropped, what was passed to write, and how much had been accepted when
   * Close was called.
   */
  datatype State = State(
    ch: seq<Entry>, done: bool, worker: Worker, closeReturned: bool,
    accepted: seq<Entry>, dropped: seq<Entry>, written: seq<Entry>, acceptedAtClose: nat)

  datatype Step =
    | Enqueue(entry: Entry)      // Log, room in the buffer
    | Drop(entry: Entry)         // Log, default case
    | HandOff(entry: Entry)      // Log, straight to the parked worker
    | Park                       // worker, outer select, nothing ready
    | Receive                    // worker, outer select, channel case
    | SeeDone                    // worker, outer select, done case
    | FlushReceive               // worker, inner select, channel case
    | FlushEnd                   // worker, inner select, default case
    | WriteDone                  // worker, write returns
    | CloseCall                  // Close closes `done`, which wakes a parked worker
    | CloseReturn                // Close sees the worker gone

  function Init(): State {
    State([], false, Selecting, false, [], [], [], 0)
  }

  predicate Enabled(s: State, cap: nat, step: Step) {
    match step
    case Enqueue(_) => !s.worker.Parked? && |s.ch| < cap
    case Drop(_) => !s.worker.Parked? && |s.ch| >= cap
    case HandOff(_) => s.worker.Parked?
    case Park => s.worker.Selecting? && s.ch == [] && !s.done
    case Receive => s.worker.Selecting? && s.ch != []
    case SeeDone => s.worker.Selecting? && s.done
    case FlushReceive => s.worker.Flushing? && s.ch != []
    case FlushEnd => s.worker.Flushing? && s.ch == []
    case WriteDone => s.worker.Writing? || s.worker.FlushWriting?
    case CloseCall => !s.done
    case CloseReturn => s.done && s.worker.Exited? && !s.closeReturned
  }

  function Apply(s: State, cap: nat, step: Step): State
    requires Enabled(s, cap, step)
  {
    match step
    case Enqueue(e) => s.(ch := s.ch + [e], accepted := s.accepted + [e])
    case Drop(e) => s.(dropped := s.dropped + [e])
    case HandOff(e) => s.(worker := Writing(e), accepted := s.accepted + [e])
    case Park => s.(worker := Parked)
    case Receive => s.(ch := s.ch[1..], worker := Writing(s.ch[0]))
    case SeeDone => s.(worker := Flushing)
    case FlushReceive => s.(ch := s.ch[1..], worker := FlushWriting(s.ch[0]))
    case FlushEnd => s.(worker := Exited)
    case WriteDone =>
      s.(written := s.written + InFlight(s.worker), worker := if s.worker.Writing? then Selecting else Flushing)
    case CloseCall =>
      s.(done := true, acceptedAtClose := |s.accepted|, worker := if s.worker.Parked? then Flushing else s.worker)
    case CloseReturn => s.(closeReturned := true)
  }

  /** Log's select on an entry: which case it takes. */
  function Offer(s: State, cap: nat, entry: Entry): (step: Step)
    ensures Enabled(s, cap, step)
  {
    if s.worker.Parked? then HandOff(entry) else if |s.ch| < cap then Enqueue(entry) else Drop(entry)
  }

  /** The logger after Log. */
  function Logged(s: State, cap: nat, entry: Entry): State {
    Apply(s, cap, Offer(s, cap, entry))
  }

  /** The entry taken from the channel and not yet passed to write. */
  function InFlight(w: Worker): seq<Entry> {
    if w.Writing? || w.FlushWriting? then [w.entry] else []
  }

  // ---------------------------------------------------------------------
  // The code, method by method
  // ---------------------------------------------------------------------

  class Logger {
    const cap: nat
    var ch: seq<Entry>
    var done: bool
    var worker: Worker
    var closeReturned: bool
    ghost var accepted: seq<Entry>
    ghost var dropped: seq<Entry>
    var written: seq<Entry>
    ghost var acceptedAtClose: nat

    ghost function View(): State
      reads this
    {
      State(ch, done, worker, closeReturned, accepted, dropped, written, acceptedAtClose)
    }

    constructor (capacity: nat)
      ensures View() == Init() && cap == capacity
    {
      cap, ch, done, worker, closeReturned := capacity, [], false, Selecting, false;
      accepted, dropped, written, acceptedAtClose := [], [], [], 0;
    }

    method Log(entry: Entry)
      modifies this
      ensures View() == Logged(old(View()), cap, entry)
    {
      if worker.Parked? {
        worker := Writing(entry);
        accepted := accepted + [entry];
      } else if |ch| < cap {
        ch := ch + [entry];
        accepted := accepted + [entry];
      } else {
        dropped := dropped + [entry];
      }
    }

    /** The inner loop of drain with nothing else running: it writes the buffer out in order and ends. */
    method Flush()
      requires worker.Flushing?
      modifies this
      ensures written == old(written) + old(ch) && ch == [] && worker == Exited
      ensures done == old(done) && closeReturned == old(closeReturned)
      ensures accepted == old(accepted) && dropped == old(dropped) && acceptedAtClose == old(acceptedAtClose)
    {
      while ch != []
        invariant worker.Flushing? && written + ch == old(written) + old(ch)
        invariant done == old(done) && closeReturned == old(closeReturned)
        invariant accepted == old(accepted) && dropped == old(dropped) && acceptedAtClose == old(acceptedAtClose)
        decreases |ch|
      {
        var entry := ch[0];
        assert written + ch == written + [entry] + ch[1..];
        ch := ch[1..];
        written := written + [entry];
      }
      worker := Exited;
    }

    /** Close with nothing else running: signal, let the worker finish its write and flush, return. */
    method Close()
      requires !done && Inv(View(), cap)
      modifies this
      ensures done && closeReturned && worker == Exited && ch == []
      ensures written == old(written) + InFlight(old(worker)) + old(ch)
      ensures accepted == old(accepted) && dropped == old(dropped) && acceptedAtClose == |old(accepted)|
    {
      done := true;
      acceptedAtClose := |accepted|;
      if worker.Writing? {
        written := written + [worker.entry];
      } else {
        assert written == written + InFlight(worker);
      }
      worker := Flushing;
      Flush();
      closeReturned := true;
    }
  }

  // ---------------------------------------------------------------------
  // Every interleaving
  // ---------------------------------------------------------------------

  ghost predicate Inv(s: State, cap: nat) {
    && s.accepted == s.written + (InFlight(s.worker) + s.ch)
    && |s.ch| <= cap
    && s.acceptedAtClose <= |s.accepted|
    && (s.worker.Flushing? || s.worker.FlushWriting? || s.worker.Exited? ==> s.done)
    && (s.worker.Exited? ==> s.acceptedAtClose <= |s.written|)
    && (s.worker.Parked? ==> s.ch == [] && !s.done)
    && (s.closeReturned ==> s.worker.Exited?)
  }

  lemma GrowRight(a: seq<Entry>, b: seq<Entry>, c: seq<Entry>, e: Entry)
    ensures a + (b + (c + [e])) == a + (b + c) + [e]
  {
  }

  lemma TakeHead(ch: seq<Entry>)
    requires ch != []
    ensures [] + ch == [ch[0]] + ch[1..]
  {
  }

  lemma ShiftLeft(a: seq<Entry>, b: seq<Entry>, c: seq<Entry>)
    ensures a + (b + c) == (a + b) + ([] + c)
  {
  }

  lemma FifoKept(s: State, cap: nat, step: Step)
    requires s.worker.Parked? ==> s.ch == []
    requires s.accepted == s.written + (InFlight(s.worker) + s.ch) && Enabled(s, cap, step)
    ensures var s' := Apply(s, cap, step); s'.accepted == s'.written + (InFlight(s'.worker) + s'.ch)
  {
    match step
    case Enqueue(e) => GrowRight(s.written, InFlight(s.worker), s.ch, e);
    case HandOff(e) => GrowRight(s.written, [], [], e);
    case Receive => TakeHead(s.ch);
    case FlushReceive => TakeHead(s.ch);
    case WriteDone => ShiftLeft(s.written, InFlight(s.worker), s.ch);
    case _ =>
  }

  lemma StepKeeps(s: State, cap: nat, step: Step)
    requires Inv(s, cap) && Enabled(s, cap, step)
    ensures Inv(Apply(s, cap, step), cap)
  {
    FifoKept(s, cap, step);
  }

  /** The states a run of steps passes through. */
  ghost predicate IsRun(trace: seq<State>, steps: seq<Step>, cap: nat) {
    && |trace| == |steps| + 1 && trace[0] == Init()
    && (forall i :: 0 <= i < |steps| ==>
          Enabled(trace[i], cap, steps[i]) && trace[i + 1] == Apply(trace[i], cap, steps[i]))
  }

  /**
   * In every state of every run, what Log accepted is what was written, then the entry in
   * flight, then the buffer, in order.
   */
  lemma {:induction false} AcceptedIsWrittenInFlightBuffered(trace: seq<State>, steps: seq<Step>, cap: nat, i: nat)
    requires IsRun(trace, steps, cap) && i < |trace|
    ensures Inv(trace[i], cap)
    ensures var s := trace[i]; s.accepted == s.written + (InFlight(s.worker) + s.ch)
  {
    if i > 0 {
      AcceptedIsWrittenInFlightBuffered(trace, steps, cap, i - 1);
      StepKeeps(trace[i - 1], cap, steps[i - 1]);
    }
  }

  /** Whether Log keeps an entry: there is room in the buffer, or a worker parked to take it. */
  predicate Room(s: State, cap: nat) {
    |s.ch| < cap || s.worker.Parked?
  }

  /**
   * In every run, an entry offered to Log is accepted, as the newest, exactly when there is
   * room or a parked worker; otherwise the buffer is full and the entry, nothing else, is
   * dropped. With a capacity of at least one, a parked worker always comes with room.
   */
  lemma OfferedEntriesAreKeptExactlyWhenThereIsRoom(trace: seq<State>, steps: seq<Step>, cap: nat, i: nat, e: Entry)
    requires IsRun(trace, steps, cap) && i < |steps|
    requires steps[i] == Enqueue(e) || steps[i] == Drop(e) || steps[i] == HandOff(e)
    ensures var s, s' := trace[i], trace[i + 1];
            && steps[i] == Offer(s, cap, e)
            && s'.accepted == (if Room(s, cap) then s.accepted + [e] else s.accepted)
            && s'.dropped == (if Room(s, cap) then s.dropped else s.dropped + [e])
            && (!Room(s, cap) ==> |s.ch| == cap)
            && (cap > 0 ==> (Room(s, cap) <==> |s.ch| < cap))
  {
    AcceptedIsWrittenInFlightBuffered(trace, steps, cap, i);
  }

  /** After Close is called, its mark does not move and the accepted prefix it covers stays. */
  lemma {:induction false} MarkStays(trace: seq<State>, steps: seq<Step>, cap: nat, i: nat, j: nat)
    requires IsRun(trace, steps, cap) && i <= j < |trace|
    ensures trace[i].accepted <= trace[j].accepted
    ensures trace[i].done ==> trace[j].done && trace[j].acceptedAtClose == trace[i].acceptedAtClose
  {
    if i < j { MarkStays(trace, steps, cap, i, j - 1); }
  }

  /**
   * When Close returns, every entry accepted before Close was called has been passed to
   * write, in order; anything accepted but unwritten was accepted after that call.
   */
  lemma CloseFlushesEverythingAcceptedBefore(trace: seq<State>, steps: seq<Step>, cap: nat, i: nat, j: nat)
    requires IsRun(trace, steps, cap) && i < j < |trace|
    requires steps[i] == CloseCall && trace[j].closeReturned
    ensures trace[i].accepted <= trace[j].written <= trace[j].accepted
  {
    MarkStays(trace, steps, cap, i, j);
    MarkStays(trace, steps, cap, i + 1, j);
    AcceptedIsWrittenInFlightBuffered(trace, steps, cap, j);
  }
}
