/** The proxy's relay between a client and its destination: two directions, each with a buffer and a
    chain of asynchronous operations that complete in any order. */
module Relay {
  import opened Sequences

  const MAX_LENGTH := 8192

  /** An operation that has been started: a read into the direction's buffer, a send of its first
      `len` characters, or the send at end of file, after which nothing is started. */
  datatype Op = Read | Send(len: nat) | LastSend(len: nat)

  /** How an operation ends. Sends transfer all they are given. */
  datatype Outcome = Got(chunk: string) | Sent | EndOfFile | Failed

  /** One direction: its buffer, what is pending, all that has been read and all that has been sent. */
  datatype Way = Way(data: string, pending: seq<Op>, read: string, sent: string)

  datatype Side = Upward | Downward

  /** The relay: from the client up, from the destination down, and the eight bytes that tell the
      client that the request is granted. */
  datatype State = State(up: Way, down: Way, granting: bool, grant: string, reply: string)

  function Start(grant: string): State {
    var idle := Way(seq(MAX_LENGTH, _ => '\0'), [], "", "");
    State(idle, idle, true, grant, "")
  }

  function DoRead(w: Way): Way { w.(pending := w.pending + [Read]) }

  function DoWrite(w: Way, len: nat): Way { w.(pending := w.pending + [Send(len)]) }

  /** What can be reported of an operation. */
  predicate Fits(op: Op, o: Outcome) {
    match o
    case Got(chunk) => op.Read? && 1 <= |chunk| <= MAX_LENGTH
    case Sent => !op.Read?
    case EndOfFile => op.Read?
    case Failed => true
  }

  /** The buffer after a read of `chunk`. */
  function Filled(data: string, chunk: string): string {
    if |chunk| <= |data| then chunk + data[|chunk|..] else chunk
  }

  /** Operation `i` of one direction completes: the handler runs. */
  function Complete(w: Way, i: nat, o: Outcome): Way
    requires i < |w.pending| && Fits(w.pending[i], o)
  {
    var op := w.pending[i];
    var w' := w.(pending := w.pending[..i] + w.pending[i + 1..]);
    match o
    case Got(chunk) => DoWrite(w'.(data := Filled(w.data, chunk), read := w.read + chunk), |chunk|)
    case EndOfFile => w'.(pending := w'.pending + [LastSend(0)])
    case Failed => w'
    case Sent =>
      var moved := w'.(sent := w.sent + (if op.len <= |w.data| then w.data[..op.len] else w.data));
      if op.Send? then DoRead(moved) else moved
  }

  /** A completion: of the grant, or of an operation of one direction. */
  datatype Event = Granted | NotGranted | Done(side: Side, i: nat, o: Outcome)

  predicate Possible(s: State, e: Event) {
    match e
    case Granted => s.granting
    case NotGranted => s.granting
    case Done(side, i, o) =>
      var w := if side == Upward then s.up else s.down;
      i < |w.pending| && Fits(w.pending[i], o)
  }

  function Handle(s: State, e: Event): State
    requires Possible(s, e)
  {
    match e
    case Granted => s.(granting := false, reply := s.grant, up := DoRead(s.up), down := DoRead(s.down))
    case NotGranted => s.(granting := false)
    case Done(Upward, i, o) => s.(up := Complete(s.up, i, o))
    case Done(Downward, i, o) => s.(down := Complete(s.down, i, o))
  }

  /** What the client has been sent. */
  function ToClient(s: State): string { s.reply + s.down.sent }

  // ---------- safety ----------

  /** At most one operation is pending. During a send the buffer still holds what was read for it;
      otherwise everything read has been sent, or the direction has stopped. */
  ghost predicate Orderly(w: Way) {
    && |w.data| == MAX_LENGTH
    && |w.pending| <= 1
    && w.sent <= w.read
    && (w.pending == [Read] ==> w.sent == w.read)
    && (|w.pending| == 1 && !w.pending[0].Read? ==>
          w.pending[0].len <= MAX_LENGTH && w.read == w.sent + w.data[..w.pending[0].len])
  }

  ghost predicate Safe(s: State) {
    && Orderly(s.up) && Orderly(s.down)
    && (s.granting ==> s.up.pending == s.down.pending == [] && s.up.read == s.down.read == "")
    && (s.reply == s.grant || (s.reply == "" && s.up.pending == s.down.pending == [] && s.up.read == s.down.read == ""))
  }

  lemma {:induction false} CompleteIsOrderly(w: Way, i: nat, o: Outcome)
    requires Orderly(w) && i < |w.pending| && Fits(w.pending[i], o)
    ensures Orderly(Complete(w, i, o))
  {
    assert w.pending[..i] + w.pending[i + 1..] == [];
    match o
    case Got(chunk) => assert Filled(w.data, chunk)[..|chunk|] == chunk;
    case EndOfFile =>
      assert w.pending == [Read];
      assert w.read == w.sent + w.data[..0];
    case Sent =>
    case Failed =>
  }

  lemma {:induction false} HandleIsSafe(s: State, e: Event)
    requires Safe(s) && Possible(s, e)
    ensures Safe(Handle(s, e))
  {
    match e
    case Done(side, i, o) => CompleteIsOrderly(if side == Upward then s.up else s.down, i, o);
    case _ =>
  }

  ghost predicate Runs(grant: string, events: seq<Event>)
    decreases |events|, 0
  {
    events == [] || (Runs(grant, events[..|events| - 1])
      && Possible(After(grant, events[..|events| - 1]), events[|events| - 1]))
  }

  ghost function After(grant: string, events: seq<Event>): State
    requires Runs(grant, events)
    decreases |events|, 1
  {
    if events == [] then Start(grant) else Handle(After(grant, events[..|events| - 1]), events[|events| - 1])
  }

  lemma {:induction false} EveryRunIsSafe(grant: string, events: seq<Event>)
    requires Runs(grant, events)
    ensures Safe(After(grant, events)) && After(grant, events).grant == grant
  {
    if events != [] {
      var n := |events| - 1;
      EveryRunIsSafe(grant, events[..n]);
      HandleIsSafe(After(grant, events[..n]), events[n]);
    }
  }

  /** However the completions of the two directions interleave: the destination has received a prefix
      of what the client sent, and the client the grant and a prefix of what the destination sent, or
      nothing at all; and no read is started on a buffer that is still being sent. */
  lemma {:induction false} RelayIsFaithful(grant: string, events: seq<Event>)
    requires Runs(grant, events)
    ensures var s := After(grant, events);
            && s.up.sent <= s.up.read
            && (ToClient(s) == "" || ToClient(s) <= grant + s.down.read)
            && |s.up.pending| <= 1 && |s.down.pending| <= 1
  {
    EveryRunIsSafe(grant, events);
    var s := After(grant, events);
    if s.reply == grant {
      assert s.down.read == s.down.sent + s.down.read[|s.down.sent|..];
      assert grant + s.down.read == ToClient(s) + s.down.read[|s.down.sent|..];
    }
  }

  /** Nothing read is lost: when a direction waits for more, all of it has been passed on. */
  lemma {:induction false} WaitingMeansAllSent(grant: string, events: seq<Event>)
    requires Runs(grant, events)
    ensures After(grant, events).up.pending == [Read] ==> After(grant, events).up.sent == After(grant, events).up.read
    ensures After(grant, events).down.pending == [Read] ==>
              After(grant, events).down.sent == After(grant, events).down.read
  {
    EveryRunIsSafe(grant, events);
  }

  // ---------- progress ----------

  function Of(s: State, side: Side): Way { if side == Upward then s.up else s.down }

  /** A read is passed on: the send of just what has been read is started, and when that completes,
      everything read has been sent and the next read is started. */
  lemma {:induction false} ReadIsPassedOn(w: Way, chunk: string)
    requires Orderly(w) && w.pending == [Read] && 1 <= |chunk| <= MAX_LENGTH
    ensures var w1 := Complete(w, 0, Got(chunk));
            && w1.pending == [Send(|chunk|)] && w1.read == w.read + chunk && w1.sent == w.sent
            && var w2 := Complete(w1, 0, Sent);
               w2.pending == [Read] && w2.sent == w2.read == w.read + chunk
  {
    CompleteIsOrderly(w, 0, Got(chunk));
    CompleteIsOrderly(Complete(w, 0, Got(chunk)), 0, Sent);
  }

  /** A direction reads or sends. */
  ghost predicate Works(w: Way) { |w.pending| == 1 && !w.pending[0].LastSend? }

  /** The direction comes to its end. */
  predicate Stops(e: Event, side: Side) { e.Done? && e.side == side && (e.o.EndOfFile? || e.o.Failed?) }

  ghost predicate GoesOn(s: State, side: Side, granted: bool) {
    && (s.granting ==> !granted)
    && (if granted then Works(Of(s, side)) else Of(s, side).pending == [])
  }

  lemma {:induction false} HandleGoesOn(s: State, e: Event, side: Side, granted: bool)
    requires Possible(s, e) && GoesOn(s, side, granted) && !Stops(e, side)
    ensures GoesOn(Handle(s, e), side, granted || e == Granted)
  {
    if e.Done? && e.side == side {
      var w := Of(s, side);
      assert w.pending[..e.i] + w.pending[e.i + 1..] == [];
    }
  }

  /** Once the request is granted a direction never stalls: as long as none of its own operations fails
      or meets the end of file, it has a read or a send pending, whatever the other direction does. */
  lemma {:induction false} NeverStalls(grant: string, events: seq<Event>, side: Side)
    requires Runs(grant, events) && forall i :: 0 <= i < |events| ==> !Stops(events[i], side)
    ensures GoesOn(After(grant, events), side, Granted in events)
  {
    if events != [] {
      var n := |events| - 1;
      NeverStalls(grant, events[..n], side);
      HandleGoesOn(After(grant, events[..n]), events[n], side, Granted in events[..n]);
      LastApart(events);
    }
  }

  // ---------- the code ----------

  /** One direction of a connection, with its buffer in place. */
  class Channel {
    const data: array<char>
    var pending: seq<Op>
    var read: string
    var sent: string

    function View(): Way
      reads this, data
    {
      Way(data[..], pending, read, sent)
    }

    constructor ()
      ensures fresh(data) && View() == Start("").up
    {
      data := new char[MAX_LENGTH](_ => '\0');
      pending, read, sent := [], "", "";
      new;
      assert data[..] == Start("").up.data;
    }

    method StartRead()
      modifies this`pending
      ensures View() == DoRead(old(View()))
    {
      pending := pending + [Read];
    }

    method StartSend(len: nat)
      modifies this`pending
      ensures View() == DoWrite(old(View()), len)
    {
      pending := pending + [Send(len)];
    }

    /** The kernel puts what it has read at the front of the buffer. */
    method Fill(chunk: string)
      requires |chunk| <= data.Length
      modifies data
      ensures data[..] == Filled(old(data[..]), chunk)
    {
      var k := 0;
      while k < |chunk|
        invariant 0 <= k <= |chunk|
        invariant data[..k] == chunk[..k] && data[k..] == old(data[..])[k..]
      {
        data[k] := chunk[k];
        k := k + 1;
      }
      assert data[..] == data[..k] + data[k..];
    }

    /** The handlers of the direction's operations. */
    method OnComplete(i: nat, o: Outcome)
      requires i < |pending| && Fits(pending[i], o) && Orderly(View())
      modifies this, data
      ensures View() == Complete(old(View()), i, o) && Orderly(View())
    {
      CompleteIsOrderly(View(), i, o);
      var op := pending[i];
      pending := pending[..i] + pending[i + 1..];
      match o {
        case Got(chunk) =>
          Fill(chunk);
          read := read + chunk;
          StartSend(|chunk|);
        case EndOfFile =>
          pending := pending + [LastSend(0)];
        case Failed =>
        case Sent =>
          sent := sent + data[..op.len];
          if op.Send? { StartRead(); }
      }
    }
  }
}
