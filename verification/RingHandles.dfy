/** The ring handles as the source writes them: objects that update their own fields and
    the shared mapping in loops. The other process is an adversary that takes any of its
    steps before each shared access; running out of its schedule is a cancelled wait.
    Each object carries the machine state it stands for, which is always reachable, so
    what is proved of every run holds at every point of every call. */
module RingHandles {
  import opened RingMachine

  datatype Status = Done | TooLong | Cancelled | EndOfStream

  type ReaderMove = a: Action | a.CallRead? || a.StepReader? || a.ReaderGivesUp? witness StepReader
  type WriterMove = a: Action | a.CallWrite? || a.StepWriter? || a.WriterGivesUp? witness StepWriter

  // --- what a reachable state says at each point of Write ------------------

  lemma WriterFacts(c: Config, s: State)
    requires ValidConfig(c) && Reachable(c, s)
    ensures s.w.pc.LoadSecond? ==>
              s.w.pc.head == s.head && s.tail <= s.head <= s.tail + c.slots && s.w.position <= c.total
    ensures s.w.pc.Ready? ==> s.w.framePos < s.w.frameBytes && s.w.moved < |s.w.request|
    ensures s.w.pc.Copying? ==>
              && s.w.pc.counter == s.head && s.w.pc.done < s.w.pc.amount
              && s.w.moved + s.w.pc.amount <= |s.w.request|
              && Address(c, s.head, s.w.framePos + s.w.pc.done) < |s.data|
    ensures s.w.pc.Advance? ==> s.w.pc.counter == s.head
  {
    ReachableInv(c, s);
    if s.w.pc.Copying? {
      InMapping(c, s.head, s.w.framePos + s.w.pc.done);
    }
  }

  // --- the writing handle --------------------------------------------------

  lemma SliceNext(sent: seq<Byte>, before: seq<Byte>, request: seq<Byte>, moved: nat, done: nat)
    requires moved + done <= |request| && sent == before + request[moved..moved + done]
    ensures moved + done < |request| ==>
      sent + [request[moved + done]] == before + request[moved..moved + done + 1]
  {
  }

  class RingWriter {
    const c: Config
    // the shared mapping
    var head: nat
    var tail: nat
    const data: array<Byte>
    // this handle
    var position: nat
    var frameBytes: nat
    var framePos: nat
    // the other process: its handle, and its steps before each of our shared accesses
    var peer: Handle
    var schedule: seq<seq<ReaderMove>>
    // the machine state this object stands for
    ghost var m: State

    /** The fields are those of a reachable machine state whose writer is w. */
    ghost predicate Live(w: Handle)
      reads this, data
    {
      && ValidConfig(c) && Reachable(c, m) && m.w == w
      && m.head == head && m.tail == tail && m.data == data[..] && m.r == peer
    }

    /** This handle at pc, with `moved` bytes of `request` written. */
    function Self(pc: Pc, request: seq<Byte>, moved: nat): Handle
      reads this`position, this`frameBytes, this`framePos
    {
      Handle(position, frameBytes, framePos, request, moved, pc)
    }

    ghost predicate Valid()
      reads this, data
    {
      Live(Self(Idle, [], 0))
    }

    /** A freshly initialised ring. */
    constructor (c: Config, schedule: seq<seq<ReaderMove>>)
      requires ValidConfig(c)
      ensures this.c == c && Valid() && Init(c, m) && fresh(data)
    {
      this.c, this.schedule := c, schedule;
      head, tail, position, frameBytes, framePos, peer := 0, 0, 0, 0, 0, FRESH;
      data := new Byte[HEADER + c.slots * c.slotSize](_ => 0);
      new;
      m := State(0, 0, data[..], FRESH, FRESH, [], []);
      ReachableInit(c, m);
    }

    /** The other process takes its next batch of steps, skipping any it cannot take. */
    method Yield(ghost w: Handle) returns (alive: bool)
      requires Live(w)
      modifies this`tail, this`peer, this`schedule, this`m
      ensures Live(w) && m.sent == old(m.sent)
      ensures alive == (old(schedule) != [])
      ensures if alive then schedule == old(schedule)[1..] else schedule == old(schedule)
    {
      if schedule == [] {
        return false;
      }
      var batch := schedule[0];
      schedule := schedule[1..];
      for i := 0 to |batch|
        invariant Live(w) && m.sent == old(m.sent) && schedule == old(schedule)[1..]
      {
        PeerStep(w, batch[i]);
      }
      return true;
    }

    method PeerStep(ghost w: Handle, a: ReaderMove)
      requires Live(w)
      modifies this`tail, this`peer, this`m
      ensures Live(w) && m.sent == old(m.sent)
    {
      var view := State(head, tail, data[..], FRESH, peer, [], []);
      if Enabled(view, a) {
        var next := Apply(c, view, a);
        ReachableStep(c, m, a);
        tail, peer, m := next.tail, next.r, Apply(c, m, a);
      }
    }

    /** This handle's own step, in the machine. */
    ghost method Take(a: WriterMove)
      requires ValidConfig(c) && Reachable(c, m) && Enabled(m, a)
      modifies this`m
      ensures m == Apply(c, old(m), a) && Reachable(c, m)
    {
      ReachableStep(c, m, a);
      m := Apply(c, m, a);
    }

    /** Load head, then tail, as Write's inner loop does. The comparison the source guards
        with a "corrupt ring counters" error never fails. */
    method LoadCounters(request: seq<Byte>, moved: nat) returns (h: nat, t: nat)
      requires Live(Self(LoadFirst, request, moved))
      modifies this`tail, this`peer, this`schedule, this`m
      ensures t <= h <= t + c.slots && position <= c.total
      ensures Live(if h - t == c.slots then Self(Blocked, request, moved) else Begin(c, Self(Ready, request, moved)))
      ensures m.sent == old(m.sent) && |schedule| <= |old(schedule)|
    {
      var _ := Yield(Self(LoadFirst, request, moved));
      h := head;
      Take(StepWriter);
      var _ := Yield(Self(LoadSecond(h), request, moved));
      t := tail;
      WriterFacts(c, m);
      Take(StepWriter);
    }

    /** Write's inner loop: poll until the ring has a free slot, or the wait is cancelled. */
    method Acquire(request: seq<Byte>, moved: nat) returns (status: Status)
      requires Live(Self(LoadFirst, request, moved))
      modifies this`tail, this`peer, this`schedule, this`m, this`frameBytes, this`framePos
      ensures status == Done || status == Cancelled
      ensures if status == Done then Live(Self(Ready, request, moved)) else Valid()
      ensures m.sent == old(m.sent)
    {
      while true
        invariant Live(Self(LoadFirst, request, moved)) && m.sent == old(m.sent)
        decreases |schedule|
      {
        var h, t := LoadCounters(request, moved);
        if h - t != c.slots {
          frameBytes := Min(c.slotSize, c.total - position);
          framePos := 0;
          return Done;
        }
        var alive := Yield(Self(Blocked, request, moved));
        Take(if alive then StepWriter else WriterGivesUp);
        if !alive {
          return Cancelled;
        }
      }
    }

    method CopyByte(request: seq<Byte>, moved: nat, h: nat, amount: nat, done: nat)
      requires Live(Self(Copying(h, amount, done), request, moved))
      modifies this`tail, this`peer, this`schedule, this`m, data
      ensures moved + done < |request| && m.sent == old(m.sent) + [request[moved + done]]
      ensures Live(WriterCopied(Self(Copying(h, amount, done), request, moved)))
    {
      var _ := Yield(Self(Copying(h, amount, done), request, moved));
      WriterFacts(c, m);
      Take(StepWriter);
      data[Address(c, h, framePos + done)] := request[moved + done];
    }

    /** The slot copy, one byte at a time. */
    method CopyBytes(request: seq<Byte>, moved: nat, h: nat, amount: nat)
      requires amount > 0 && Live(Self(Copying(h, amount, 0), request, moved))
      modifies this`tail, this`peer, this`schedule, this`m, data
      ensures moved + amount <= |request| && m.sent == old(m.sent) + request[moved..moved + amount]
      ensures Live(WriterCopied(Self(Copying(h, amount, amount - 1), request, moved)))
    {
      WriterFacts(c, m);
      for done := 0 to amount - 1
        invariant Live(Self(Copying(h, amount, done), request, moved))
        invariant moved + done <= |request| && m.sent == old(m.sent) + request[moved..moved + done]
      {
        SliceNext(m.sent, old(m.sent), request, moved, done);
        CopyByte(request, moved, h, amount, done);
      }
      SliceNext(m.sent, old(m.sent), request, moved, amount - 1);
      CopyByte(request, moved, h, amount, amount - 1);
    }

    /** One pass of Write's outer loop inside a frame: copy a chunk, and publish the frame
        when it is complete. */
    method CopyChunk(request: seq<Byte>, moved: nat) returns (amount: nat)
      requires Live(Self(Ready, request, moved))
      modifies this, data
      ensures 0 < amount <= |request| - moved && position == old(position) + amount
      ensures Live(WriterNext(Self(Ready, request, moved + amount)))
      ensures m.sent == old(m.sent) + request[moved..moved + amount]
    {
      var h;
      h, amount := LoadOwn(request, moved);
      CopyBytes(request, moved, h, amount);
      framePos, position := framePos + amount, position + amount;
      if framePos == frameBytes {
        Publish(request, moved + amount, h);
      }
    }

    method LoadOwn(request: seq<Byte>, moved: nat) returns (h: nat, amount: nat)
      requires Live(Self(Ready, request, moved))
      modifies this`tail, this`peer, this`schedule, this`m
      ensures moved + amount <= |request| && framePos + amount <= frameBytes && amount > 0
      ensures Live(Self(Copying(h, amount, 0), request, moved)) && m.sent == old(m.sent)
    {
      var _ := Yield(Self(Ready, request, moved));
      WriterFacts(c, m);
      h := head;
      amount := Min(|request| - moved, frameBytes - framePos);
      Take(StepWriter);
    }

    method Publish(request: seq<Byte>, moved: nat, h: nat)
      requires Live(Self(Advance(h), request, moved))
      modifies this`head, this`tail, this`peer, this`schedule, this`m
      ensures Live(WriterNext(Self(Advance(h), request, moved))) && m.sent == old(m.sent)
    {
      var _ := Yield(Self(Advance(h), request, moved));
      Take(StepWriter);
      head := h + 1;
    }

    /** The body of Write's outer loop. */
    method NextChunk(request: seq<Byte>, moved: nat) returns (amount: nat, status: Status)
      requires moved < |request| && Live(WriterNext(Self(Idle, request, moved)))
      modifies this, data
      ensures status == Done || status == Cancelled
      ensures amount <= |request| - moved && (amount == 0 <==> status == Cancelled)
      ensures if status == Done then Live(WriterNext(Self(Idle, request, moved + amount))) else Valid()
      ensures m.sent == old(m.sent) + request[moved..moved + amount] && position == old(position) + amount
    {
      status := Done;
      if framePos == frameBytes {
        status := Acquire(request, moved);
      }
      amount := 0;
      if status == Done {
        amount := CopyChunk(request, moved);
      }
    }

    /** Write. A request past the declared length is refused; otherwise every byte is
        copied in, unless a wait is cancelled. Whatever the reader does meanwhile, the
        bytes join the stream in order. */
    method Write(buffer: seq<Byte>) returns (written: nat, status: Status)
      requires Valid()
      modifies this, data
      ensures Valid()
      ensures status == TooLong || status == Done || status == Cancelled
      ensures status == TooLong <==> old(position) + |buffer| > c.total
      ensures written <= |buffer| && (status == TooLong ==> written == 0) && (status == Done ==> written == |buffer|)
      ensures m.sent == old(m.sent) + buffer[..written] && position == old(position) + written
    {
      written := 0;
      if position + |buffer| > c.total {
        return 0, TooLong;
      }
      if buffer == [] {
        return 0, Done;
      }
      Take(CallWrite(buffer));
      written, status := WriteChunks(buffer);
    }

    /** The loop of Write: one chunk after the other. */
    method WriteChunks(buffer: seq<Byte>) returns (written: nat, status: Status)
      requires buffer != [] && Live(WriterNext(Self(Idle, buffer, 0)))
      modifies this, data
      ensures Valid() && (status == Done || status == Cancelled)
      ensures written <= |buffer| && (status == Done ==> written == |buffer|)
      ensures m.sent == old(m.sent) + buffer[..written] && position == old(position) + written
    {
      written, status := 0, Done;
      while written < |buffer|
        invariant 0 <= written <= |buffer| && Live(WriterNext(Self(Idle, buffer, written)))
        invariant m.sent == old(m.sent) + buffer[..written] && position == old(position) + written
      {
        var amount;
        amount, status := NextChunk(buffer, written);
        written := written + amount;
        if status != Done {
          return;
        }
      }
      status := Done;
    }

    /** Close reports an error exactly when the declared length was not written. */
    method Close() returns (ok: bool)
      requires Valid()
      ensures ok <==> |m.sent| == c.total
    {
      ReachableInv(c, m);
      ok := position == c.total;
    }
  }

  // --- the reading handle --------------------------------------------------

  lemma ReaderFacts(c: Config, s: State)
    requires ValidConfig(c) && Reachable(c, s)
    ensures |s.received| <= |s.sent| && s.received == s.sent[..|s.received|]
    ensures s.r.position <= c.total && (s.r.pc.Idle? ==> |s.received| == s.r.position)
    ensures s.r.pc.LoadSecond? ==>
              s.tail <= s.r.pc.head <= s.tail + c.slots && s.r.position <= c.total
    ensures s.r.pc.Ready? ==> s.r.framePos < s.r.frameBytes && s.r.moved <= |s.r.request|
    ensures s.r.pc.Copying? ==>
              && s.r.pc.counter == s.tail && s.r.pc.done < s.r.pc.amount
              && Address(c, s.tail, s.r.framePos + s.r.pc.done) < |s.data|
    ensures s.r.pc.Advance? ==> s.r.pc.counter == s.tail
  {
    ReachableInv(c, s);
    if s.r.pc.Copying? {
      InMapping(c, s.tail, s.r.framePos + s.r.pc.done);
    }
  }

  function Room(n: nat): (s: seq<Byte>)
    ensures |s| == n
  {
    seq(n, _ => 0)
  }

  /** A writer's move does to what a reader can see what it does in the machine. */
  lemma WriterStepsAlike(c: Config, m: State, view: State, a: WriterMove)
    requires ValidConfig(c) && view == State(m.head, m.tail, m.data, m.w, FRESH, [], [])
    ensures Enabled(view, a) == Enabled(m, a)
    ensures Enabled(m, a) ==>
      var next, seen := Apply(c, m, a), Apply(c, view, a);
      && next.head == seen.head && next.data == seen.data && next.w == seen.w && |next.data| == |m.data|
      && next.r == m.r && next.tail == m.tail && next.received == m.received
  {
  }

  class RingReader {
    const c: Config
    var head: nat
    var tail: nat
    const data: array<Byte>
    var position: nat
    var frameBytes: nat
    var framePos: nat
    var peer: Handle
    var schedule: seq<seq<WriterMove>>
    ghost var m: State

    /** The fields are those of a reachable machine state whose reader is r. */
    ghost predicate Live(r: Handle)
      reads this, data
    {
      && ValidConfig(c) && Reachable(c, m) && m.r == r
      && m.head == head && m.tail == tail && m.data == data[..] && m.w == peer
    }

    function Self(pc: Pc, request: seq<Byte>, moved: nat): Handle
      reads this`position, this`frameBytes, this`framePos
    {
      Handle(position, frameBytes, framePos, request, moved, pc)
    }

    ghost predicate Valid()
      reads this, data
    {
      Live(Self(Idle, [], 0))
    }

    constructor (c: Config, schedule: seq<seq<WriterMove>>)
      requires ValidConfig(c)
      ensures this.c == c && Valid() && Init(c, m) && fresh(data)
    {
      this.c, this.schedule := c, schedule;
      head, tail, position, frameBytes, framePos, peer := 0, 0, 0, 0, 0, FRESH;
      data := new Byte[HEADER + c.slots * c.slotSize](_ => 0);
      new;
      m := State(0, 0, data[..], FRESH, FRESH, [], []);
      ReachableInit(c, m);
    }

    method PeerStep(ghost r: Handle, a: WriterMove)
      requires Live(r)
      modifies this`head, this`peer, this`m, data
      ensures Live(r) && m.received == old(m.received)
    {
      var view := State(head, tail, data[..], peer, FRESH, [], []);
      WriterStepsAlike(c, m, view, a);
      if Enabled(view, a) {
        var next := Apply(c, view, a);
        ReachableStep(c, m, a);
        head, peer, m := next.head, next.w, Apply(c, m, a);
        forall i | 0 <= i < data.Length {
          data[i] := next.data[i];
        }
      }
    }

    method Yield(ghost r: Handle) returns (alive: bool)
      requires Live(r)
      modifies this`head, this`peer, this`schedule, this`m, data
      ensures Live(r) && m.received == old(m.received)
      ensures alive == (old(schedule) != [])
      ensures if alive then schedule == old(schedule)[1..] else schedule == old(schedule)
    {
      if schedule == [] {
        return false;
      }
      var batch := schedule[0];
      schedule := schedule[1..];
      for i := 0 to |batch|
        invariant Live(r) && m.received == old(m.received) && schedule == old(schedule)[1..]
      {
        PeerStep(r, batch[i]);
      }
      return true;
    }

    ghost method Take(a: ReaderMove)
      requires ValidConfig(c) && Reachable(c, m) && Enabled(m, a)
      modifies this`m
      ensures m == Apply(c, old(m), a) && Reachable(c, m)
    {
      ReachableStep(c, m, a);
      m := Apply(c, m, a);
    }

    method LoadCounters(request: seq<Byte>, moved: nat) returns (h: nat, t: nat)
      requires Live(Self(LoadFirst, request, moved))
      modifies this`head, this`peer, this`schedule, this`m, data
      ensures t <= h <= t + c.slots && position <= c.total
      ensures Live(if h == t then Self(Blocked, request, moved) else Begin(c, Self(Ready, request, moved)))
      ensures m.received == old(m.received) && |schedule| <= |old(schedule)|
    {
      var _ := Yield(Self(LoadFirst, request, moved));
      h := head;
      Take(StepReader);
      var _ := Yield(Self(LoadSecond(h), request, moved));
      t := tail;
      ReaderFacts(c, m);
      Take(StepReader);
    }

    method Acquire(request: seq<Byte>, moved: nat) returns (status: Status)
      requires Live(Self(LoadFirst, request, moved))
      modifies this`head, this`peer, this`schedule, this`m, this`frameBytes, this`framePos, data
      ensures status == Done || status == Cancelled
      ensures if status == Done then Live(Self(Ready, request, moved)) else Valid()
      ensures m.received == old(m.received)
    {
      while true
        invariant Live(Self(LoadFirst, request, moved)) && m.received == old(m.received)
        decreases |schedule|
      {
        var h, t := LoadCounters(request, moved);
        if h != t {
          frameBytes := Min(c.slotSize, c.total - position);
          framePos := 0;
          return Done;
        }
        var alive := Yield(Self(Blocked, request, moved));
        Take(if alive then StepReader else ReaderGivesUp);
        if !alive {
          return Cancelled;
        }
      }
    }

    method LoadOwn(request: seq<Byte>, moved: nat) returns (t: nat, amount: nat)
      requires Live(Self(Ready, request, moved))
      modifies this`head, this`peer, this`schedule, this`m, data
      ensures moved + amount <= |request| && framePos + amount <= frameBytes
      ensures amount == 0 <==> moved == |request|
      ensures Live(if amount == 0 then ReaderNext(c, Self(Ready, request, moved))
                   else Self(Copying(t, amount, 0), request, moved))
      ensures m.received == old(m.received)
    {
      var _ := Yield(Self(Ready, request, moved));
      ReaderFacts(c, m);
      t := tail;
      amount := Min(|request| - moved, frameBytes - framePos);
      Take(StepReader);
    }

    method CopyByte(request: seq<Byte>, moved: nat, t: nat, amount: nat, done: nat) returns (b: Byte)
      requires Live(Self(Copying(t, amount, done), request, moved))
      modifies this`head, this`peer, this`schedule, this`m, data
      ensures m.received == old(m.received) + [b]
      ensures Live(ReaderCopied(c, Self(Copying(t, amount, done), request, moved)))
    {
      var _ := Yield(Self(Copying(t, amount, done), request, moved));
      ReaderFacts(c, m);
      b := data[Address(c, t, framePos + done)];
      Take(StepReader);
    }

    method CopyBytes(request: seq<Byte>, moved: nat, t: nat, amount: nat) returns (bytes: seq<Byte>)
      requires amount > 0 && Live(Self(Copying(t, amount, 0), request, moved))
      modifies this`head, this`peer, this`schedule, this`m, data
      ensures |bytes| == amount && m.received == old(m.received) + bytes
      ensures Live(ReaderCopied(c, Self(Copying(t, amount, amount - 1), request, moved)))
    {
      bytes := [];
      var b;
      for done := 0 to amount - 1
        invariant Live(Self(Copying(t, amount, done), request, moved))
        invariant |bytes| == done && m.received == old(m.received) + bytes
      {
        b := CopyByte(request, moved, t, amount, done);
        bytes := bytes + [b];
      }
      b := CopyByte(request, moved, t, amount, amount - 1);
      bytes := bytes + [b];
    }

    method Release(request: seq<Byte>, moved: nat, t: nat)
      requires Live(Self(Advance(t), request, moved))
      modifies this`head, this`tail, this`peer, this`schedule, this`m, data
      ensures Live(ReaderNext(c, Self(Advance(t), request, moved))) && m.received == old(m.received)
    {
      var _ := Yield(Self(Advance(t), request, moved));
      Take(StepReader);
      tail := t + 1;
    }

    /** A chunk of the current frame, and the frame's release when it is drained. */
    method CopyChunk(request: seq<Byte>, moved: nat) returns (bytes: seq<Byte>)
      requires Live(Self(Ready, request, moved))
      modifies this, data
      ensures |bytes| <= |request| - moved && (bytes == [] <==> moved == |request|)
      ensures position == old(position) + |bytes| && m.received == old(m.received) + bytes
      ensures Live(ReaderNext(c, Self(Ready, request, moved + |bytes|)))
    {
      var t, amount := LoadOwn(request, moved);
      if amount == 0 {
        return [];
      }
      bytes := CopyBytes(request, moved, t, amount);
      framePos, position := framePos + amount, position + amount;
      if framePos == frameBytes {
        Release(request, moved + amount, t);
      }
    }

    /** One chunk, waiting for a frame first if none is open. */
    method NextChunk(request: seq<Byte>, moved: nat) returns (bytes: seq<Byte>, status: Status)
      requires moved <= |request| && Live(Self(if framePos == frameBytes then LoadFirst else Ready, request, moved))
      modifies this, data
      ensures status == Done || status == Cancelled
      ensures |bytes| <= |request| - moved && (bytes == [] <==> status == Cancelled || moved == |request|)
      ensures if status == Done then Live(ReaderNext(c, Self(Idle, request, moved + |bytes|))) else Valid()
      ensures m.received == old(m.received) + bytes && position == old(position) + |bytes|
    {
      status := Done;
      if framePos == frameBytes {
        status := Acquire(request, moved);
      }
      bytes := [];
      if status == Done {
        bytes := CopyChunk(request, moved);
      }
    }

    /** The Go handle's Read: at most one chunk per call. The bytes returned are the next
        bytes of the stream, whatever the writer does meanwhile. */
    method Read(length: nat) returns (bytes: seq<Byte>, status: Status)
      requires Valid() && c.goReader
      modifies this, data
      ensures Valid()
      ensures status == EndOfStream <==> old(position) == c.total
      ensures status == EndOfStream || status == Done || status == Cancelled
      ensures |bytes| <= length && (status != Done ==> bytes == []) && (status == Done && length > 0 ==> bytes != [])
      ensures position == old(position) + |bytes| <= |m.sent| && bytes == m.sent[old(position)..position]
    {
      ReaderFacts(c, m);
      bytes := [];
      if position == c.total {
        return [], EndOfStream;
      }
      Take(CallRead(Room(length)));
      bytes, status := NextChunk(Room(length), 0);
      ReaderFacts(c, m);
    }

    /** The C handle's read: chunks until the buffer is full or the stream ends. A timeout
        loses the count but not the bytes already copied. */
    method ReadFully(length: nat) returns (bytes: seq<Byte>, status: Status)
      requires Valid() && !c.goReader
      modifies this, data
      ensures Valid()
      ensures status == Done || status == Cancelled
      ensures |bytes| <= length && (status == Done ==> |bytes| == length || position == c.total)
      ensures position == old(position) + |bytes| <= |m.sent| && bytes == m.sent[old(position)..position]
    {
      ReaderFacts(c, m);
      bytes, status := [], Done;
      if position == c.total {
        return;
      }
      Take(CallRead(Room(length)));
      while |bytes| < length && position < c.total
        invariant status == Done && |bytes| <= length && position == old(position) + |bytes|
        invariant Live(ReaderNext(c, Self(Idle, Room(length), |bytes|)))
        invariant m.received == old(m.received) + bytes
      {
        var chunk;
        chunk, status := NextChunk(Room(length), |bytes|);
        bytes := bytes + chunk;
        if status != Done {
          break;
        }
      }
      ReaderFacts(c, m);
    }
  }
}
