/** The single-producer single-consumer shared-memory ring as a step machine. Every
    atomic counter access and every byte copied is one step; the two sides interleave
    freely. */
module RingMachine {

  const HEADER: nat := 4096
  const MIN_SLOT: nat := 0x10_0000
  const MAX_SLOT: nat := 0x100_0000
  const MAX_TOTAL: nat := 0x100_0000_0000

  type Byte = b: nat | b < 256

  /** The file's parameters, and whether the reader is the Go handle (one chunk per call)
      or the C handle (fills the caller's buffer). The two writers take the same steps. */
  datatype Config = Config(slots: nat, slotSize: nat, total: nat, goReader: bool)

  predicate ValidConfig(c: Config) {
    && 2 <= c.slots <= 64 && MIN_SLOT <= c.slotSize <= MAX_SLOT && 0 < c.total <= MAX_TOTAL
  }

  /** Where a handle is inside Read or Write. */
  datatype Pc =
    | Idle
    | LoadFirst                     // about to load head
    | LoadSecond(head: nat)         // about to load tail and compare
    | Blocked                       // the ring looked full (writer) or empty (reader)
    | Ready                         // in a frame, about to load the own counter
    | Copying(counter: nat, amount: nat, done: nat)
    | Advance(counter: nat)         // frame complete, about to store the own counter
    | Corrupt                       // "corrupt ring counters"

  /** One handle. A writer's request is its buffer; a reader's request is a buffer of
      that length whose contents it ignores. */
  datatype Handle = Handle(position: nat, frameBytes: nat, framePos: nat, request: seq<Byte>, moved: nat, pc: Pc)

  datatype State = State(head: nat, tail: nat, data: seq<Byte>, w: Handle, r: Handle,
                         sent: seq<Byte>, received: seq<Byte>)

  function Min(a: nat, b: nat): nat { if a < b then a else b }

  /** The offset of byte j of the slot that frame k uses. */
  function Address(c: Config, k: nat, j: nat): nat
    requires c.slots > 0
  {
    HEADER + (k % c.slots) * c.slotSize + j
  }

  const FRESH := Handle(0, 0, 0, [], 0, Idle)

  ghost predicate Init(c: Config, s: State) {
    && |s.data| == HEADER + c.slots * c.slotSize
    && s.head == 0 && s.tail == 0 && s.w == FRESH && s.r == FRESH && s.sent == [] && s.received == []
  }

  /** Start a frame at the handle's position. */
  function Begin(c: Config, h: Handle): Handle
    requires h.position <= c.total
  {
    h.(frameBytes := Min(c.slotSize, c.total - h.position), framePos := 0, pc := Ready)
  }

  function StartPc(h: Handle): Pc {
    if h.framePos == h.frameBytes then LoadFirst else Ready
  }

  function Chunk(h: Handle): Handle
    requires h.pc.Copying?
  {
    var amount := h.pc.amount;
    h.(framePos := h.framePos + amount, position := h.position + amount, moved := h.moved + amount)
  }

  /** Return from a call. */
  function Finish(h: Handle): Handle {
    h.(request := [], moved := 0, pc := Idle)
  }

  // --- the writer -------------------------------------------------------

  /** Entering Write: a request past the declared length is refused, an empty one returns. */
  function WriteCall(c: Config, w: Handle, buffer: seq<Byte>): Handle {
    if w.position + |buffer| > c.total || buffer == [] then w
    else var h := w.(request := buffer, moved := 0); h.(pc := StartPc(h))
  }

  /** After a chunk, or after publishing: more of the buffer, or return. */
  function WriterNext(w: Handle): Handle {
    if w.moved < |w.request| then w.(pc := StartPc(w)) else Finish(w)
  }

  /** One byte copied; after the chunk's last byte the positions move. */
  function WriterCopied(w: Handle): Handle
    requires w.pc.Copying?
  {
    if w.pc.done + 1 < w.pc.amount then w.(pc := w.pc.(done := w.pc.done + 1))
    else
      var w' := Chunk(w);
      if w'.framePos == w'.frameBytes then w'.(pc := Advance(w.pc.counter)) else WriterNext(w')
  }

  function WriterStep(c: Config, s: State): State
    requires ValidConfig(c)
  {
    var w := s.w;
    match w.pc
    case LoadFirst => s.(w := w.(pc := LoadSecond(s.head)))
    case LoadSecond(head) =>
      var tail := s.tail;
      if head < tail || head - tail > c.slots then s.(w := w.(pc := Corrupt))
      else if head - tail == c.slots then s.(w := w.(pc := Blocked))
      else if w.position <= c.total then s.(w := Begin(c, w))
      else s
    case Blocked => s.(w := w.(pc := LoadFirst))
    case Ready =>
      if w.framePos <= w.frameBytes && w.moved <= |w.request|
      then s.(w := w.(pc := Copying(s.head, Min(|w.request| - w.moved, w.frameBytes - w.framePos), 0)))
      else s
    case Copying(head, amount, done) =>
      var at := Address(c, head, w.framePos + done);
      if at < |s.data| && w.moved + done < |w.request| then
        var byte := w.request[w.moved + done];
        s.(data := s.data[at := byte], sent := s.sent + [byte], w := WriterCopied(w))
      else s
    case Advance(head) => s.(head := head + 1, w := WriterNext(w))
    case _ => s
  }

  // --- the reader -------------------------------------------------------

  /** Entering Read: end of stream returns at once; so does an empty buffer in the C handle. */
  function ReadCall(c: Config, r: Handle, buffer: seq<Byte>): Handle {
    if r.position == c.total || (!c.goReader && buffer == []) then r
    else var h := r.(request := buffer, moved := 0); h.(pc := StartPc(h))
  }

  /** After a chunk: the Go handle returns; the C handle goes on while there is room and data. */
  function ReaderNext(c: Config, r: Handle): Handle {
    if !c.goReader && r.moved < |r.request| && r.position < c.total then r.(pc := StartPc(r)) else Finish(r)
  }

  function ReaderCopied(c: Config, r: Handle): Handle
    requires r.pc.Copying?
  {
    if r.pc.done + 1 < r.pc.amount then r.(pc := r.pc.(done := r.pc.done + 1))
    else
      var r' := Chunk(r);
      if r'.framePos == r'.frameBytes then r'.(pc := Advance(r.pc.counter)) else ReaderNext(c, r')
  }

  function ReaderStep(c: Config, s: State): State
    requires ValidConfig(c)
  {
    var r := s.r;
    match r.pc
    case LoadFirst => s.(r := r.(pc := LoadSecond(s.head)))
    case LoadSecond(head) =>
      var tail := s.tail;
      if head < tail || head - tail > c.slots then s.(r := r.(pc := Corrupt))
      else if head == tail then s.(r := r.(pc := Blocked))
      else if r.position <= c.total then s.(r := Begin(c, r))
      else s
    case Blocked => s.(r := r.(pc := LoadFirst))
    case Ready =>
      if r.framePos <= r.frameBytes && r.moved <= |r.request| then
        var amount := Min(|r.request| - r.moved, r.frameBytes - r.framePos);
        s.(r := if amount == 0 then ReaderNext(c, r) else r.(pc := Copying(s.tail, amount, 0)))
      else s
    case Copying(tail, amount, done) =>
      var at := Address(c, tail, r.framePos + done);
      if at < |s.data| then
        s.(received := s.received + [s.data[at]], r := ReaderCopied(c, r))
      else s
    case Advance(tail) => s.(tail := tail + 1, r := ReaderNext(c, r))
    case _ => s
  }

  // --- runs -------------------------------------------------------------

  datatype Action =
    | CallWrite(buffer: seq<Byte>) | CallRead(buffer: seq<Byte>)
    | StepWriter | StepReader
    | WriterGivesUp | ReaderGivesUp        // the wait was cancelled or timed out

  predicate Enabled(s: State, a: Action) {
    match a
    case CallWrite(_) => s.w.pc.Idle?
    case CallRead(_) => s.r.pc.Idle?
    case StepWriter => !s.w.pc.Idle? && !s.w.pc.Corrupt?
    case StepReader => !s.r.pc.Idle? && !s.r.pc.Corrupt?
    case WriterGivesUp => s.w.pc.Blocked?
    case ReaderGivesUp => s.r.pc.Blocked?
  }

  function Apply(c: Config, s: State, a: Action): State
    requires ValidConfig(c)
  {
    match a
    case CallWrite(buffer) => s.(w := WriteCall(c, s.w, buffer))
    case CallRead(buffer) => s.(r := ReadCall(c, s.r, buffer))
    case StepWriter => WriterStep(c, s)
    case StepReader => ReaderStep(c, s)
    case WriterGivesUp => s.(w := Finish(s.w))
    case ReaderGivesUp => s.(r := Finish(s.r))
  }

  /** The states a sequence of actions passes through. */
  ghost predicate Run(c: Config, trace: seq<State>, actions: seq<Action>)
    requires ValidConfig(c)
  {
    && |trace| == |actions| + 1 && Init(c, trace[0])
    && forall i :: 0 <= i < |actions| ==>
         Enabled(trace[i], actions[i]) && trace[i + 1] == Apply(c, trace[i], actions[i])
  }

  // --- the invariant ----------------------------------------------------

  function Base(c: Config, k: nat): nat { k * c.slotSize }

  /** A handle between frames: it has moved the first `counter` frames and nothing more. */
  predicate Between(c: Config, h: Handle, counter: nat) {
    && h.framePos == h.frameBytes && h.position == Min(Base(c, counter), c.total)
    && Base(c, counter) < c.total + c.slotSize
  }

  /** A handle inside frame `counter`, with framePos of its bytes moved. */
  predicate Within(c: Config, h: Handle, counter: nat) {
    && Base(c, counter) < c.total
    && h.frameBytes == Min(c.slotSize, c.total - Base(c, counter))
    && h.position == Base(c, counter) + h.framePos
  }

  predicate InFrame(c: Config, h: Handle, counter: nat) {
    Within(c, h, counter) && h.framePos < h.frameBytes
  }

  predicate Busy(pc: Pc) { pc.Ready? || pc.Copying? || pc.Advance? }

  predicate HandleOk(c: Config, h: Handle, counter: nat) {
    && h.moved <= |h.request| && !h.pc.Corrupt?
    && (h.pc.Idle? ==> h.request == [] && h.moved == 0)
    && match h.pc
       case Idle => Between(c, h, counter) || InFrame(c, h, counter)
       case LoadFirst => Between(c, h, counter) && h.position < c.total
       case LoadSecond(_) => Between(c, h, counter) && h.position < c.total
       case Blocked => Between(c, h, counter) && h.position < c.total
       case Ready => InFrame(c, h, counter)
       case Copying(k, amount, done) =>
         InFrame(c, h, counter) && k == counter && done < amount
         && h.framePos + amount <= h.frameBytes && h.moved + amount <= |h.request|
       case Advance(k) => Within(c, h, counter) && h.framePos == h.frameBytes && k == counter
       case Corrupt => false
  }

  function Moved(h: Handle): nat {
    h.position + if h.pc.Copying? then h.pc.done else 0
  }

  predicate WriterOk(c: Config, s: State) {
    && HandleOk(c, s.w, s.head)
    && |s.sent| == Moved(s.w)
    && (s.w.framePos < s.w.frameBytes || Busy(s.w.pc) ==> s.head - s.tail < c.slots)
    && (s.w.pc.LoadSecond? ==> s.w.pc.head == s.head)
    && (!s.w.pc.Idle? ==> s.w.position + (|s.w.request| - s.w.moved) <= c.total)
    && (!s.w.pc.Idle? && !s.w.pc.Advance? ==> s.w.moved < |s.w.request|)
  }

  predicate ReaderOk(c: Config, s: State) {
    && HandleOk(c, s.r, s.tail)
    && |s.received| == Moved(s.r)
    && (s.r.framePos < s.r.frameBytes || Busy(s.r.pc) ==> s.tail < s.head)
    && (s.r.pc.LoadSecond? ==> s.tail <= s.r.pc.head <= s.head)
    && (!s.r.pc.Idle? && !s.r.pc.Advance? && s.r.request != [] ==> s.r.moved < |s.r.request|)
  }

  /** Every byte sent and not yet released is in its slot. */
  predicate DataOk(c: Config, s: State)
    requires c.slots > 0
  {
    && |s.data| == HEADER + c.slots * c.slotSize
    && forall k, j :: s.tail <= k <= s.head && 0 <= j < c.slotSize && Base(c, k) + j < |s.sent| ==>
         Address(c, k, j) < |s.data| && s.data[Address(c, k, j)] == s.sent[Base(c, k) + j]
  }

  ghost predicate Inv(c: Config, s: State)
    requires ValidConfig(c)
  {
    && s.tail <= s.head <= s.tail + c.slots
    && WriterOk(c, s) && ReaderOk(c, s) && DataOk(c, s)
    && |s.received| <= |s.sent| && s.received == s.sent[..|s.received|]
  }

  // --- slot arithmetic ---------------------------------------------------

  lemma Scale(a: nat, b: nat, n: nat)
    requires a <= b
    ensures a * n <= b * n
  {
  }

  lemma InMapping(c: Config, k: nat, j: nat)
    requires ValidConfig(c) && j < c.slotSize
    ensures HEADER <= Address(c, k, j) < HEADER + c.slots * c.slotSize
  {
    var q := k % c.slots;
    Scale(q + 1, c.slots, c.slotSize);
    BaseStep(c, q);
    Scale(0, q, c.slotSize);
  }

  lemma ModDistinct(a: nat, b: nat, n: nat)
    requires a < b < a + n
    ensures a % n != b % n
  {
    var d := b / n - a / n;
    assert n * d == (b - a) - (b % n - a % n);
    if d <= 0 {
      assert n * d <= 0;
    } else {
      assert n * d >= n;
    }
  }

  lemma AddressDistinct(c: Config, k: nat, j: nat, k': nat, j': nat)
    requires ValidConfig(c) && j < c.slotSize && j' < c.slotSize
    requires k <= k' < k + c.slots && (k != k' || j != j')
    ensures Address(c, k, j) != Address(c, k', j')
  {
    if k != k' {
      ModDistinct(k, k', c.slots);
      var q, q' := k % c.slots, k' % c.slots;
      BaseStep(c, q);
      BaseStep(c, q');
      if q < q' {
        Scale(q + 1, q', c.slotSize);
      } else {
        Scale(q' + 1, q, c.slotSize);
      }
    }
  }

  lemma BaseStep(c: Config, k: nat)
    ensures Base(c, k + 1) == Base(c, k) + c.slotSize
  {
  }

  lemma BaseMonotone(c: Config, k: nat, k': nat)
    requires k <= k'
    ensures Base(c, k) <= Base(c, k')
  {
    Scale(k, k', c.slotSize);
  }

  // --- every step keeps the invariant -------------------------------------

  lemma InitInv(c: Config, s: State)
    requires ValidConfig(c) && Init(c, s)
    ensures Inv(c, s)
  {
  }

  /** The writer's next byte goes to a slot that holds no byte still to be read. */
  lemma WriterCopyData(c: Config, s: State)
    requires ValidConfig(c) && Inv(c, s) && s.w.pc.Copying?
    ensures Address(c, s.head, s.w.framePos + s.w.pc.done) < |s.data|
    ensures DataOk(c, WriterStep(c, s))
  {
    var j := s.w.framePos + s.w.pc.done;
    var at, s' := Address(c, s.head, j), WriterStep(c, s);
    InMapping(c, s.head, j);
    assert |s.sent| == Base(c, s.head) + j;
    forall k, i | s.tail <= k <= s.head && 0 <= i < c.slotSize && Base(c, k) + i < |s'.sent|
      ensures Address(c, k, i) < |s'.data| && s'.data[Address(c, k, i)] == s'.sent[Base(c, k) + i]
    {
      InMapping(c, k, i);
      if k == s.head && i == j {
      } else {
        AddressDistinct(c, k, i, s.head, j);
        if k < s.head {
          BaseStep(c, k);
          BaseMonotone(c, k + 1, s.head);
        }
      }
    }
  }

  /** A copied byte keeps either kind of handle well placed in its frame. */
  lemma CopiedOk(c: Config, h: Handle, counter: nat, h': Handle)
    requires HandleOk(c, h, counter) && h.pc.Copying?
    requires h' == WriterCopied(h) || h' == ReaderCopied(c, h)
    ensures HandleOk(c, h', counter) && Moved(h') == Moved(h) + 1
    ensures h'.pc.Idle? || Busy(h'.pc)
    ensures !h'.pc.Idle? ==> h'.request == h.request && h'.position - h'.moved == h.position - h.moved
  {
  }

  lemma WriterCopyKeeps(c: Config, s: State)
    requires ValidConfig(c) && Inv(c, s) && s.w.pc.Copying?
    ensures Inv(c, WriterStep(c, s))
  {
    var s' := WriterStep(c, s);
    WriterCopyData(c, s);
    CopiedOk(c, s.w, s.head, s'.w);
    assert WriterOk(c, s') && ReaderOk(c, s');
    assert s'.sent[..|s.received|] == s.sent[..|s.received|];
  }

  lemma WriterAdvanceKeeps(c: Config, s: State)
    requires ValidConfig(c) && Inv(c, s) && s.w.pc.Advance?
    ensures Inv(c, WriterStep(c, s))
  {
    var s' := WriterStep(c, s);
    BaseStep(c, s.head);
    assert Between(c, s'.w, s.head + 1);
    assert DataOk(c, s');
  }

  lemma WriterLocalKeeps(c: Config, s: State)
    requires ValidConfig(c) && Inv(c, s) && !s.w.pc.Copying? && !s.w.pc.Advance?
    ensures Inv(c, WriterStep(c, s))
  {
    assert DataOk(c, WriterStep(c, s));
  }

  /** A published frame has been sent in full. */
  lemma PublishedMeansSent(c: Config, s: State, j: nat)
    requires ValidConfig(c) && Inv(c, s) && s.tail < s.head
    requires Base(c, s.tail) < c.total && j < Min(c.slotSize, c.total - Base(c, s.tail))
    ensures Base(c, s.tail) + j < |s.sent|
  {
    BaseStep(c, s.tail);
    BaseMonotone(c, s.tail + 1, s.head);
  }

  /** The byte the reader copies is the next byte of the stream. */
  lemma ReaderCopyData(c: Config, s: State)
    requires ValidConfig(c) && Inv(c, s) && s.r.pc.Copying?
    ensures var at := Address(c, s.tail, s.r.framePos + s.r.pc.done);
            at < |s.data| && |s.received| < |s.sent| && s.data[at] == s.sent[|s.received|]
  {
    var j := s.r.framePos + s.r.pc.done;
    PublishedMeansSent(c, s, j);
    InMapping(c, s.tail, j);
    assert |s.received| == Base(c, s.tail) + j;
  }

  lemma ReaderCopyKeeps(c: Config, s: State)
    requires ValidConfig(c) && Inv(c, s) && s.r.pc.Copying?
    ensures Inv(c, ReaderStep(c, s))
  {
    var s' := ReaderStep(c, s);
    ReaderCopyData(c, s);
    CopiedOk(c, s.r, s.tail, s'.r);
    assert s'.received == s.sent[..|s'.received|];
    assert WriterOk(c, s') && ReaderOk(c, s');
    assert DataOk(c, s');
  }

  lemma ReaderAdvanceKeeps(c: Config, s: State)
    requires ValidConfig(c) && Inv(c, s) && s.r.pc.Advance?
    ensures Inv(c, ReaderStep(c, s))
  {
    var s' := ReaderStep(c, s);
    BaseStep(c, s.tail);
    assert Between(c, s'.r, s.tail + 1);
    assert DataOk(c, s');
  }

  lemma ReaderPollKeeps(c: Config, s: State)
    requires ValidConfig(c) && Inv(c, s) && NeedsFrame(s.r.pc)
    ensures Inv(c, ReaderStep(c, s))
  {
    var s' := ReaderStep(c, s);
    assert ReaderOk(c, s');
    assert WriterOk(c, s') && DataOk(c, s');
  }

  lemma ReaderReadyKeeps(c: Config, s: State)
    requires ValidConfig(c) && Inv(c, s) && s.r.pc.Ready?
    ensures Inv(c, ReaderStep(c, s))
  {
    var s' := ReaderStep(c, s);
    assert ReaderOk(c, s');
    assert WriterOk(c, s') && DataOk(c, s');
  }

  /** Every action keeps the invariant. */
  lemma StepKeepsInv(c: Config, s: State, a: Action)
    requires ValidConfig(c) && Inv(c, s) && Enabled(s, a)
    ensures Inv(c, Apply(c, s, a))
  {
    match a
    case StepWriter =>
      if s.w.pc.Copying? { WriterCopyKeeps(c, s); }
      else if s.w.pc.Advance? { WriterAdvanceKeeps(c, s); }
      else { WriterLocalKeeps(c, s); }
    case StepReader =>
      if s.r.pc.Copying? { ReaderCopyKeeps(c, s); }
      else if s.r.pc.Advance? { ReaderAdvanceKeeps(c, s); }
      else if s.r.pc.Ready? { ReaderReadyKeeps(c, s); }
      else { ReaderPollKeeps(c, s); }
    case _ =>
      assert DataOk(c, Apply(c, s, a));
  }

  // --- safety of every run -------------------------------------------------

  lemma {:induction false} RunInv(c: Config, trace: seq<State>, actions: seq<Action>, i: nat)
    requires ValidConfig(c) && Run(c, trace, actions) && i < |trace|
    ensures Inv(c, trace[i])
  {
    if i == 0 {
      InitInv(c, trace[0]);
    } else {
      RunInv(c, trace, actions, i - 1);
      StepKeepsInv(c, trace[i - 1], actions[i - 1]);
    }
  }

  /** Some run of the two sides, from a freshly initialised ring, ends in s. */
  ghost predicate Reachable(c: Config, s: State)
    requires ValidConfig(c)
  {
    exists trace, actions :: Run(c, trace, actions) && trace[|actions|] == s
  }

  lemma ReachableInit(c: Config, s: State)
    requires ValidConfig(c) && Init(c, s)
    ensures Reachable(c, s)
  {
    assert Run(c, [s], []);
  }

  lemma ReachableStep(c: Config, s: State, a: Action)
    requires ValidConfig(c) && Reachable(c, s) && Enabled(s, a)
    ensures Reachable(c, Apply(c, s, a))
  {
    var trace, actions :| Run(c, trace, actions) && trace[|actions|] == s;
    assert Run(c, trace + [Apply(c, s, a)], actions + [a]);
  }

  lemma ReachableInv(c: Config, s: State)
    requires ValidConfig(c) && Reachable(c, s)
    ensures Inv(c, s)
  {
    var trace, actions :| Run(c, trace, actions) && trace[|actions|] == s;
    RunInv(c, trace, actions, |actions|);
  }

  /** At every point of every interleaving the bytes copied out are a prefix of the bytes
      copied in, neither side has seen corrupt counters, and the counters are at most
      `slots` apart; a reader at end of stream has read all `total` bytes, in order. */
  lemma StreamInOrder(c: Config, trace: seq<State>, actions: seq<Action>, i: nat)
    requires ValidConfig(c) && Run(c, trace, actions) && i < |trace|
    ensures var s := trace[i];
            && s.received <= s.sent && |s.sent| <= c.total
            && !s.w.pc.Corrupt? && !s.r.pc.Corrupt?
            && s.tail <= s.head <= s.tail + c.slots
            && (s.r.position == c.total ==> s.received == s.sent && |s.sent| == c.total)
  {
    RunInv(c, trace, actions, i);
  }

  /** The counters never come near the end of a 64-bit word. */
  lemma CountersStaySmall(c: Config, s: State)
    requires ValidConfig(c) && Inv(c, s)
    ensures s.tail <= s.head <= 0x10_0000
  {
    Scale(MIN_SLOT, c.slotSize, 0x10_0000);
    BaseStep(c, 0x10_0000);
    if s.head > 0x10_0000 {
      BaseMonotone(c, 0x10_0001, s.head);
    }
  }

  /** A copy in progress stays inside the slots of the mapping, which follow a header of 4096 bytes, and the
      writer's slot is not the slot of any published frame that is still to be drained. */
  lemma CopiesAreSafe(c: Config, s: State)
    requires ValidConfig(c) && Inv(c, s)
    ensures s.w.pc.Copying? ==>
              && 4096 <= Address(c, s.w.pc.counter, s.w.framePos + s.w.pc.done) < |s.data|
              && forall k :: s.tail <= k < s.head ==> k % c.slots != s.w.pc.counter % c.slots
    ensures s.r.pc.Copying? ==>
              && 4096 <= Address(c, s.r.pc.counter, s.r.framePos + s.r.pc.done) < |s.data|
              && s.tail == s.r.pc.counter < s.head
    ensures |s.data| == 4096 + c.slots * c.slotSize
  {
    if s.w.pc.Copying? {
      InMapping(c, s.head, s.w.framePos + s.w.pc.done);
      forall k | s.tail <= k < s.head ensures k % c.slots != s.head % c.slots {
        ModDistinct(k, s.head, c.slots);
      }
    }
    if s.r.pc.Copying? {
      InMapping(c, s.tail, s.r.framePos + s.r.pc.done);
    }
  }

  // --- progress -------------------------------------------------------------

  predicate NeedsFrame(pc: Pc) { pc.LoadFirst? || pc.LoadSecond? || pc.Blocked? }

  /** The side needs a frame and the ring really has none for it: its steps only poll. */
  predicate WriterStuck(c: Config, s: State) { NeedsFrame(s.w.pc) && s.head - s.tail == c.slots }
  predicate ReaderStuck(s: State) { NeedsFrame(s.r.pc) && s.head == s.tail }

  function Rank(c: Config, h: Handle, stale: bool): nat {
    match h.pc
    case Idle => if h.position == c.total then 0 else 7
    case LoadFirst => 4
    case LoadSecond(_) => if stale then 6 else 3
    case Blocked => 5
    case Ready => 2
    case Copying(_, _, _) => 1
    case Advance(_) => 14
    case Corrupt => 0
  }

  function WriterRank(c: Config, s: State): nat {
    if WriterStuck(c, s) then 0 else Rank(c, s.w, false)
  }

  /** A reader that loaded head before the writer moved it will poll once more. */
  function ReaderRank(c: Config, s: State): nat {
    if ReaderStuck(s) then 0 else Rank(c, s.r, s.r.pc.LoadSecond? && s.r.pc.head == s.tail)
  }

  /** Work left: bytes to move, then what each side must do before its next byte. */
  function Measure(c: Config, s: State): int {
    16 * ((c.total - |s.sent|) + (c.total - |s.received|)) + WriterRank(c, s) + ReaderRank(c, s)
  }

  /** An action that is not a poll of a full or empty ring, nor an empty or refused call. */
  predicate Progress(c: Config, s: State, a: Action) {
    Enabled(s, a) &&
    match a
    case CallWrite(buffer) => buffer != [] && s.w.position + |buffer| <= c.total
    case CallRead(buffer) => buffer != [] && s.r.position < c.total
    case StepWriter => !WriterStuck(c, s)
    case StepReader => !ReaderStuck(s) && s.r.request != []
    case _ => false
  }

  predicate Poll(c: Config, s: State, a: Action) {
    Enabled(s, a) && ((a.StepWriter? && WriterStuck(c, s)) || (a.StepReader? && ReaderStuck(s)))
  }

  lemma WriterProgressLowers(c: Config, s: State)
    requires ValidConfig(c) && Inv(c, s) && Progress(c, s, StepWriter)
    ensures Measure(c, WriterStep(c, s)) < Measure(c, s)
  {
    if s.w.pc.Copying? {
      InMapping(c, s.head, s.w.framePos + s.w.pc.done);
    }
  }

  lemma ReaderProgressLowers(c: Config, s: State)
    requires ValidConfig(c) && Inv(c, s) && Progress(c, s, StepReader)
    ensures Measure(c, ReaderStep(c, s)) < Measure(c, s)
  {
    if s.r.pc.Copying? {
      InMapping(c, s.tail, s.r.framePos + s.r.pc.done);
    }
  }

  lemma ProgressLowers(c: Config, s: State, a: Action)
    requires ValidConfig(c) && Inv(c, s) && Progress(c, s, a)
    ensures Measure(c, Apply(c, s, a)) < Measure(c, s)
  {
    match a
    case StepWriter => WriterProgressLowers(c, s);
    case StepReader => ReaderProgressLowers(c, s);
    case _ =>
  }

  lemma MeasureIsNatural(c: Config, s: State)
    requires ValidConfig(c) && Inv(c, s)
    ensures Measure(c, s) >= 0
  {
  }

  lemma PollKeepsMeasure(c: Config, s: State, a: Action)
    requires ValidConfig(c) && Inv(c, s) && Poll(c, s, a)
    ensures Measure(c, Apply(c, s, a)) == Measure(c, s)
  {
  }

  /** Until the reader has every byte, some side can make progress: the two waits never
      block each other. */
  lemma SomeProgress(c: Config, s: State)
    requires ValidConfig(c) && Inv(c, s) && |s.received| < c.total
    requires s.r.pc.Idle? || s.r.request != []
    ensures exists a :: Progress(c, s, a)
  {
    if !ReaderStuck(s) {
      assert Progress(c, s, if s.r.pc.Idle? then CallRead([0]) else StepReader);
    } else {
      assert Base(c, s.head) < c.total;
      assert Progress(c, s, if s.w.pc.Idle? then CallWrite([0]) else StepWriter);
    }
  }

  function ProgressCount(c: Config, trace: seq<State>, actions: seq<Action>, n: nat): nat
    requires n <= |actions| <= |trace|
  {
    if n == 0 then 0
    else ProgressCount(c, trace, actions, n - 1) + if Progress(c, trace[n - 1], actions[n - 1]) then 1 else 0
  }

  /** What neither progresses nor polls: empty and refused calls, the steps of an empty read, and waits
      that are given up. */
  predicate Idles(c: Config, s: State, a: Action) { !Progress(c, s, a) && !Poll(c, s, a) }

  lemma IdlingRaisesLittle(c: Config, s: State, a: Action)
    requires ValidConfig(c) && Inv(c, s) && Enabled(s, a) && Idles(c, s, a)
    ensures Measure(c, Apply(c, s, a)) <= Measure(c, s) + 14
  {
  }

  function IdleCount(c: Config, trace: seq<State>, actions: seq<Action>, n: nat): nat
    requires n <= |actions| <= |trace|
  {
    if n == 0 then 0
    else IdleCount(c, trace, actions, n - 1) + if Idles(c, trace[n - 1], actions[n - 1]) then 1 else 0
  }

  /** In every run the steps that make progress are bounded by the work there was at the start and by how
      often a side idled. */
  lemma {:induction false} ProgressIsBounded(c: Config, trace: seq<State>, actions: seq<Action>, n: nat)
    requires ValidConfig(c) && Run(c, trace, actions) && n <= |actions|
    ensures ProgressCount(c, trace, actions, n) + Measure(c, trace[n])
            <= 32 * c.total + 14 + 14 * IdleCount(c, trace, actions, n)
    ensures ProgressCount(c, trace, actions, n) <= 32 * c.total + 14 + 14 * IdleCount(c, trace, actions, n)
  {
    RunInv(c, trace, actions, n);
    MeasureIsNatural(c, trace[n]);
    if n > 0 {
      ProgressIsBounded(c, trace, actions, n - 1);
      RunInv(c, trace, actions, n - 1);
      var s, a := trace[n - 1], actions[n - 1];
      if Progress(c, s, a) {
        ProgressLowers(c, s, a);
      } else if Poll(c, s, a) {
        PollKeepsMeasure(c, s, a);
      } else {
        IdlingRaisesLittle(c, s, a);
      }
    }
  }
}
