/** Any number of read and write servers on one record file. A step is one call of
    `handle_read` with what `main` does after it, a connection, the start of a server or its
    end. */
module BookingRuns {
  import opened Booking
  import opened Parser
  import opened BookingServer

  // What one call does, up to the lock protocol

  /** Which record a slot views. */
  predicate Views(kind: Kind, s: Slot, r: int) {
    Viewing(kind, s) && s.id == HEAD + r
  }

  /** The call leaves locks, counters and the file alone and shows nothing. */
  predicate Idles(kind: Kind, s: Local, s': Local) {
    && s'.selfLock == s.selfLock && s'.kernel == s.kernel
    && SlotOk(kind, s'.slot) && (s'.slot == s.slot || !Viewing(kind, s'.slot))
  }

  /** The call shows record r and locks it. */
  predicate Acquires(kind: Kind, p: int, s: Local, s': Local, r: int)
    requires Sized(s) && 0 <= r < RECORDS
  {
    && !Viewing(kind, s.slot) && Views(kind, s'.slot, r) && s'.slot.buf == Shown(s.kernel.file[r])
    && !Others(s.kernel, p, r, WRLCK) && (kind.WRITE_SERVER? ==> !Others(s.kernel, p, r, RDLCK) && s.selfLock[r] != 1)
    && s'.selfLock == s.selfLock[r := if kind.READ_SERVER? then s.selfLock[r] + 1 else 1]
    && s'.kernel == Kernel(s.kernel.file, s.kernel.held[(p, r) := if kind.READ_SERVER? then RDLCK else WRLCK])
  }

  /** The call ends a viewing of record r and unlocks it; only a write server's accepted
      command changes the record, by its numbers. */
  predicate Releases(kind: Kind, p: int, s: Local, s': Local, input: Input, r: int)
    requires Sized(s) && 0 <= r < RECORDS
  {
    && Views(kind, s.slot, r) && !Viewing(kind, s'.slot) && s'.slot.id == 0
    && s'.selfLock == s.selfLock[r := if kind.READ_SERVER? then s.selfLock[r] - 1 else 0]
    && s'.kernel.file == s.kernel.file[r := Booked(kind, s.kernel.file[r], input)]
    && s'.kernel.held ==
        if kind.READ_SERVER? && s.selfLock[r] - 1 != 0 then s.kernel.held else s.kernel.held[(p, r) := UNLCK]
  }

  /** The numbers of a booking command that a write server accepts on this record state. */
  function AcceptedNums(kind: Kind, state: Counts, input: Input): Counts {
    if kind.WRITE_SERVER? && input.Bytes? && '\n' in input.text && Parse(input.text).Command? then
      ParseThree(input.text);
      if InBounds(Plus(state, Parse(input.text).nums)) then Parse(input.text).nums else [0, 0, 0]
    else [0, 0, 0]
  }

  function Booked(kind: Kind, state: Counts, input: Input): Counts {
    Plus(state, AcceptedNums(kind, state, input))
  }

  /** There is no fourth kind of call. */
  lemma {:induction false} ServeEffect(kind: Kind, p: int, s: Local, input: Input)
    requires Sized(s) && SlotOk(kind, s.slot) && s.slot.live
    ensures var o := Serve(kind, p, s, input);
      o.Returned? ==>
        || Idles(kind, s, o.local)
        || (exists r :: 0 <= r < RECORDS && Acquires(kind, p, s, o.local, r))
        || (exists r :: 0 <= r < RECORDS && Releases(kind, p, s, o.local, input, r))
  {
    if input.Bytes? {
      if '\n' !in input.text {
        InterruptEffect(kind, p, s, input);
      } else if Viewing(kind, s.slot) {
        if kind.WRITE_SERVER? { CommandEffect(p, s, input); } else { LeaveEffect(p, s, input); }
      } else {
        AskEffect(kind, p, s, input);
      }
    }
  }

  lemma {:induction false} NothingBooked(state: Counts)
    ensures Plus(state, [0, 0, 0]) == state
  {
  }

  lemma {:induction false} InterruptEffect(kind: Kind, p: int, s: Local, input: Input)
    requires Sized(s) && SlotOk(kind, s.slot) && s.slot.live && input.Bytes? && '\n' !in input.text
    ensures var o := Serve(kind, p, s, input);
      o.Returned? ==>
        || Idles(kind, s, o.local)
        || (exists r :: 0 <= r < RECORDS && Releases(kind, p, s, o.local, input, r))
  {
    var o := Serve(kind, p, s, input);
    if o.Returned? && s.slot.id != 0 {
      var r := s.slot.id - HEAD;
      NothingBooked(s.kernel.file[r]);
      assert Releases(kind, p, s, o.local, input, r);
    }
  }

  lemma {:induction false} LeaveEffect(p: int, s: Local, input: Input)
    requires Sized(s) && SlotOk(READ_SERVER, s.slot) && Viewing(READ_SERVER, s.slot)
    requires input.Bytes? && '\n' in input.text
    ensures var o := Serve(READ_SERVER, p, s, input);
      && o.Returned?
      && (|| Idles(READ_SERVER, s, o.local)
          || (exists r :: 0 <= r < RECORDS && Releases(READ_SERVER, p, s, o.local, input, r)))
  {
    var o := Serve(READ_SERVER, p, s, input);
    var r := s.slot.id - HEAD;
    if EXIT <= input.text {
      NothingBooked(s.kernel.file[r]);
      assert Releases(READ_SERVER, p, s, o.local, input, r);
    }
  }

  lemma {:induction false} CommandEffect(p: int, s: Local, input: Input)
    requires Sized(s) && SlotOk(WRITE_SERVER, s.slot) && Viewing(WRITE_SERVER, s.slot)
    requires input.Bytes? && '\n' in input.text
    ensures var o := Serve(WRITE_SERVER, p, s, input); var r := s.slot.id - HEAD;
      o.Returned? && Releases(WRITE_SERVER, p, s, o.local, input, r)
  {
    var r := s.slot.id - HEAD;
    NothingBooked(s.kernel.file[r]);
    ParseThree(input.text);
    if Parse(input.text).Command? { JudgeAccepts(s.kernel.file[r], Parse(input.text).nums); }
  }

  lemma {:induction false} AskEffect(kind: Kind, p: int, s: Local, input: Input)
    requires Sized(s) && SlotOk(kind, s.slot) && s.slot.live && !Viewing(kind, s.slot)
    requires input.Bytes? && '\n' in input.text
    ensures var o := Serve(kind, p, s, input);
      && o.Returned?
      && (|| Idles(kind, s, o.local)
          || (exists r :: 0 <= r < RECORDS && Acquires(kind, p, s, o.local, r)))
  {
    var o := Serve(kind, p, s, input);
    var r := Atoi(input.text) - HEAD;
    if o.ret == 1 {
      assert Acquires(kind, p, s, o.local, r);
    }
  }

  /** A client is dropped with its lock still counted exactly when its connection ends without
      an interrupt, or when it is a reader whose line is not "Exit": the lock is then never
      given back before the server's end. */
  lemma {:induction false} LockLeftBehindIff(kind: Kind, p: int, s: Local, input: Input)
    requires Sized(s) && SlotOk(kind, s.slot) && Viewing(kind, s.slot) && s.selfLock[s.slot.id - HEAD] > 0
    requires Serve(kind, p, s, input).Returned?
    ensures var s' := Serve(kind, p, s, input).local;
      !Viewing(kind, s'.slot) && s'.selfLock == s.selfLock
      <==> input == Eof || (kind.READ_SERVER? && input.Bytes? && '\n' in input.text && !(EXIT <= input.text))
  {
    var r := s.slot.id - HEAD;
    var s' := Serve(kind, p, s, input).local;
    if s'.selfLock == s.selfLock { assert s'.selfLock[r] == s.selfLock[r]; }
  }

  // The world

  datatype Proc = Proc(kind: Kind, slots: seq<Slot>, selfLock: seq<int>)

  datatype World = World(procs: map<int, Proc>, kernel: Kernel)

  datatype Event =
    | Start(p: int, kind: Kind, maxfd: nat)
    | Connect(p: int, i: int)
    | Receive(p: int, i: int, input: Input)
    | Stop(p: int)

  function At(w: World, p: int, i: int): Local
    requires p in w.procs && 0 <= i < |w.procs[p].slots|
  {
    Local(w.procs[p].slots[i], w.procs[p].selfLock, w.kernel)
  }

  /** The end of a process: the kernel drops its locks. */
  function Ended(w: World, p: int): World {
    World(w.procs - {p}, Kernel(w.kernel.file, map x | x in w.kernel.held && x.0 != p :: w.kernel.held[x]))
  }

  function Put(w: World, p: int, i: int, s: Local): World
    requires p in w.procs && 0 <= i < |w.procs[p].slots|
  {
    World(w.procs[p := Proc(w.procs[p].kind, w.procs[p].slots[i := s.slot], s.selfLock)], s.kernel)
  }

  /** Slot i of server p has a client whom the server can serve. */
  predicate Ready(w: World, p: int, i: int) {
    && p in w.procs && 0 <= i < |w.procs[p].slots| && w.procs[p].slots[i].live
    && Sized(At(w, p, i)) && SlotOk(w.procs[p].kind, w.procs[p].slots[i])
  }

  predicate Step(w: World, e: Event, w': World) {
    match e
    case Start(p, kind, maxfd) =>
      && p !in w.procs
      && w' == World(w.procs[p := Proc(kind, seq(maxfd, _ => Slot(false, 0, false, false, NoReply)), seq(32, _ => 0))],
                     w.kernel)
    case Connect(p, i) =>
      && p in w.procs && 0 <= i < |w.procs[p].slots| && !w.procs[p].slots[i].live
      && w' == Put(w, p, i, At(w, p, i).(slot := Accept(w.procs[p].kind, w.procs[p].slots[i])))
    case Receive(p, i, input) =>
      && Ready(w, p, i)
      && var o := Serve(w.procs[p].kind, p, At(w, p, i), input);
         w' == if o.Died? then Ended(w, p) else Put(w, p, i, o.local)
    case Stop(p) => p in w.procs && w' == Ended(w, p)
  }

  // The invariant

  function Viewers(kind: Kind, slots: seq<Slot>, r: int): nat {
    if slots == [] then 0 else (if Views(kind, slots[0], r) then 1 else 0) + Viewers(kind, slots[1..], r)
  }

  lemma {:induction false} ViewersUpdate(kind: Kind, slots: seq<Slot>, i: int, s: Slot, r: int)
    requires 0 <= i < |slots|
    ensures Viewers(kind, slots[i := s], r) ==
      Viewers(kind, slots, r) - (if Views(kind, slots[i], r) then 1 else 0) + (if Views(kind, s, r) then 1 else 0)
    decreases slots
  {
    if i == 0 {
      assert slots[i := s][1..] == slots[1..];
    } else {
      assert slots[i := s][1..] == slots[1..][i - 1 := s];
      ViewersUpdate(kind, slots[1..], i - 1, s, r);
    }
  }

  /** Two slots that view a record are two viewers. */
  lemma {:induction false} TwoViewers(kind: Kind, slots: seq<Slot>, i: int, j: int, r: int)
    requires 0 <= i < |slots| && 0 <= j < |slots| && Views(kind, slots[i], r) && Views(kind, slots[j], r)
    ensures Viewers(kind, slots, r) >= if i == j then 1 else 2
  {
    var gone := Slot(false, 0, false, false, NoReply);
    ViewersUpdate(kind, slots, i, gone, r);
    if i != j { ViewersUpdate(kind, slots[i := gone], j, gone, r); }
  }

  lemma {:induction false} NoViewers(kind: Kind, slots: seq<Slot>, r: int)
    requires forall i :: 0 <= i < |slots| ==> !Viewing(kind, slots[i])
    ensures Viewers(kind, slots, r) == 0
  {
    if slots != [] { NoViewers(kind, slots[1..], r); }
  }

  /** Counter and lock of server p for record r: a read server holds the read lock exactly while
      its counter is positive, and counts at least its viewers; a write server holds the write
      lock exactly while its counter is one, and has at most that many clients on the record. */
  predicate Counted(p: int, s: Proc, k: Kernel, r: int)
    requires 0 <= r < RECORDS && |s.selfLock| == 32
  {
    && Viewers(s.kind, s.slots, r) <= s.selfLock[r]
    && (s.kind.WRITE_SERVER? ==> s.selfLock[r] <= 1)
    && HeldBy(k, p, r) == if s.selfLock[r] == 0 then UNLCK else if s.kind.READ_SERVER? then RDLCK else WRLCK
  }

  /** The client is looking at the record as it is in the file. */
  predicate Fresh(s: Proc, k: Kernel, i: int)
    requires 0 <= i < |s.slots| && |k.file| == RECORDS
  {
    var slot := s.slots[i];
    && SlotOk(s.kind, slot)
    && (Viewing(s.kind, slot) ==> slot.buf == Shown(k.file[slot.id - HEAD]))
  }

  ghost predicate ServerInv(p: int, s: Proc, k: Kernel) {
    && |s.selfLock| == 32 && |k.file| == RECORDS
    && (forall r :: 0 <= r < RECORDS ==> Counted(p, s, k, r))
    && (forall i :: 0 <= i < |s.slots| ==> Fresh(s, k, i))
  }

  /** A write lock excludes every other lock on the record. */
  ghost predicate Exclusive(k: Kernel) {
    forall p, q, r :: p != q && HeldBy(k, p, r) == WRLCK ==> HeldBy(k, q, r) == UNLCK
  }

  ghost predicate Inv(w: World) {
    && |w.kernel.file| == RECORDS
    && Exclusive(w.kernel)
    && (forall p, r :: p !in w.procs ==> HeldBy(w.kernel, p, r) == UNLCK)
    && (forall p :: p in w.procs ==> ServerInv(p, w.procs[p], w.kernel))
  }

  // Calls keep it

  lemma {:induction false} NotOthers(k: Kernel, p: int, r: int, mode: Lock)
    requires !Others(k, p, r, mode) && mode != UNLCK
    ensures forall q :: q != p ==> HeldBy(k, q, r) != mode
  {
    forall q | q != p ensures HeldBy(k, q, r) != mode {
      var x := (q, r);
      assert !(x in k.held && x.0 != p && x.1 == r && k.held[x] == mode);
    }
  }

  /** What a call of server p does to the records and locks that the other servers see. */
  ghost predicate Outside(p: int, k: Kernel, k': Kernel) {
    && |k'.file| == |k.file| == RECORDS
    && (forall q, r :: q != p ==> HeldBy(k', q, r) == HeldBy(k, q, r))
    && (forall r :: 0 <= r < RECORDS && HeldBy(k, p, r) != WRLCK ==> k'.file[r] == k.file[r])
  }

  lemma {:induction false} AcquireKeeps(p: int, s: Proc, k: Kernel, i: int, l: Local, r: int)
    requires ServerInv(p, s, k) && Exclusive(k) && 0 <= i < |s.slots| && 0 <= r < RECORDS
    requires Acquires(s.kind, p, Local(s.slots[i], s.selfLock, k), l, r)
    ensures ServerInv(p, Proc(s.kind, s.slots[i := l.slot], l.selfLock), l.kernel)
    ensures Outside(p, k, l.kernel) && Exclusive(l.kernel)
  {
    NotOthers(k, p, r, WRLCK);
    if s.kind.WRITE_SERVER? { NotOthers(k, p, r, RDLCK); }
    HeldAfter(k, p, r, if s.kind.READ_SERVER? then RDLCK else WRLCK);
    var s' := Proc(s.kind, s.slots[i := l.slot], l.selfLock);
    forall x | 0 <= x < RECORDS ensures Counted(p, s', l.kernel, x) {
      assert Counted(p, s, k, x);
      ViewersUpdate(s.kind, s.slots, i, l.slot, x);
    }
    forall j | 0 <= j < |s'.slots| ensures Fresh(s', l.kernel, j) { assert Fresh(s, k, j); }
  }

  lemma {:induction false} HeldAfter(k: Kernel, p: int, r: int, mode: Lock)
    ensures var k' := Kernel(k.file, k.held[(p, r) := mode]);
      forall q, x :: HeldBy(k', q, x) == if q == p && x == r then mode else HeldBy(k, q, x)
  {
  }

  lemma {:induction false} ReleaseKeeps(p: int, s: Proc, k: Kernel, i: int, l: Local, input: Input, r: int)
    requires ServerInv(p, s, k) && Exclusive(k) && 0 <= i < |s.slots| && 0 <= r < RECORDS
    requires Releases(s.kind, p, Local(s.slots[i], s.selfLock, k), l, input, r)
    ensures ServerInv(p, Proc(s.kind, s.slots[i := l.slot], l.selfLock), l.kernel)
    ensures Outside(p, k, l.kernel) && Exclusive(l.kernel)
  {
    HeldAfterRelease(p, s, k, i, l, input, r);
    var s' := Proc(s.kind, s.slots[i := l.slot], l.selfLock);
    TwoViewers(s.kind, s.slots, i, i, r);
    assert Counted(p, s, k, r);
    forall x | 0 <= x < RECORDS ensures Counted(p, s', l.kernel, x) {
      assert Counted(p, s, k, x);
      ViewersUpdate(s.kind, s.slots, i, l.slot, x);
    }
    NothingBooked(k.file[r]);
    forall j | 0 <= j < |s'.slots| ensures Fresh(s', l.kernel, j) {
      assert Fresh(s, k, j);
      if j != i && Views(s.kind, s.slots[j], r) { TwoViewers(s.kind, s.slots, i, j, r); }
    }
  }

  lemma {:induction false} HeldAfterRelease(p: int, s: Proc, k: Kernel, i: int, l: Local, input: Input, r: int)
    requires ServerInv(p, s, k) && 0 <= i < |s.slots| && 0 <= r < RECORDS
    requires Releases(s.kind, p, Local(s.slots[i], s.selfLock, k), l, input, r)
    ensures forall q, x :: (q, x) != (p, r) ==> HeldBy(l.kernel, q, x) == HeldBy(k, q, x)
    ensures HeldBy(l.kernel, p, r) == if s.kind.READ_SERVER? && s.selfLock[r] != 1 then RDLCK else UNLCK
    ensures HeldBy(k, p, r) == if s.kind.READ_SERVER? then RDLCK else WRLCK
  {
    assert Counted(p, s, k, r);
    TwoViewers(s.kind, s.slots, i, i, r);
  }

  lemma {:induction false} IdleKeeps(p: int, s: Proc, k: Kernel, i: int, l: Local)
    requires ServerInv(p, s, k) && 0 <= i < |s.slots|
    requires Idles(s.kind, Local(s.slots[i], s.selfLock, k), l)
    ensures ServerInv(p, Proc(s.kind, s.slots[i := l.slot], l.selfLock), k)
    ensures Outside(p, k, k)
  {
    var s' := Proc(s.kind, s.slots[i := l.slot], l.selfLock);
    forall x | 0 <= x < RECORDS ensures Counted(p, s', k, x) {
      assert Counted(p, s, k, x);
      ViewersUpdate(s.kind, s.slots, i, l.slot, x);
    }
    forall j | 0 <= j < |s'.slots| ensures Fresh(s', k, j) { assert Fresh(s, k, j); }
  }

  /** A server that did not make the call sees nothing that it could not know. */
  lemma {:induction false} BystanderKeeps(p: int, q: int, s: Proc, k: Kernel, k': Kernel)
    requires q != p && ServerInv(q, s, k) && Exclusive(k) && Outside(p, k, k')
    ensures ServerInv(q, s, k')
  {
    forall r | 0 <= r < RECORDS ensures Counted(q, s, k', r) { assert Counted(q, s, k, r); }
    forall i | 0 <= i < |s.slots| ensures Fresh(s, k', i) {
      assert Fresh(s, k, i);
      if Viewing(s.kind, s.slots[i]) {
        var r := s.slots[i].id - HEAD;
        TwoViewers(s.kind, s.slots, i, i, r);
        assert Counted(q, s, k, r);
        assert HeldBy(k, q, r) != UNLCK;
      }
    }
  }

  lemma {:induction false} CallKeeps(w: World, p: int, i: int, l: Local)
    requires Inv(w) && p in w.procs && 0 <= i < |w.procs[p].slots|
    requires ServerInv(p, Proc(w.procs[p].kind, w.procs[p].slots[i := l.slot], l.selfLock), l.kernel)
    requires Outside(p, w.kernel, l.kernel) && Exclusive(l.kernel)
    ensures Inv(Put(w, p, i, l))
  {
    var w' := Put(w, p, i, l);
    forall q | q in w'.procs ensures ServerInv(q, w'.procs[q], w'.kernel) {
      if q != p { BystanderKeeps(p, q, w.procs[q], w.kernel, l.kernel); }
    }
  }

  lemma {:induction false} ReceiveKeeps(w: World, p: int, i: int, input: Input, l: Local)
    requires Inv(w) && Ready(w, p, i) && Serve(w.procs[p].kind, p, At(w, p, i), input).Returned?
    requires l == Serve(w.procs[p].kind, p, At(w, p, i), input).local
    ensures Inv(Put(w, p, i, l))
  {
    var s, k := w.procs[p], w.kernel;
    ServeEffect(s.kind, p, At(w, p, i), input);
    if Idles(s.kind, At(w, p, i), l) {
      IdleKeeps(p, s, k, i, l);
    } else if r :| 0 <= r < RECORDS && Acquires(s.kind, p, At(w, p, i), l, r) {
      AcquireKeeps(p, s, k, i, l, r);
    } else {
      var r :| 0 <= r < RECORDS && Releases(s.kind, p, At(w, p, i), l, input, r);
      ReleaseKeeps(p, s, k, i, l, input, r);
    }
    CallKeeps(w, p, i, l);
  }

  lemma {:induction false} EndKeeps(w: World, p: int)
    requires Inv(w)
    ensures Inv(Ended(w, p))
  {
    var w' := Ended(w, p);
    assert forall q, r :: HeldBy(w'.kernel, q, r) == if q == p then UNLCK else HeldBy(w.kernel, q, r);
    forall q | q in w'.procs ensures ServerInv(q, w'.procs[q], w'.kernel) {
      BystanderKeeps(p, q, w.procs[q], w.kernel, w'.kernel);
    }
  }

  lemma {:induction false} StartKeeps(w: World, p: int, s: Proc)
    requires Inv(w) && p !in w.procs && |s.selfLock| == 32
    requires forall r :: 0 <= r < 32 ==> s.selfLock[r] == 0
    requires forall i :: 0 <= i < |s.slots| ==> s.slots[i] == Slot(false, 0, false, false, NoReply)
    ensures Inv(World(w.procs[p := s], w.kernel))
  {
    forall r | 0 <= r < RECORDS ensures Counted(p, s, w.kernel, r) { NoViewers(s.kind, s.slots, r); }
    forall i | 0 <= i < |s.slots| ensures Fresh(s, w.kernel, i) { }
  }

  lemma {:induction false} ConnectKeeps(w: World, p: int, i: int)
    requires Inv(w) && p in w.procs && 0 <= i < |w.procs[p].slots| && !w.procs[p].slots[i].live
    ensures Inv(Put(w, p, i, At(w, p, i).(slot := Accept(w.procs[p].kind, w.procs[p].slots[i]))))
  {
    var s := w.procs[p];
    assert Fresh(s, w.kernel, i);
    var l := At(w, p, i).(slot := Accept(s.kind, s.slots[i]));
    IdleKeeps(p, s, w.kernel, i, l);
    CallKeeps(w, p, i, l);
  }

  /** Every step of every server keeps the invariant. */
  lemma {:induction false} StepKeeps(w: World, e: Event, w': World)
    requires Inv(w) && Step(w, e, w')
    ensures Inv(w')
  {
    match e
    case Start(p, kind, maxfd) => StartKeeps(w, p, w'.procs[p]);
    case Connect(p, i) => ConnectKeeps(w, p, i);
    case Receive(p, i, input) =>
      var o := Serve(w.procs[p].kind, p, At(w, p, i), input);
      if o.Died? { EndKeeps(w, p); } else { ReceiveKeeps(w, p, i, input, o.local); }
    case Stop(p) => EndKeeps(w, p);
  }

  // Runs

  /** A run of any servers on a record file, from before the first server starts. */
  ghost predicate Run(file: seq<Counts>, ws: seq<World>, es: seq<Event>) {
    && |ws| == |es| + 1 && |file| == RECORDS
    && ws[0] == World(map[], Kernel(file, map[]))
    && forall n :: 0 <= n < |es| ==> Step(ws[n], es[n], ws[n + 1])
  }

  lemma {:induction false} RunKeeps(file: seq<Counts>, ws: seq<World>, es: seq<Event>, n: nat)
    requires Run(file, ws, es) && n < |ws|
    ensures Inv(ws[n])
  {
    if n > 0 {
      RunKeeps(file, ws, es, n - 1);
      assert Step(ws[n - 1], es[n - 1], ws[n - 1 + 1]);
      StepKeeps(ws[n - 1], es[n - 1], ws[n]);
    }
  }

  predicate ViewsAt(w: World, p: int, i: int, r: int) {
    p in w.procs && 0 <= i < |w.procs[p].slots| && Views(w.procs[p].kind, w.procs[p].slots[i], r)
  }

  /** In every reachable state a client between "state shown" and "command applied" is alone:
      no other client of any server is looking at its record. */
  lemma {:induction false} WriterAlone(file: seq<Counts>, ws: seq<World>, es: seq<Event>, n: nat,
                                       p: int, i: int, q: int, j: int, r: int)
    requires Run(file, ws, es) && n < |ws| && 0 <= r < RECORDS
    requires ViewsAt(ws[n], p, i, r) && ViewsAt(ws[n], q, j, r) && ws[n].procs[p].kind.WRITE_SERVER?
    ensures p == q && i == j
  {
    RunKeeps(file, ws, es, n);
    var w := ws[n];
    var sp, sq := w.procs[p], w.procs[q];
    assert ServerInv(p, sp, w.kernel) && ServerInv(q, sq, w.kernel);
    assert Counted(p, sp, w.kernel, r) && Counted(q, sq, w.kernel, r);
    TwoViewers(sp.kind, sp.slots, i, i, r);
    TwoViewers(sq.kind, sq.slots, j, j, r);
    assert HeldBy(w.kernel, p, r) == WRLCK && HeldBy(w.kernel, q, r) != UNLCK;
    if i != j && p == q { TwoViewers(sp.kind, sp.slots, i, j, r); }
  }

  /** In every reachable state every client that is looking at a record was shown what the file
      holds now. */
  lemma {:induction false} ShownIsCurrent(file: seq<Counts>, ws: seq<World>, es: seq<Event>, n: nat,
                                          p: int, i: int, r: int)
    requires Run(file, ws, es) && n < |ws| && 0 <= r < RECORDS && ViewsAt(ws[n], p, i, r)
    ensures |ws[n].kernel.file| == RECORDS && ws[n].procs[p].slots[i].buf == Shown(ws[n].kernel.file[r])
  {
    RunKeeps(file, ws, es, n);
    assert ServerInv(p, ws[n].procs[p], ws[n].kernel);
    assert Fresh(ws[n].procs[p], ws[n].kernel, i);
  }

  /** A read server holds the read lock exactly while its counter is positive, and its counter
      is at least the number of its viewers. */
  lemma {:induction false} ReadersCounted(file: seq<Counts>, ws: seq<World>, es: seq<Event>, n: nat, p: int, r: int)
    requires Run(file, ws, es) && n < |ws| && p in ws[n].procs && 0 <= r < RECORDS
    requires ws[n].procs[p].kind.READ_SERVER?
    ensures |ws[n].procs[p].selfLock| == 32
    ensures ws[n].procs[p].selfLock[r] >= Viewers(READ_SERVER, ws[n].procs[p].slots, r)
    ensures HeldBy(ws[n].kernel, p, r) == RDLCK <==> ws[n].procs[p].selfLock[r] > 0
  {
    RunKeeps(file, ws, es, n);
    assert ServerInv(p, ws[n].procs[p], ws[n].kernel);
    assert Counted(p, ws[n].procs[p], ws[n].kernel, r);
  }

  /** Whatever a client sends, a server in a reachable state can serve it. */
  lemma {:induction false} EveryInputServed(file: seq<Counts>, ws: seq<World>, es: seq<Event>, n: nat,
                                            p: int, i: int, input: Input)
    requires Run(file, ws, es) && n < |ws|
    requires p in ws[n].procs && 0 <= i < |ws[n].procs[p].slots| && ws[n].procs[p].slots[i].live
    ensures exists w' :: Step(ws[n], Receive(p, i, input), w')
  {
    RunKeeps(file, ws, es, n);
    var s := ws[n].procs[p];
    assert ServerInv(p, s, ws[n].kernel) && Fresh(s, ws[n].kernel, i);
    var o := Serve(s.kind, p, At(ws[n], p, i), input);
    assert Step(ws[n], Receive(p, i, input), if o.Died? then Ended(ws[n], p) else Put(ws[n], p, i, o.local));
  }

  // Who is shown a record, and how a viewing ends

  /** Nothing of server p but slot i has changed, and its client is gone. */
  predicate OnlyDropped(w: World, w': World, p: int, i: int) {
    && p in w.procs && p in w'.procs && 0 <= i < |w.procs[p].slots| == |w'.procs[p].slots|
    && !w'.procs[p].slots[i].live
    && w' == World(w.procs[p := Proc(w.procs[p].kind, w.procs[p].slots[i := w'.procs[p].slots[i]], w.procs[p].selfLock)],
                   w.kernel)
  }

  /** No lock of another server stands against showing record r on server p, nor, for writing, a
      client of the server itself. */
  ghost predicate Available(w: World, p: int, r: int)
    requires p in w.procs
  {
    if w.procs[p].kind.READ_SERVER? then forall q :: q != p ==> HeldBy(w.kernel, q, r) != WRLCK
    else forall q :: HeldBy(w.kernel, q, r) == UNLCK
  }

  lemma {:induction false} OthersIff(k: Kernel, p: int, r: int, mode: Lock)
    requires mode != UNLCK
    ensures Others(k, p, r, mode) <==> exists q :: q != p && HeldBy(k, q, r) == mode
  {
    if Others(k, p, r, mode) {
      var x :| x in k.held && x.0 != p && x.1 == r && k.held[x] == mode;
      assert HeldBy(k, x.0, r) == mode;
    } else {
      NotOthers(k, p, r, mode);
    }
  }

  /** In a state that keeps the invariant nobody but other processes and the own counter can stand
      in the way. */
  lemma {:induction false} AvailableIff(w: World, p: int, r: int)
    requires Inv(w) && p in w.procs && 0 <= r < RECORDS
    ensures |w.procs[p].selfLock| == 32
    ensures Available(w, p, r) <==>
      && !Others(w.kernel, p, r, WRLCK)
      && (w.procs[p].kind.WRITE_SERVER? ==> !Others(w.kernel, p, r, RDLCK) && w.procs[p].selfLock[r] != 1)
  {
    assert ServerInv(p, w.procs[p], w.kernel) && Counted(p, w.procs[p], w.kernel, r);
    OthersIff(w.kernel, p, r, WRLCK);
    OthersIff(w.kernel, p, r, RDLCK);
  }

  /** What a line makes of a client that has not been shown a record. */
  lemma {:induction false} AskIs(kind: Kind, p: int, s: Local, text: string)
    requires Sized(s) && SlotOk(kind, s.slot) && s.slot.live && !Viewing(kind, s.slot) && '\n' in text
    ensures var o, r := Serve(kind, p, s, Bytes(text)), Atoi(text) - 902001;
      && o.Returned?
      && if 0 <= r < 20 && !Others(s.kernel, p, r, WRLCK)
            && (kind.WRITE_SERVER? ==> !Others(s.kernel, p, r, RDLCK) && s.selfLock[r] != 1)
         then Acquires(kind, p, s, o.local, r)
         else !o.local.slot.live && o.local == s.(slot := o.local.slot)
  {
  }

  /** In every reachable state a client that has not been shown a record and sends a line is shown
      the record whose id the line holds, as it is in the file, if and only if there is such a
      record and it is available; otherwise it is dropped, and nothing else changes. */
  lemma {:induction false} ShownIff(file: seq<Counts>, ws: seq<World>, es: seq<Event>, n: nat, p: int, i: int, text: string)
    requires Run(file, ws, es) && n < |es| && es[n] == Receive(p, i, Bytes(text)) && '\n' in text
    requires Ready(ws[n], p, i) && !Viewing(ws[n].procs[p].kind, ws[n].procs[p].slots[i])
    ensures |ws[n].kernel.file| == RECORDS
    ensures var w, w', r := ws[n], ws[n + 1], Atoi(text) - 902001;
      if 0 <= r < 20 && Available(w, p, r) then
        ViewsAt(w', p, i, r) && w'.procs[p].slots[i].buf == Shown(w.kernel.file[r]) && w'.kernel.file == w.kernel.file
      else OnlyDropped(w, w', p, i) && forall r :: !ViewsAt(w', p, i, r)
  {
    RunKeeps(file, ws, es, n);
    var w, w', r := ws[n], ws[n + 1], Atoi(text) - 902001;
    assert Step(w, es[n], w');
    AskIs(w.procs[p].kind, p, At(w, p, i), text);
    if 0 <= r < 20 { AvailableIff(w, p, r); }
  }

  /** So whoever types the number of an available record is shown it. */
  lemma {:induction false} TypedIdShown(file: seq<Counts>, ws: seq<World>, es: seq<Event>, n: nat, p: int, i: int, r: nat)
    requires Run(file, ws, es) && n < |es| && es[n] == Receive(p, i, Bytes(Decimal(902001 + r) + "\r\n")) && r < 20
    requires Ready(ws[n], p, i) && !Viewing(ws[n].procs[p].kind, ws[n].procs[p].slots[i])
    ensures ViewsAt(ws[n + 1], p, i, r) <==> Available(ws[n], p, r)
  {
    var text := Decimal(902001 + r) + "\r\n";
    AtoiRoundTrip(902001 + r, "\r\n");
    assert text[|text| - 1] == '\n';
    ShownIff(file, ws, es, n, p, i, text);
  }

  /** Client i of server p is gone and its lock on record r given back: a read server counts one
      client less and holds its lock while any is left. */
  predicate GivenBack(w: World, w': World, p: int, i: int, r: int) {
    && p in w.procs && p in w'.procs && 0 <= i < |w.procs[p].slots| == |w'.procs[p].slots|
    && 0 <= r < |w.procs[p].selfLock| && !w'.procs[p].slots[i].live && w'.kernel.file == w.kernel.file
    && var left := if w.procs[p].kind.READ_SERVER? then w.procs[p].selfLock[r] - 1 else 0;
       && w'.procs[p].selfLock == w.procs[p].selfLock[r := left]
       && HeldBy(w'.kernel, p, r) == if left == 0 then UNLCK else RDLCK
  }

  /** How a viewing ends, but for a writer's command: with the lock given back on ctrl-C and on a
      reader's "Exit", with the lock left behind at the end of the connection and on a reader's
      other lines, and with the server itself on any other text without a line end. A failed read
      changes nothing. */
  lemma {:induction false} ViewingEnds(file: seq<Counts>, ws: seq<World>, es: seq<Event>, n: nat, p: int, i: int, r: int)
    requires Run(file, ws, es) && n < |es| && es[n].Receive? && es[n].p == p && es[n].i == i
    requires 0 <= r < RECORDS && ViewsAt(ws[n], p, i, r)
    ensures var w, w', input := ws[n], ws[n + 1], es[n].input;
      match input
      case ReadError => w' == w
      case Eof => OnlyDropped(w, w', p, i)
      case Bytes(text) =>
        if '\n' !in text then
          if [255 as char, 244 as char] <= text then GivenBack(w, w', p, i, r)
          else p !in w'.procs && w'.kernel.file == w.kernel.file && forall x :: HeldBy(w'.kernel, p, x) == UNLCK
        else w.procs[p].kind.READ_SERVER? ==>
          if "Exit" <= text then GivenBack(w, w', p, i, r) else OnlyDropped(w, w', p, i)
  {
    RunKeeps(file, ws, es, n);
    var w, w' := ws[n], ws[n + 1];
    var s := w.procs[p];
    assert Step(w, es[n], w');
    assert ServerInv(p, s, w.kernel) && Fresh(s, w.kernel, i) && Counted(p, s, w.kernel, r);
    TwoViewers(s.kind, s.slots, i, i, r);
    LeavingIs(s.kind, p, At(w, p, i), es[n].input);
    assert s.slots[i := s.slots[i]] == s.slots && w.procs[p := s] == w.procs;
  }

  lemma {:induction false} LeavingIs(kind: Kind, p: int, s: Local, input: Input)
    requires Sized(s) && SlotOk(kind, s.slot) && Viewing(kind, s.slot)
    ensures var o, r := Serve(kind, p, s, input), s.slot.id - HEAD;
      match input
      case ReadError => o.Returned? && o.local == s
      case Eof => o.Returned? && !o.local.slot.live && o.local == s.(slot := o.local.slot)
      case Bytes(text) =>
        if '\n' !in text then
          if [255 as char, 244 as char] <= text then
            o.Returned? && !o.local.slot.live && Releases(kind, p, s, o.local, input, r)
          else o.Died?
        else if kind.READ_SERVER? then
          && o.Returned? && !o.local.slot.live
          && (if "Exit" <= text then Releases(kind, p, s, o.local, input, r) else o.local == s.(slot := o.local.slot))
        else true
  {
    NothingBooked(s.kernel.file[s.slot.id - HEAD]);
  }

  /** A new client is served from the beginning, and it disturbs nobody. */
  lemma {:induction false} ConnectIs(file: seq<Counts>, ws: seq<World>, es: seq<Event>, n: nat, p: int, i: int)
    requires Run(file, ws, es) && n < |es| && es[n] == Connect(p, i)
    ensures Ready(ws[n + 1], p, i) && !Viewing(ws[n + 1].procs[p].kind, ws[n + 1].procs[p].slots[i])
    ensures ws[n + 1].kernel == ws[n].kernel
    ensures forall q, j, r :: q != p || j != i ==> (ViewsAt(ws[n + 1], q, j, r) <==> ViewsAt(ws[n], q, j, r))
  {
    RunKeeps(file, ws, es, n + 1);
    assert Step(ws[n], es[n], ws[n + 1]);
    var w' := ws[n + 1];
    assert ServerInv(p, w'.procs[p], w'.kernel) && Fresh(w'.procs[p], w'.kernel, i);
  }

  /** The other inputs of a client that has not been shown a record: it is dropped on ctrl-C and at the
      end of the connection, and nothing else changes. */
  lemma {:induction false} UnseenEnds(file: seq<Counts>, ws: seq<World>, es: seq<Event>, n: nat, p: int, i: int)
    requires Run(file, ws, es) && n < |es| && es[n].Receive? && es[n].p == p && es[n].i == i
    requires Ready(ws[n], p, i) && !Viewing(ws[n].procs[p].kind, ws[n].procs[p].slots[i])
    requires es[n].input.Bytes? ==> '\n' !in es[n].input.text
    ensures var w, w', input := ws[n], ws[n + 1], es[n].input;
      match input
      case ReadError => w' == w
      case Eof => OnlyDropped(w, w', p, i)
      case Bytes(text) =>
        if [255 as char, 244 as char] <= text then OnlyDropped(w, w', p, i)
        else p !in w'.procs && w'.kernel.file == w.kernel.file && forall x :: HeldBy(w'.kernel, p, x) == UNLCK
  {
    RunKeeps(file, ws, es, n);
    var w := ws[n];
    var s := w.procs[p];
    assert Step(w, es[n], ws[n + 1]) && ServerInv(p, s, w.kernel);
    assert s.slots[i := s.slots[i]] == s.slots && w.procs[p := s] == w.procs;
  }

  /** The value returned by a call, from what the client has sent and what stands in its way; no value
      is returned exactly on a text without a line end that is not ctrl-C. */
  lemma {:induction false} CodeIs(kind: Kind, p: int, s: Local, input: Input)
    requires Sized(s) && SlotOk(kind, s.slot) && s.slot.live
    ensures var o := HandleRead(kind, p, s, input);
      match input
      case ReadError => o.Returned? && o.ret == -1
      case Eof => o.Returned? && o.ret == 0
      case Bytes(text) =>
        if '\n' !in text then
          if [255 as char, 244 as char] <= text then o.Returned? && o.ret == 5 else o.Died?
        else
          var r := Atoi(text) - 902001;
          && o.Returned?
          && if !Viewing(kind, s.slot) then
               o.ret == if !(0 <= r < 20) then 0
                        else if Others(s.kernel, p, r, WRLCK)
                             || (kind.WRITE_SERVER? && (Others(s.kernel, p, r, RDLCK) || s.selfLock[r] == 1)) then 4
                        else 1
             else if kind.READ_SERVER? then o.ret == if "Exit" <= text then 1 else 0
             else o.ret == if Parse(text).NoCommand? then 0
                           else (ParseThree(text); Judge(s.kernel.file[s.slot.id - 902001], Parse(text).nums))
  {
    if input.Bytes? { ParseThree(input.text); }
  }

  // The ledger

  /** What an event books on record r: the numbers of a command that its client, having been
      shown the record, sends, if the state it was shown can take them. */
  function Delta(w: World, e: Event, r: int): Counts {
    if e.Receive? && ViewsAt(w, e.p, e.i, r) && w.procs[e.p].slots[e.i].buf.Shown? then
      AcceptedNums(w.procs[e.p].kind, w.procs[e.p].slots[e.i].buf.state, e.input)
    else [0, 0, 0]
  }

  /** A record changes by what is booked on it and by nothing else; what is booked was decided
      on the state the client was shown. */
  lemma {:induction false} StepBooks(w: World, e: Event, w': World, r: int)
    requires Inv(w) && Step(w, e, w') && 0 <= r < RECORDS
    ensures |w'.kernel.file| == RECORDS && w'.kernel.file[r] == Plus(w.kernel.file[r], Delta(w, e, r))
  {
    NothingBooked(w.kernel.file[r]);
    if e.Receive? {
      var p, i, input := e.p, e.i, e.input;
      var s := w.procs[p];
      var o := Serve(s.kind, p, At(w, p, i), input);
      assert ServerInv(p, s, w.kernel) && Fresh(s, w.kernel, i);
      if o.Died? {
        assert '\n' !in input.text;
      } else {
        ReceiveBooks(w, p, i, input, o.local, r);
      }
    }
  }

  lemma {:induction false} ReceiveBooks(w: World, p: int, i: int, input: Input, l: Local, r: int)
    requires Inv(w) && Ready(w, p, i) && 0 <= r < RECORDS && Fresh(w.procs[p], w.kernel, i)
    requires Serve(w.procs[p].kind, p, At(w, p, i), input).Returned?
    requires l == Serve(w.procs[p].kind, p, At(w, p, i), input).local
    ensures |l.kernel.file| == RECORDS
    ensures l.kernel.file[r] == Plus(w.kernel.file[r], Delta(w, Receive(p, i, input), r))
  {
    var s := w.procs[p];
    NothingBooked(w.kernel.file[r]);
    ServeEffect(s.kind, p, At(w, p, i), input);
    if Idles(s.kind, At(w, p, i), l) && Viewing(s.kind, s.slots[i]) {
      IdleBooksNothing(s.kind, p, At(w, p, i), input);
    }
  }

  /** A writer who has been shown a record cannot send a command that goes unanswered. */
  lemma {:induction false} IdleBooksNothing(kind: Kind, p: int, s: Local, input: Input)
    requires Sized(s) && SlotOk(kind, s.slot) && Viewing(kind, s.slot)
    requires Serve(kind, p, s, input).Returned? && Idles(kind, s, Serve(kind, p, s, input).local)
    ensures AcceptedNums(kind, s.kernel.file[s.slot.id - HEAD], input) == [0, 0, 0]
  {
    if kind.WRITE_SERVER? && input.Bytes? && '\n' in input.text {
      CommandEffect(p, s, input);
    }
  }

  /** The sum of all that has been booked on a record in the first n events. */
  function Ledger(ws: seq<World>, es: seq<Event>, r: int, n: nat): Counts
    requires n <= |es| <= |ws|
  {
    if n == 0 then [0, 0, 0] else Plus(Ledger(ws, es, r, n - 1), Delta(ws[n - 1], es[n - 1], r))
  }

  lemma {:induction false} PlusAssociative(a: Counts, b: Counts, c: Counts)
    ensures Plus(Plus(a, b), c) == Plus(a, Plus(b, c))
  {
  }

  /** One more event on the ledger. */
  lemma {:induction false} LedgerGrows(ws: seq<World>, es: seq<Event>, r: int, n: nat, d: Counts, first: Counts,
                                       before: Counts, after: Counts)
    requires 0 < n <= |es| <= |ws| && d == Delta(ws[n - 1], es[n - 1], r)
    requires before == Plus(first, Ledger(ws, es, r, n - 1)) && after == Plus(before, d)
    ensures after == Plus(first, Ledger(ws, es, r, n))
  {
    var sum := Ledger(ws, es, r, n - 1);
    assert Ledger(ws, es, r, n) == Plus(sum, d);
    PlusAssociative(first, sum, d);
  }

  /** In every run every record equals its initial state plus all accepted commands. */
  lemma {:induction false} LedgerLaw(file: seq<Counts>, ws: seq<World>, es: seq<Event>, r: int, n: nat)
    requires Run(file, ws, es) && n < |ws| && 0 <= r < RECORDS
    ensures |ws[n].kernel.file| == RECORDS
    ensures ws[n].kernel.file[r] == Plus(file[r], Ledger(ws, es, r, n))
  {
    NothingBooked(file[r]);
    if n > 0 {
      LedgerLaw(file, ws, es, r, n - 1);
      RunKeeps(file, ws, es, n - 1);
      assert Step(ws[n - 1], es[n - 1], ws[n - 1 + 1]);
      StepBooks(ws[n - 1], es[n - 1], ws[n], r);
      LedgerGrows(ws, es, r, n, Delta(ws[n - 1], es[n - 1], r), file[r], ws[n - 1].kernel.file[r], ws[n].kernel.file[r]);
    }
  }

  /** A record that starts within its bounds never leaves them. */
  lemma {:induction false} BoundsKept(file: seq<Counts>, ws: seq<World>, es: seq<Event>, r: int, n: nat)
    requires Run(file, ws, es) && n < |ws| && 0 <= r < RECORDS && InBounds(file[r])
    ensures |ws[n].kernel.file| == RECORDS && InBounds(ws[n].kernel.file[r])
  {
    RunKeeps(file, ws, es, n);
    if n > 0 {
      BoundsKept(file, ws, es, r, n - 1);
      RunKeeps(file, ws, es, n - 1);
      var w, e := ws[n - 1], es[n - 1];
      assert Step(w, e, ws[n - 1 + 1]);
      StepBooks(w, e, ws[n], r);
      NothingBooked(w.kernel.file[r]);
      if e.Receive? && ViewsAt(w, e.p, e.i, r) {
        ShownIsCurrent(file, ws, es, n - 1, e.p, e.i, r);
      }
    }
  }

  /** A client that keeps looking at a record from state m to state n sees one state: nothing is
      booked on the record meanwhile. */
  lemma {:induction false} SnapshotStable(file: seq<Counts>, ws: seq<World>, es: seq<Event>, m: nat, n: nat,
                                          p: int, i: int, r: int)
    requires Run(file, ws, es) && m <= n < |ws| && 0 <= r < RECORDS
    requires forall k :: m <= k <= n ==> ViewsAt(ws[k], p, i, r)
    ensures |ws[m].kernel.file| == |ws[n].kernel.file| == RECORDS
    ensures ws[n].kernel.file[r] == ws[m].kernel.file[r]
    ensures ViewsAt(ws[m], p, i, r) && ViewsAt(ws[n], p, i, r)
    ensures ws[n].procs[p].slots[i].buf == ws[m].procs[p].slots[i].buf == Shown(ws[m].kernel.file[r])
  {
    ShownIsCurrent(file, ws, es, m, p, i, r);
    if m < n {
      SnapshotStable(file, ws, es, m, n - 1, p, i, r);
      ShownIsCurrent(file, ws, es, n, p, i, r);
      var w, e := ws[n - 1], es[n - 1];
      RunKeeps(file, ws, es, n - 1);
      assert Step(w, e, ws[n - 1 + 1]);
      StepBooks(w, e, ws[n], r);
      NothingBooked(w.kernel.file[r]);
      if e.Receive? && ViewsAt(w, e.p, e.i, r) && w.procs[e.p].kind.WRITE_SERVER? {
        WriterAlone(file, ws, es, n - 1, e.p, e.i, p, i, r);
        OwnCommandEndsViewing(w, e, ws[n], r);
      }
    }
  }

  lemma {:induction false} OwnCommandEndsViewing(w: World, e: Event, w': World, r: int)
    requires Inv(w) && Step(w, e, w') && e.Receive? && ViewsAt(w, e.p, e.i, r) && ViewsAt(w', e.p, e.i, r)
    requires w.procs[e.p].kind.WRITE_SERVER? && 0 <= r < RECORDS
    ensures Delta(w, e, r) == [0, 0, 0]
  {
    if e.input.Bytes? && '\n' in e.input.text {
      CommandEffect(e.p, At(w, e.p, e.i), e.input);
    }
  }

  /** An accepted command updates the state its client was shown, by the numbers it sent, and
      its client is then done; a refused one changes no record. */
  lemma {:induction false} NoLostUpdate(file: seq<Counts>, ws: seq<World>, es: seq<Event>, n: nat, shown: Counts,
                                        text: string, r: int)
    requires Run(file, ws, es) && n < |es| && 0 <= r < RECORDS
    requires es[n].Receive? && es[n].input == Bytes(text) && '\n' in text
    requires ViewsAt(ws[n], es[n].p, es[n].i, r) && ws[n].procs[es[n].p].kind.WRITE_SERVER?
    requires ws[n].procs[es[n].p].slots[es[n].i].buf == Shown(shown)
    ensures |ws[n].kernel.file| == |ws[n + 1].kernel.file| == RECORDS
    ensures var cmd, after := Parse(text), ws[n + 1].kernel.file[r];
      if cmd.Command? && |cmd.nums| == 3 && InBounds(Plus(shown, cmd.nums)) then after == Plus(shown, cmd.nums)
      else after == shown
    ensures es[n].p in ws[n + 1].procs && ws[n + 1].procs[es[n].p].slots[es[n].i].buf == Shown(ws[n + 1].kernel.file[r])
    ensures HeldBy(ws[n + 1].kernel, es[n].p, r) == UNLCK
    ensures forall x :: 0 <= x < RECORDS && x != r ==> ws[n + 1].kernel.file[x] == ws[n].kernel.file[x]
    ensures !ws[n + 1].procs[es[n].p].slots[es[n].i].live && !ViewsAt(ws[n + 1], es[n].p, es[n].i, r)
  {
    var w, e := ws[n], es[n];
    RunKeeps(file, ws, es, n);
    ShownIsCurrent(file, ws, es, n, e.p, e.i, r);
    CommandEffect(e.p, At(w, e.p, e.i), e.input);
    ParseThree(text);
    NothingBooked(shown);
  }
}
