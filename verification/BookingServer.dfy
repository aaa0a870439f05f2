/** One read or write server: the slot of a client, the server's own lock counters, the record
    file and the kernel's record locks, and what one call of `handle_read` and the code after it
    do to them. */
module BookingServer {
  import opened Booking
  import opened Parser

  const HEAD := 902001
  const RECORDS: nat := 20
  const EXIT := "Exit"
  const IAC: string := [255 as char, 244 as char]

  /** Which of the two programs a server was built as. */
  datatype Kind = READ_SERVER | WRITE_SERVER

  datatype Lock = UNLCK | RDLCK | WRLCK

  /** What is in a slot's buffer. The text of a booking state stands for the state. */
  datatype Reply = NoReply | ExitReply | Shown(state: Counts)

  /** A `request`; it is live while its conn_fd is not -1. */
  datatype Slot = Slot(live: bool, id: int, done: bool, waiting: bool, buf: Reply)

  /** What read() brings: an error, the end of the connection, or the C string in the buffer. */
  datatype Input = ReadError | Eof | Bytes(text: string)

  // The kernel

  /** The record file, and the lock that each process holds on each record (the fcntl() page of
      IEEE Std 1003.1-2017). */
  datatype Kernel = Kernel(file: seq<Counts>, held: map<(int, int), Lock>)

  function HeldBy(k: Kernel, p: int, r: int): Lock {
    if (p, r) in k.held then k.held[(p, r)] else UNLCK
  }

  predicate Others(k: Kernel, p: int, r: int, mode: Lock) {
    exists x :: x in k.held && x.0 != p && x.1 == r && k.held[x] == mode
  }

  /** F_GETLK: the kind of lock of another process that stands in the way, if any. */
  function GetLk(k: Kernel, p: int, r: int, mode: Lock): Lock {
    if Others(k, p, r, WRLCK) then WRLCK
    else if mode == WRLCK && Others(k, p, r, RDLCK) then RDLCK
    else UNLCK
  }

  /** F_SETLK: it fails without effect when another process's lock stands in the way. */
  function SetLk(k: Kernel, p: int, r: int, mode: Lock): Kernel {
    if mode != UNLCK && GetLk(k, p, r, mode) != UNLCK then k
    else Kernel(k.file, k.held[(p, r) := mode])
  }

  // One call of handle_read

  predicate IdInRange(id: int) { 0 <= id - HEAD < RECORDS }

  /** The client has been shown a record and has neither left nor been cut off. */
  predicate Viewing(kind: Kind, s: Slot) {
    s.live && if kind.READ_SERVER? then s.done else !s.waiting
  }

  /** What `main` keeps of every slot: an id is set exactly while its record is viewed. */
  predicate SlotOk(kind: Kind, s: Slot) {
    if Viewing(kind, s) then IdInRange(s.id) else s.id == 0
  }

  /** What one call can touch. */
  datatype Local = Local(slot: Slot, selfLock: seq<int>, kernel: Kernel)

  predicate Sized(s: Local) { |s.selfLock| == 32 && |s.kernel.file| == RECORDS }

  /** `mylock_function`. */
  function LockFunction(kind: Kind, p: int, s: Local, mode: Lock): (s': Local)
    requires Sized(s) && IdInRange(s.slot.id)
    ensures Sized(s')
  {
    var r := s.slot.id - HEAD;
    if kind.WRITE_SERVER? then
      Local(s.slot, s.selfLock[r := if mode == UNLCK then 0 else 1], SetLk(s.kernel, p, r, mode))
    else if mode == RDLCK then
      Local(s.slot, s.selfLock[r := s.selfLock[r] + 1], SetLk(s.kernel, p, r, RDLCK))
    else if mode == UNLCK then
      Local(s.slot, s.selfLock[r := s.selfLock[r] - 1],
            if s.selfLock[r] - 1 == 0 then SetLk(s.kernel, p, r, UNLCK) else s.kernel)
    else s
  }

  /** The value returned, or the end of the process. */
  datatype Outcome = Returned(ret: int, local: Local) | Died

  function HandleRead(kind: Kind, p: int, s: Local, input: Input): (o: Outcome)
    requires Sized(s) && SlotOk(kind, s.slot) && s.slot.live
    ensures o.Returned? ==> Sized(o.local)
  {
    match input
    case ReadError => Returned(-1, s)
    case Eof => Returned(0, s)
    case Bytes(text) =>
      if '\n' !in text then
        if IAC <= text then Returned(5, if s.slot.id != 0 then LockFunction(kind, p, s, UNLCK) else s)
        else Died
      else if kind.READ_SERVER? then
        if s.slot.done then ReaderLeaves(p, s, text) else ReaderAsks(p, s, text)
      else
        if s.slot.waiting then WriterAsks(p, s, text) else WriterCommands(p, s, text)
  }

  /** A client of a read server that has been shown its record. */
  function ReaderLeaves(p: int, s: Local, text: string): (o: Outcome)
    requires Sized(s) && IdInRange(s.slot.id)
    ensures o.Returned? && Sized(o.local)
  {
    if EXIT <= text then Returned(1, LockFunction(READ_SERVER, p, s.(slot := s.slot.(buf := ExitReply)), UNLCK))
    else Returned(0, s)
  }

  /** A new client of a read server. */
  function ReaderAsks(p: int, s: Local, text: string): (o: Outcome)
    requires Sized(s)
    ensures o.Returned? && Sized(o.local)
  {
    var s1 := s.(slot := s.slot.(id := Atoi(text)));
    var r := s1.slot.id - HEAD;
    if r >= RECORDS || r < 0 then Returned(0, s1)
    else if GetLk(s.kernel, p, r, RDLCK) == WRLCK then Returned(4, s1)
    else
      var s2 := LockFunction(READ_SERVER, p, s1, RDLCK);
      Returned(1, s2.(slot := s2.slot.(buf := Shown(s2.kernel.file[r]))))
  }

  /** A new client of a write server. */
  function WriterAsks(p: int, s: Local, text: string): (o: Outcome)
    requires Sized(s)
    ensures o.Returned? && Sized(o.local)
  {
    var s1 := s.(slot := s.slot.(id := Atoi(text)));
    var r := s1.slot.id - HEAD;
    if r >= RECORDS || r < 0 then Returned(0, s1)
    else if GetLk(s.kernel, p, r, WRLCK) != UNLCK || s.selfLock[r] == 1 then Returned(4, s1)
    else
      var s2 := LockFunction(WRITE_SERVER, p, s1, WRLCK);
      Returned(1, s2.(slot := s2.slot.(buf := Shown(s2.kernel.file[r]))))
  }

  /** A client of a write server that has been shown its record sends its command. */
  function WriterCommands(p: int, s: Local, text: string): (o: Outcome)
    requires Sized(s) && IdInRange(s.slot.id)
    ensures o.Returned? && Sized(o.local)
  {
    var r := s.slot.id - HEAD;
    var cmd := Parse(text);
    ParseThree(text);
    if cmd.NoCommand? then Returned(0, LockFunction(WRITE_SERVER, p, s, UNLCK))
    else
      var code := Judge(s.kernel.file[r], cmd.nums);
      if code != 1 then Returned(code, LockFunction(WRITE_SERVER, p, s, UNLCK))
      else
        var state := Plus(s.kernel.file[r], cmd.nums);
        var s1 := s.(kernel := s.kernel.(file := s.kernel.file[r := state]), slot := s.slot.(buf := Shown(state)));
        Returned(1, LockFunction(WRITE_SERVER, p, s1, UNLCK))
  }

  // What main makes of the returned value

  /** `free_request`. It leaves wait_for_write and the buffer as they are. */
  function Free(s: Slot): Slot { s.(live := false, id := 0, done := false) }

  /** The code after the call. It goes on with a slot it has just freed. */
  function After(kind: Kind, ret: int, s: Slot): Slot {
    if ret < 0 then s
    else
      var s1 := if ret != 1 then Free(s) else s;
      if kind.READ_SERVER? then
        if s1.buf == ExitReply then Free(s1) else s1.(done := true)
      else
        if s1.waiting then s1.(waiting := false) else Free(s1)
  }

  function Accept(kind: Kind, s: Slot): Slot {
    s.(live := true, done := false, waiting := s.waiting || kind.WRITE_SERVER?)
  }

  /** One client served: the call and what follows it. */
  function Serve(kind: Kind, p: int, s: Local, input: Input): (o: Outcome)
    requires Sized(s) && SlotOk(kind, s.slot) && s.slot.live
    ensures o.Returned? ==> Sized(o.local)
  {
    var o := HandleRead(kind, p, s, input);
    if o.Died? then Died else Returned(o.ret, o.local.(slot := After(kind, o.ret, o.local.slot)))
  }

  /** Every call leaves a slot that `main` can serve again. */
  lemma {:induction false} ServeKeepsSlot(kind: Kind, p: int, s: Local, input: Input)
    requires Sized(s) && SlotOk(kind, s.slot) && s.slot.live
    ensures var o := Serve(kind, p, s, input); o.Returned? ==> SlotOk(kind, o.local.slot)
  {
  }

  // The program

  /** The record file and the locks, shared by all servers. */
  class Files {
    var now: Kernel

    constructor (file: seq<Counts>)
      ensures now == Kernel(file, map[])
    {
      now := Kernel(file, map[]);
    }

    method Fcntl(p: int, r: int, mode: Lock)
      modifies this
      ensures now == SetLk(old(now), p, r, mode)
    {
      now := SetLk(now, p, r, mode);
    }
  }

  class Server {
    const kind: Kind
    const pid: int
    const requestP: array<Slot>
    const selfLock: array<int>
    const files: Files

    constructor (kind: Kind, pid: int, maxfd: nat, files: Files)
      ensures Valid() && fresh(requestP) && fresh(selfLock)
      ensures this.kind == kind && this.pid == pid && this.files == files && requestP.Length == maxfd
      ensures forall i :: 0 <= i < maxfd ==> requestP[i] == Slot(false, 0, false, false, NoReply)
      ensures forall r :: 0 <= r < 32 ==> selfLock[r] == 0
    {
      this.kind, this.pid, this.files := kind, pid, files;
      requestP := new Slot[maxfd](_ => Slot(false, 0, false, false, NoReply));
      selfLock := new int[32](_ => 0);
    }

    ghost predicate Valid()
      reads this, requestP, selfLock
    {
      && selfLock.Length == 32
      && forall i :: 0 <= i < requestP.Length ==> SlotOk(kind, requestP[i])
    }

    /** What a call for slot i can touch. */
    ghost function View(i: nat): Local
      requires i < requestP.Length
      reads this, requestP, selfLock, files
    {
      Local(requestP[i], selfLock[..], files.now)
    }

    method MyLockFunction(i: nat, mode: Lock)
      requires i < requestP.Length && Sized(View(i)) && IdInRange(requestP[i].id)
      modifies selfLock, files
      ensures View(i) == LockFunction(kind, pid, old(View(i)), mode)
    {
      var r := requestP[i].id - HEAD;
      if kind.WRITE_SERVER? {
        if mode == UNLCK { selfLock[r] := 0; } else { selfLock[r] := 1; }
        files.Fcntl(pid, r, mode);
      } else if mode == RDLCK {
        selfLock[r] := selfLock[r] + 1;
        files.Fcntl(pid, r, mode);
      } else if mode == UNLCK {
        selfLock[r] := selfLock[r] - 1;
        if selfLock[r] == 0 { files.Fcntl(pid, r, mode); }
      }
    }

    /** `handle_read` on slot i. No other slot changes. */
    method HandleReadAt(i: nat, input: Input) returns (died: bool, ret: int)
      requires i < requestP.Length && Sized(View(i)) && SlotOk(kind, requestP[i]) && requestP[i].live
      modifies requestP, selfLock, files
      ensures died <==> HandleRead(kind, pid, old(View(i)), input).Died?
      ensures !died ==> HandleRead(kind, pid, old(View(i)), input) == Returned(ret, View(i))
      ensures forall j :: 0 <= j < requestP.Length && j != i ==> requestP[j] == old(requestP[j])
    {
      died, ret := false, 1;
      if input == ReadError { return false, -1; }
      if input == Eof { return false, 0; }
      var text := input.text;
      if '\n' !in text {
        if IAC <= text {
          if requestP[i].id != 0 { MyLockFunction(i, UNLCK); }
          return false, 5;
        }
        return true, 1;
      }
      if kind.READ_SERVER? {
        if requestP[i].done {
          if EXIT <= text {
            requestP[i] := requestP[i].(buf := ExitReply);
            MyLockFunction(i, UNLCK);
          } else {
            ret := 0;
          }
        } else {
          ret := Ask(i, text);
        }
      } else if requestP[i].waiting {
        ret := Ask(i, text);
      } else {
        ret := Command(i, text);
      }
    }

    /** The part that reads an id, for both programs. */
    method Ask(i: nat, text: string) returns (ret: int)
      requires i < requestP.Length && Sized(View(i))
      modifies requestP, selfLock, files
      ensures Returned(ret, View(i)) ==
        if kind.READ_SERVER? then ReaderAsks(pid, old(View(i)), text) else WriterAsks(pid, old(View(i)), text)
      ensures forall j :: 0 <= j < requestP.Length && j != i ==> requestP[j] == old(requestP[j])
    {
      var id := Atoi(text);
      requestP[i] := requestP[i].(id := id);
      var offset := id - HEAD;
      if offset >= 20 || offset < 0 { return 0; }
      if kind.READ_SERVER? {
        var result := GetLk(files.now, pid, offset, RDLCK);
        if result == WRLCK { return 4; }
        MyLockFunction(i, RDLCK);
      } else {
        var result := GetLk(files.now, pid, offset, WRLCK);
        if result != UNLCK || selfLock[offset] == 1 { return 4; }
        MyLockFunction(i, WRLCK);
      }
      requestP[i] := requestP[i].(buf := Shown(files.now.file[offset]));
      return 1;
    }

    /** The part that applies a booking command. */
    method Command(i: nat, text: string) returns (ret: int)
      requires i < requestP.Length && Sized(View(i)) && IdInRange(requestP[i].id) && kind.WRITE_SERVER?
      modifies requestP, selfLock, files
      ensures Returned(ret, View(i)) == WriterCommands(pid, old(View(i)), text)
      ensures forall j :: 0 <= j < requestP.Length && j != i ==> requestP[j] == old(requestP[j])
    {
      var nums := new int[4];
      var ok := MyAtoi(nums, text);
      ParseThree(text);
      if !ok {
        MyLockFunction(i, UNLCK);
        return 0;
      }
      var offset := requestP[i].id - HEAD;
      var record := files.now.file[offset];
      var temp := new int[3](k requires 0 <= k < 3 => record[k]);
      assert temp[..] == record;
      ret := Apply(temp, nums);
      if ret == 1 {
        files.now := files.now.(file := files.now.file[offset := temp[..]]);
        requestP[i] := requestP[i].(buf := Shown(files.now.file[offset]));
      }
      MyLockFunction(i, UNLCK);
    }

    /** The body of `main`'s loop for a client with input. */
    method ServeAt(i: nat, input: Input) returns (died: bool)
      requires Valid() && i < requestP.Length && Sized(View(i)) && requestP[i].live
      modifies requestP, selfLock, files
      ensures died <==> Serve(kind, pid, old(View(i)), input).Died?
      ensures !died ==> Serve(kind, pid, old(View(i)), input).local == View(i) && Valid()
      ensures forall j :: 0 <= j < requestP.Length && j != i ==> requestP[j] == old(requestP[j])
    {
      var ret;
      ServeKeepsSlot(kind, pid, View(i), input);
      died, ret := HandleReadAt(i, input);
      if died || ret < 0 { return; }
      if ret != 1 { requestP[i] := Free(requestP[i]); }
      if kind.READ_SERVER? {
        if requestP[i].buf == ExitReply {
          requestP[i] := Free(requestP[i]);
        } else {
          requestP[i] := requestP[i].(done := true);
        }
      } else {
        if requestP[i].waiting {
          requestP[i] := requestP[i].(waiting := false);
        } else {
          requestP[i] := Free(requestP[i]);
        }
      }
    }
  }
}
