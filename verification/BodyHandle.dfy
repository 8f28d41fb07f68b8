/**
 The ModParrotHandle PMC: a file handle whose bytes are the body of a request.  The class
 works on request objects; State, Open, Close and Read are the same operations on values,
 and the theorems about runs of them are at the end.
*/
module BodyHandle {
  import opened Options
  import opened Texts
  import opened BodyRead

  // ---------------------------------------------------------------- Content-Length

  predicate IsDigit(c: char) {
    '0' <= c <= '9'
  }

  function Digit(c: char): nat
    requires IsDigit(c)
  {
    c as int - '0' as int
  }

  /** The value of the leading digits, read on top of what came before. */
  function Digits(s: string, sofar: nat): nat {
    if s == "" || !IsDigit(s[0]) then sofar else Digits(s[1..], 10 * sofar + Digit(s[0]))
  }

  /** atoi, on an int that does not overflow. */
  function Atoi(s: string): int {
    if s == "" then 0
    else if IsSpace(s[0]) then Atoi(s[1..])
    else if s[0] == '-' then -(Digits(s[1..], 0) as int)
    else if s[0] == '+' then Digits(s[1..], 0)
    else Digits(s, 0)
  }

  /** The decimal numeral of n, as a client sends it (section 14.13 of RFC 2616). */
  function Decimal(n: nat): (s: string)
    ensures |s| > 0 && forall i :: 0 <= i < |s| ==> IsDigit(s[i])
  {
    var last := [(n % 10 + '0' as int) as char];
    if n < 10 then last else Decimal(n / 10) + last
  }

  lemma {:induction false} DigitsAppend(s: string, c: char, sofar: nat)
    requires IsDigit(c) && forall i :: 0 <= i < |s| ==> IsDigit(s[i])
    ensures Digits(s + [c], sofar) == 10 * Digits(s, sofar) + Digit(c)
    decreases |s|
  {
    if s == "" {
      assert ([c])[1..] == "";
    } else {
      assert (s + [c])[1..] == s[1..] + [c];
      DigitsAppend(s[1..], c, 10 * sofar + Digit(s[0]));
    }
  }

  lemma {:induction false} DigitsOfDecimal(n: nat)
    ensures Digits(Decimal(n), 0) == n
  {
    var c := (n % 10 + '0' as int) as char;
    if n < 10 {
      assert [c][1..] == "";
    } else {
      DigitsOfDecimal(n / 10);
      DigitsAppend(Decimal(n / 10), c, 0);
    }
  }

  /** A length sent as a numeral is the length atoi reads. */
  lemma AtoiOfDecimal(n: nat)
    ensures Atoi(Decimal(n)) == n
  {
    DigitsOfDecimal(n);
  }

  lemma {:induction false} DigitsStop(s: string, tail: string, sofar: nat)
    requires (forall i :: 0 <= i < |s| ==> IsDigit(s[i])) && (tail == "" || tail[0] < '0' || tail[0] > '9')
    ensures Digits(s + tail, sofar) == Digits(s, sofar)
    decreases |s|
  {
    if s == "" {
      assert s + tail == tail;
    } else {
      assert (s + tail)[1..] == s[1..] + tail;
      DigitsStop(s[1..], tail, 10 * sofar + Digit(s[0]));
    }
  }

  /** What else atoi reads: white space and a sign may come before the numeral, and anything
      but a digit after it. */
  lemma {:induction false} AtoiOfText(blanks: string, sign: string, n: nat, tail: string)
    requires forall i :: 0 <= i < |blanks| ==> blanks[i] in {' ', '\t', '\n', '\r', 11 as char, 12 as char}
    requires sign in {"", "+", "-"} && (tail == "" || tail[0] < '0' || tail[0] > '9')
    ensures sign != "-" ==> Atoi(blanks + sign + Decimal(n) + tail) == n
    ensures sign == "-" ==> Atoi(blanks + sign + Decimal(n) + tail) == -(n as int)
    decreases |blanks|
  {
    var s := blanks + sign + Decimal(n) + tail;
    if blanks != "" {
      assert s[0] == blanks[0] && s[1..] == blanks[1..] + sign + Decimal(n) + tail;
      AtoiOfText(blanks[1..], sign, n, tail);
    } else {
      assert s == sign + (Decimal(n) + tail);
      AtoiOfSigned(sign, n, tail);
    }
  }

  lemma AtoiOfSigned(sign: string, n: nat, tail: string)
    requires sign in {"", "+", "-"} && (tail == "" || tail[0] < '0' || tail[0] > '9')
    ensures sign != "-" ==> Atoi(sign + (Decimal(n) + tail)) == n
    ensures sign == "-" ==> Atoi(sign + (Decimal(n) + tail)) == -(n as int)
  {
    var numeral := Decimal(n) + tail;
    DigitsOfDecimal(n);
    DigitsStop(Decimal(n), tail, 0);
    assert numeral[0] == Decimal(n)[0];
    if sign == "" {
      assert sign + numeral == numeral;
    } else {
      assert (sign + numeral)[0] == sign[0] && (sign + numeral)[1..] == numeral;
    }
  }

  // ---------------------------------------------------------------- the handle on values

  /** `r` is the request the handle is open on, `canRead` the read bit of its flags. */
  datatype Hnd = Hnd(r: Option<nat>, mode: Option<string>, canRead: bool, offset: nat)

  /** The handle, and what is left of the body of every request. */
  datatype State = State(h: Hnd, rests: seq<seq<Byte>>)

  /** NoMemory: Parrot's allocator, asked for a negative number of bytes, which as an unsigned
      one is more than there are, gives up. */
  datatype Result = Ok(data: seq<Byte>) | NoRequest | Closed | NotReadable | NoMemory

  /** Parrot's reading of a mode string: an r asks for reading. */
  predicate GrantsRead(mode: string) {
    'r' in mode
  }

  predicate Good(st: State) {
    st.h.r.Some? ==> st.h.r.value < |st.rests|
  }

  /** open: the mode given, else the one the handle had, else "r". */
  function Open(st: State, r: Option<nat>, mode: Option<string>): (State, Result) {
    if r.None? then (st, NoRequest)
    else
      var m := if mode.Some? then mode else if st.h.mode.Some? then st.h.mode else Some("r");
      (st.(h := Hnd(r, m, GrantsRead(m.value), st.h.offset)), Ok([]))
  }

  /** close */
  function Close(st: State): State {
    st.(h := st.h.(r := None, offset := 0))
  }

  /** read */
  function Read(st: State, length: int): (State, Result)
    requires Good(st)
  {
    if st.h.r.None? then (st, Closed)
    else if !st.h.canRead then (st, NotReadable)
    else if length < 0 then (st, NoMemory)
    else
      var i := st.h.r.value;
      var data := Take(st.rests[i], length);
      (State(st.h.(offset := st.h.offset + |data|), st.rests[i := Drop(st.rests[i], length)]), Ok(data))
  }

  /** The number of chunks readall asks for at most. */
  function Chunks(length: int): nat {
    if length <= 1024 then 1 else (length + 1023) / 1024
  }

  /** readall, on an open handle. */
  function ReadAll(st: State, contentLength: Option<string>): (State, Result)
    requires Good(st) && st.h.r.Some?
  {
    if contentLength.None? || Atoi(contentLength.value) == 0 then (st, Ok([]))
    else Read(st, 1024 * Chunks(Atoi(contentLength.value)))
  }

  lemma ReadNothing(st: State)
    requires Good(st) && st.h.r.Some? && st.h.canRead
    ensures Read(st, 0) == (st, Ok([]))
  {
    var i := st.h.r.value;
    assert st.rests[i := Drop(st.rests[i], 0)] == st.rests;
  }

  /** Two reads in a row are one long read. */
  lemma ReadTwice(st: State, a: nat, b: nat)
    requires Good(st) && st.h.r.Some? && st.h.canRead
    ensures var (st1, r1) := Read(st, a);
            var (st2, r2) := Read(st1, b);
            r1.Ok? && r2.Ok? && Read(st, a + b) == (st2, Ok(r1.data + r2.data))
  {
    var i := st.h.r.value;
    var body := st.rests[i];
    ReadsAdd(body, a, b);
    assert st.rests[i := Drop(body, a)][i := Drop(body, a + b)] == st.rests[i := Drop(body, a + b)];
  }

  /** Only the number of bytes there are to read matters. */
  lemma ReadAlike(st: State, a: nat, b: nat)
    requires Good(st) && st.h.r.Some? && Min(|st.rests[st.h.r.value]|, a) == Min(|st.rests[st.h.r.value]|, b)
    ensures Read(st, a) == Read(st, b)
  {
  }

  /** What was read after k chunks. */
  predicate ReadSoFar(st: State, k: nat, now: State, result: seq<Byte>)
    requires Good(st)
  {
    (now, Ok(result)) == Read(st, 1024 * k)
  }

  lemma NextChunk(st: State, k: nat, now: State, result: seq<Byte>)
    requires Good(st) && st.h.r.Some? && st.h.canRead && ReadSoFar(st, k, now, result)
    ensures Good(now) && now.h == st.h.(offset := now.h.offset)
    ensures var (next, part) := Read(now, 1024);
            && part.Ok? && ReadSoFar(st, k + 1, next, result + part.data)
            && |result + part.data| == Min(|st.rests[st.h.r.value]|, 1024 * (k + 1))
            && (part.data == [] ==> 1024 * k >= |st.rests[st.h.r.value]|)
  {
    ReadTwice(st, 1024 * k, 1024);
  }

  /** The loop of readall stops after k chunks: with enough bytes for the first time, or
      with an empty chunk.  Either way it has what Chunks(length) chunks would give. */
  lemma ChunksEnough(body: seq<Byte>, k: nat, length: int)
    requires k > 0 && (k == 1 || Min(|body|, 1024 * (k - 1)) < length)
    requires Min(|body|, 1024 * k) >= length || 1024 * (k - 1) >= |body|
    ensures Min(|body|, 1024 * k) == Min(|body|, 1024 * Chunks(length))
  {
    var c := Chunks(length);
    assert length <= 1024 * c && (c > 1 ==> 1024 * (c - 1) < length);
    if 1024 * (k - 1) < |body| {
      assert k == 1 || 1024 * (k - 1) < length;
      assert length <= 1024 * k;
      assert k == c;
    } else {
      assert |body| <= 1024 * c;
    }
  }

  lemma ChunksSuffice(st: State, k: nat, now: State, result: seq<Byte>, length: int)
    requires Good(st) && st.h.r.Some? && ReadSoFar(st, k, now, result)
    requires var n := |st.rests[st.h.r.value]|;
             && k > 0 && (k == 1 || Min(n, 1024 * (k - 1)) < length)
             && (Min(n, 1024 * k) >= length || 1024 * (k - 1) >= n)
    ensures (now, Ok(result)) == Read(st, 1024 * Chunks(length))
  {
    ChunksEnough(st.rests[st.h.r.value], k, length);
    ReadAlike(st, 1024 * k, 1024 * Chunks(length));
  }

  // ---------------------------------------------------------------- the handle on objects

  class Request {
    ghost const id: nat
    const input: InputFilter
    const contentLength: Option<string> // headers_in

    constructor (ghost id: nat, input: InputFilter, contentLength: Option<string>)
      ensures this.id == id && this.input == input && this.contentLength == contentLength
    {
      this.id, this.input, this.contentLength := id, input, contentLength;
    }
  }

  class ModParrotHandle {
    ghost const requests: seq<Request>
    var r: Request?
    var mode: Option<string>
    var canRead: bool
    var readOffset: nat

    /** init */
    constructor (ghost requests: seq<Request>)
      requires Distinct(requests)
      ensures this.requests == requests && Valid()
      ensures View() == State(Hnd(None, None, false, 0), Bodies())
    {
      this.requests := requests;
      r, mode, canRead, readOffset := null, None, false, 0;
    }

    /** Every request has an input of its own. */
    static ghost predicate Distinct(requests: seq<Request>) {
      && (forall i :: 0 <= i < |requests| ==> requests[i].id == i)
      && forall i, j :: 0 <= i < j < |requests| ==> requests[i].input != requests[j].input
    }

    static ghost function Inputs(requests: seq<Request>): (inputs: seq<InputFilter>)
      ensures |inputs| == |requests| && forall i :: 0 <= i < |requests| ==> inputs[i] == requests[i].input
    {
      seq(|requests|, i requires 0 <= i < |requests| => requests[i].input)
    }

    ghost predicate Known(q: Request) {
      q.id < |requests| && requests[q.id] == q
    }

    ghost predicate Valid()
      reads this
    {
      Distinct(requests) && (r != null ==> Known(r))
    }

    ghost function Bodies(): (rests: seq<seq<Byte>>)
      reads Inputs(requests)
      ensures |rests| == |requests| && forall i :: 0 <= i < |requests| ==> rests[i] == requests[i].input.Rest()
    {
      seq(|requests|, i requires 0 <= i < |requests| reads Inputs(requests) => Inputs(requests)[i].Rest())
    }

    ghost function View(): State
      reads this, Inputs(requests)
    {
      State(Hnd(if r == null then None else Some(r.id), mode, canRead, readOffset), Bodies())
    }

    /** Reading from one request leaves the bodies of the others alone. */
    twostate lemma OneBody(k: nat)
      requires k < |requests| && Distinct(requests)
      requires forall i :: 0 <= i < |requests| && i != k ==> unchanged(requests[i].input)
      ensures Bodies() == old(Bodies())[k := requests[k].input.Rest()]
    {
      forall i | 0 <= i < |requests| && i != k ensures requests[i].input.Rest() == old(requests[i].input.Rest()) {
      }
    }

    method OpenOn(q: Request?, newMode: Option<string>) returns (res: Result)
      requires Valid() && (q != null ==> Known(q))
      modifies this
      ensures Valid()
      ensures (View(), res) == Open(old(View()), if q == null then None else Some(q.id), newMode)
    {
      if q == null {
        return NoRequest;
      }
      r := q;
      if newMode.Some? {
        mode := newMode;
      }
      if mode.None? {
        mode := Some("r");
      }
      canRead := GrantsRead(mode.value);
      res := Ok([]);
    }

    method CloseIt()
      requires Valid()
      modifies this
      ensures Valid() && View() == Close(old(View()))
    {
      r := null;
      readOffset := 0;
    }

    /** is_closed: 1 on an open handle, 0 on a closed one. */
    method IsClosed() returns (res: int)
      requires Valid()
      ensures res == if View().h.r.Some? then 1 else 0
    {
      if r != null {
        return 1;
      }
      return 0;
    }

    method ReadBytes(length: int) returns (res: Result)
      requires Valid()
      modifies this`readOffset, if r == null then {} else {r.input}
      ensures Valid() && Good(old(View())) && (View(), res) == Read(old(View()), length)
    {
      if r == null {
        return Closed;
      }
      if !canRead {
        return NotReadable;
      }
      if length < 0 {
        return NoMemory;
      }
      res := ReadInput(length);
    }

    method ReadInput(length: nat) returns (res: Result)
      requires Valid() && r != null && canRead
      modifies this`readOffset, r.input
      ensures Valid() && (View(), res) == Read(old(View()), length)
    {
      hide Take, Drop, Concat;
      var data := ReadString(r.input, length);
      OneBody(r.id);
      if |data| > 0 {
        readOffset := readOffset + |data|;
      }
      res := Ok(data);
    }

    /** The loop of readall.  The C variable total, which has no initial value, is read as 0. */
    method ReadChunks(length: int) returns (result: seq<Byte>)
      requires Valid() && r != null && canRead
      modifies this`readOffset, r.input
      ensures Valid() && (View(), Ok(result)) == Read(old(View()), 1024 * Chunks(length))
    {
      hide Take, Drop, Concat, Read;
      ghost var st, k := View(), 0;
      ghost var body := st.rests[r.id];
      var total := 0;
      result := [];
      ReadNothing(st);
      while true
        invariant Valid() && ReadSoFar(st, k, View(), result) && r != null && canRead
        invariant total == |result| == Min(|body|, 1024 * k) && (k == 0 || total < length)
        decreases |body| - total
      {
        NextChunk(st, k, View(), result);
        var part := ReadBytes(1024);
        k := k + 1;
        if |part.data| == 0 {
          assert result + part.data == result;
          break;
        }
        result := result + part.data;
        total := total + |part.data|;
        if total >= length {
          break;
        }
      }
      ChunksSuffice(st, k, View(), result, length);
    }

    /** readall.  ioClosed is what Parrot's own check of the handle says. */
    method ReadAllBytes(ioClosed: bool) returns (res: Result)
      requires Valid()
      modifies this`readOffset, if r == null then {} else {r.input}
      ensures Valid() && Good(old(View()))
      ensures ioClosed || r == null ==> res == Closed && View() == old(View())
      ensures !ioClosed && r != null ==> (View(), res) == ReadAll(old(View()), r.contentLength)
    {
      if ioClosed || r == null {
        return Closed;
      }
      if r.contentLength.None? {
        return Ok([]);
      }
      var length := Atoi(r.contentLength.value);
      if length == 0 {
        return Ok([]);
      }
      if !canRead {
        return NotReadable; // thrown by the first read
      }
      var result := ReadChunks(length);
      res := Ok(result);
    }
  }

  // ---------------------------------------------------------------- runs

  datatype Op =
    | DoOpen(r: Option<nat>, mode: Option<string>)
    | DoClose
    | DoRead(length: int)
    | DoReadAll(contentLength: Option<string>)

  predicate Enabled(st: State, op: Op) {
    Good(st) && (op.DoOpen? && op.r.Some? ==> op.r.value < |st.rests|)
  }

  function Step(st: State, op: Op): (State, Result)
    requires Enabled(st, op)
  {
    match op
    case DoOpen(r, mode) => Open(st, r, mode)
    case DoClose => (Close(st), Ok([]))
    case DoRead(length) => Read(st, length)
    case DoReadAll(contentLength) => if st.h.r.None? then (st, Closed) else ReadAll(st, contentLength)
  }

  predicate IsRun(st: State, ops: seq<Op>)
    decreases |ops|
  {
    Good(st) && (ops == [] || (Enabled(st, ops[0]) && IsRun(Step(st, ops[0]).0, ops[1..])))
  }

  function Exec(st: State, ops: seq<Op>): (st': State)
    requires IsRun(st, ops)
    ensures Good(st') && |st'.rests| == |st.rests|
    decreases |ops|
  {
    if ops == [] then st else Exec(Step(st, ops[0]).0, ops[1..])
  }

  function Data(res: Result): seq<Byte> {
    if res.Ok? then res.data else []
  }

  /** The bytes a run hands out from the body of request i. */
  function Delivered(st: State, ops: seq<Op>, i: nat): seq<Byte>
    requires IsRun(st, ops)
    decreases |ops|
  {
    if ops == [] then []
    else (if st.h.r == Some(i) then Data(Step(st, ops[0]).1) else []) + Delivered(Step(st, ops[0]).0, ops[1..], i)
  }

  /** The bytes a run hands out. */
  function Total(st: State, ops: seq<Op>): nat
    requires IsRun(st, ops)
    decreases |ops|
  {
    if ops == [] then 0 else |Data(Step(st, ops[0]).1)| + Total(Step(st, ops[0]).0, ops[1..])
  }

  lemma ReadConserves(st: State, length: int, i: nat)
    requires Good(st) && i < |st.rests|
    ensures var (st', res) := Read(st, length);
            && |st'.rests| == |st.rests|
            && st.rests[i] == (if st.h.r == Some(i) then Data(res) else []) + st'.rests[i]
            && st'.h.offset == st.h.offset + |Data(res)|
  {
  }

  /** Nothing is lost, repeated or reordered: whatever is opened, closed and read in between,
      the body of a request is what was handed out from it and what is left. */
  lemma {:induction false} RunConserves(st: State, ops: seq<Op>, i: nat)
    requires IsRun(st, ops) && i < |st.rests|
    ensures st.rests[i] == Delivered(st, ops, i) + Exec(st, ops).rests[i]
    decreases |ops|
  {
    if ops != [] {
      var (st1, res) := Step(st, ops[0]);
      match ops[0] {
        case DoRead(length) => ReadConserves(st, length, i);
        case DoReadAll(cl) =>
          if cl.Some? {
            ReadConserves(st, 1024 * Chunks(Atoi(cl.value)), i);
          }
        case _ =>
      }
      RunConserves(st1, ops[1..], i);
      var now := if st.h.r == Some(i) then Data(res) else [];
      assert st.rests[i] == now + st1.rests[i];
    }
  }

  lemma {:induction false} ExecSplits(st: State, ops: seq<Op>, k: nat)
    requires IsRun(st, ops) && k <= |ops|
    ensures IsRun(st, ops[..k]) && IsRun(Exec(st, ops[..k]), ops[k..])
    ensures Exec(st, ops) == Exec(Exec(st, ops[..k]), ops[k..])
    ensures k > 0 && ops[k - 1].DoClose? ==> Exec(st, ops[..k]).h.offset == 0
    decreases k
  {
    if k == 0 {
      assert ops[..0] == [] && ops[0..] == ops;
    } else {
      assert ops[..k][1..] == ops[1..][..k - 1] && ops[1..][k - 1..] == ops[k..];
      ExecSplits(Step(st, ops[0]).0, ops[1..], k - 1);
    }
  }

  lemma {:induction false} OffsetGrows(st: State, ops: seq<Op>)
    requires IsRun(st, ops) && forall j :: 0 <= j < |ops| ==> !ops[j].DoClose?
    ensures Exec(st, ops).h.offset == st.h.offset + Total(st, ops)
    decreases |ops|
  {
    if ops != [] {
      OffsetGrows(Step(st, ops[0]).0, ops[1..]);
    }
  }

  /** read_offset counts the bytes handed out since the last close, which is the operation
      before position k; opening the handle, even on another request, does not reset it. */
  lemma OffsetSinceClose(st: State, ops: seq<Op>, k: nat)
    requires IsRun(st, ops) && k <= |ops| && (k == 0 || ops[k - 1].DoClose?)
    requires forall j :: k <= j < |ops| ==> !ops[j].DoClose?
    ensures IsRun(st, ops[..k]) && IsRun(Exec(st, ops[..k]), ops[k..])
    ensures Exec(st, ops).h.offset
            == (if k == 0 then st.h.offset else 0) + Total(Exec(st, ops[..k]), ops[k..])
  {
    ExecSplits(st, ops, k);
    OffsetGrows(Exec(st, ops[..k]), ops[k..]);
    if k == 0 {
      assert ops[..0] == [];
    }
  }

  /** readall hands out all that is left if and only if the chunks Content-Length calls for
      hold it. */
  lemma WholeBodyIff(st: State, contentLength: Option<string>)
    requires Good(st) && st.h.r.Some? && st.h.canRead
    ensures ReadAll(st, contentLength).1 == Ok(st.rests[st.h.r.value])
            <==> |st.rests[st.h.r.value]|
                 <= if contentLength.None? || Atoi(contentLength.value) == 0 then 0
                    else 1024 * Chunks(Atoi(contentLength.value))
  {
    var body := st.rests[st.h.r.value];
    if contentLength.Some? && Atoi(contentLength.value) != 0 {
      var n := 1024 * Chunks(Atoi(contentLength.value));
      assert |Take(body, n)| == Min(n, |body|);
    }
  }

  /** When Content-Length is the size of the body, readall hands out the body and leaves
      nothing (section 14.13 of RFC 2616). */
  lemma ReadAllWhole(st: State)
    requires Good(st) && st.h.r.Some? && st.h.canRead
    ensures var i := st.h.r.value;
            var (st', res) := ReadAll(st, Some(Decimal(|st.rests[i]|)));
            && res == Ok(st.rests[i]) && |st'.rests| == |st.rests| && st'.rests[i] == []
            && st'.h.offset == st.h.offset + |st.rests[i]|
  {
    var body := st.rests[st.h.r.value];
    AtoiOfDecimal(|body|);
    WholeBodyIff(st, Some(Decimal(|body|)));
    assert |body| <= 1024 * Chunks(|body|);
  }

  // ---------------------------------------------------------------- who may read

  /** What reads of the given lengths answer, one after the other. */
  function Answers(st: State, lens: seq<nat>): (rs: seq<Result>)
    requires Good(st)
    ensures |rs| == |lens|
    decreases |lens|
  {
    if lens == [] then []
    else
      var (st1, res) := Step(st, DoRead(lens[0]));
      [res] + Answers(st1, lens[1..])
  }

  lemma {:induction false} ReadsCount(s: seq<Byte>, lens: seq<nat>)
    ensures |Reads(s, lens)| == |lens|
    decreases |lens|
  {
    if lens != [] {
      ReadsCount(Drop(s, lens[0]), lens[1..]);
    }
  }

  lemma {:induction false} AnswersAre(st: State, lens: seq<nat>)
    requires Good(st) && st.h.r.Some?
    ensures |Reads(st.rests[st.h.r.value], lens)| == |lens|
    ensures forall i :: 0 <= i < |lens| ==>
              Answers(st, lens)[i] == if st.h.canRead then Ok(Reads(st.rests[st.h.r.value], lens)[i]) else NotReadable
    decreases |lens|
  {
    if lens != [] {
      var (st1, res) := Step(st, DoRead(lens[0]));
      var body := st.rests[st.h.r.value];
      assert st1.rests[st.h.r.value] == if st.h.canRead then Drop(body, lens[0]) else body;
      AnswersAre(st1, lens[1..]);
      assert Reads(body, lens) == [Take(body, lens[0])] + Reads(Drop(body, lens[0]), lens[1..]);
      if !st.h.canRead {
        assert st1 == st;
        ReadsCount(body, lens);
      }
    }
  }

  /** A handle opened with the mode given, else the one it had, else "r", gives out the body
      piece by piece if that mode has an r in it, and refuses every read if it has not. */
  lemma OpenThenRead(st: State, r: nat, mode: Option<string>, lens: seq<nat>)
    requires Good(st) && r < |st.rests|
    ensures var (st1, res) := Step(st, DoOpen(Some(r), mode));
            var m := if mode.Some? then mode.value else if st.h.mode.Some? then st.h.mode.value else "r";
            && res == Ok([]) && Good(st1) && st1.rests == st.rests && st1.h.mode == Some(m)
            && |Reads(st.rests[r], lens)| == |lens|
            && ('r' in m ==> forall i :: 0 <= i < |lens| ==> Answers(st1, lens)[i] == Ok(Reads(st.rests[r], lens)[i]))
            && ('r' !in m ==> forall i :: 0 <= i < |lens| ==> Answers(st1, lens)[i] == NotReadable)
  {
    AnswersAre(Step(st, DoOpen(Some(r), mode)).0, lens);
  }

  /** Opened like that, readall with a right Content-Length gives out the whole body or, if
      there is any, refuses it. */
  lemma OpenThenReadAll(st: State, r: nat, mode: Option<string>)
    requires Good(st) && r < |st.rests|
    ensures var st1 := Step(st, DoOpen(Some(r), mode)).0;
            var m := if mode.Some? then mode.value else if st.h.mode.Some? then st.h.mode.value else "r";
            && Enabled(st1, DoReadAll(Some(Decimal(|st.rests[r]|))))
            && Step(st1, DoReadAll(Some(Decimal(|st.rests[r]|)))).1
               == if 'r' in m || st.rests[r] == [] then Ok(st.rests[r]) else NotReadable
  {
    var st1 := Step(st, DoOpen(Some(r), mode)).0;
    AtoiOfDecimal(|st.rests[r]|);
    if st1.h.canRead {
      ReadAllWhole(st1);
    }
  }

  /** Without a request nothing is opened and nothing changes. */
  lemma OpenNothing(st: State, mode: Option<string>)
    requires Good(st)
    ensures Step(st, DoOpen(None, mode)) == (st, NoRequest)
  {
  }

  /** The rights of a handle are those of its mode. */
  predicate RightsFollowMode(h: Hnd) {
    h.r.Some? ==> h.mode.Some? && (h.canRead <==> 'r' in h.mode.value)
  }

  lemma {:induction false} RightsKept(st: State, ops: seq<Op>)
    requires IsRun(st, ops) && RightsFollowMode(st.h)
    ensures RightsFollowMode(Exec(st, ops).h)
    decreases |ops|
  {
    if ops != [] {
      RightsKept(Step(st, ops[0]).0, ops[1..]);
    }
  }

  /** After any run of a new handle a read is answered Closed without a request, NotReadable
      if the mode has no r in it, NoMemory for a negative length, and else with the next bytes. */
  lemma ReadableIff(st: State, ops: seq<Op>, length: int)
    requires st.h == Hnd(None, None, false, 0) && IsRun(st, ops)
    ensures var e := Exec(st, ops);
            Step(e, DoRead(length)).1
            == if e.h.r.None? then Closed
               else if e.h.mode.None? || 'r' !in e.h.mode.value then NotReadable
               else if length < 0 then NoMemory
               else var rest := e.rests[e.h.r.value]; Ok(if length <= |rest| then rest[..length] else rest)
  {
    RightsKept(st, ops);
  }

  predicate GivesMode(op: Op) {
    op.DoOpen? && op.r.Some? && op.mode.Some?
  }

  /** The mode is that of the last open that gave one, whatever came after it. */
  lemma {:induction false} LastModeWins(st: State, ops: seq<Op>, k: nat)
    requires IsRun(st, ops) && k < |ops| && GivesMode(ops[k])
    requires forall j :: k < j < |ops| ==> !GivesMode(ops[j])
    ensures Exec(st, ops).h.mode == ops[k].mode
    decreases |ops|
  {
    var st1 := Step(st, ops[0]).0;
    if k > 0 {
      LastModeWins(st1, ops[1..], k - 1);
    } else {
      ModeStays(st1, ops[1..]);
    }
  }

  lemma {:induction false} ModeStays(st: State, ops: seq<Op>)
    requires IsRun(st, ops) && st.h.mode.Some? && forall j :: 0 <= j < |ops| ==> !GivesMode(ops[j])
    ensures Exec(st, ops).h.mode == st.h.mode
    decreases |ops|
  {
    if ops != [] {
      ModeStays(Step(st, ops[0]).0, ops[1..]);
    }
  }

  /** A closed handle answers Closed to every read until it is opened on a request again. */
  lemma ClosedUntilOpened(st: State, ops: seq<Op>, length: int, contentLength: Option<string>)
    requires Good(st) && IsRun(Step(st, DoClose).0, ops)
    requires forall j :: 0 <= j < |ops| ==> !(ops[j].DoOpen? && ops[j].r.Some?)
    ensures var e := Exec(Step(st, DoClose).0, ops);
            && e.rests == st.rests
            && Step(e, DoRead(length)) == (e, Closed) && Step(e, DoReadAll(contentLength)) == (e, Closed)
  {
    NothingRead(Step(st, DoClose).0, ops);
  }

  lemma {:induction false} NothingRead(st: State, ops: seq<Op>)
    requires IsRun(st, ops) && st.h.r.None? && forall j :: 0 <= j < |ops| ==> !(ops[j].DoOpen? && ops[j].r.Some?)
    ensures Exec(st, ops).rests == st.rests && Exec(st, ops).h.r.None?
    decreases |ops|
  {
    if ops != [] {
      NothingRead(Step(st, ops[0]).0, ops[1..]);
    }
  }
}
