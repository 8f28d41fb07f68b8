/**
 Reading a request body: modparrot_request_read over brigades of any shape, and the POST
 loop of pipp.pir on top of it.
*/
module BodyRead {
  type Byte = b: int | 0 <= b < 256

  function Concat(pieces: seq<seq<Byte>>): seq<Byte> {
    if pieces == [] then [] else pieces[0] + Concat(pieces[1..])
  }

  function Min(a: nat, b: nat): nat {
    if a <= b then a else b
  }

  /** The first n bytes of s, or all of them. */
  function Take(s: seq<Byte>, n: nat): seq<Byte> {
    s[..Min(n, |s|)]
  }

  function Drop(s: seq<Byte>, n: nat): seq<Byte> {
    s[Min(n, |s|)..]
  }

  /** The input filters of a request.  `pieces` is how the body still to come is cut into
      brigades, zero-byte ones included; end of stream arrives with the last of them or
      alone, and again on every later call. */
  class InputFilter {
    var pieces: seq<seq<Byte>>
    const eosWithLast: bool

    constructor (pieces: seq<seq<Byte>>, eosWithLast: bool)
      ensures this.pieces == pieces && this.eosWithLast == eosWithLast && Rest() == Concat(pieces)
    {
      this.pieces, this.eosWithLast := pieces, eosWithLast;
    }

    /** The body still to come. */
    function Rest(): seq<Byte>
      reads this
    {
      Concat(pieces)
    }

    /** Calls that can still go by before end of stream. */
    function Left(): nat
      reads this
    {
      |pieces| + |Rest()|
    }

    /** ap_get_brigade with AP_MODE_READBYTES, flattened: at most len bytes, in order. */
    method GetBrigade(len: nat) returns (data: seq<Byte>, eos: bool)
      requires len > 0
      modifies this
      ensures |data| <= len && old(Rest()) == data + Rest()
      ensures eos ==> Rest() == []
      ensures !eos ==> Left() < old(Left())
    {
      if pieces == [] {
        return [], true;
      }
      data := pieces[0];
      if |data| <= len {
        pieces := pieces[1..];
        eos := eosWithLast && pieces == [];
      } else {
        data := data[..len];
        pieces := [pieces[0][len..]] + pieces[1..];
        eos := false;
      }
    }
  }

  /** modparrot_request_read, for brigades that arrive and flatten without error. */
  method RequestRead(f: InputFilter, buffer: array<Byte>, len: nat) returns (total: nat)
    requires len <= buffer.Length
    modifies f, buffer
    ensures total == Min(len, |old(f.Rest())|)
    ensures buffer[..total] == Take(old(f.Rest()), len) && buffer[total..] == old(buffer[total..])
    ensures f.Rest() == Drop(old(f.Rest()), len)
    ensures total < len ==> f.Rest() == []
  {
    hide Concat;
    total := 0;
    if len == 0 {
      return;
    }
    var left: nat, seenEos := len, false;
    ghost var body, before := f.Rest(), buffer[..];
    while left > 0 && !seenEos
      invariant total + left == len && total <= |body|
      invariant f.Rest() == body[total..]
      invariant buffer[..total] == body[..total] && buffer[total..] == before[total..]
      invariant seenEos ==> f.Rest() == []
      decreases !seenEos, f.Left()
    {
      var data, eos := f.GetBrigade(left);
      if eos {
        seenEos := true;
      }
      ghost var now := buffer[..];
      Flatten(buffer, total, data);
      SameTails(buffer[..], now, before, total, |data|);
      assert body[..total + |data|] == body[..total] + data;
      total := total + |data|;
      left := left - |data|;
    }
    assert |body[total..]| == |body| - total;
  }

  lemma SameTails(a: seq<Byte>, b: seq<Byte>, c: seq<Byte>, i: nat, n: nat)
    requires i + n <= |a| == |b| == |c| && a[i + n..] == b[i + n..] && b[i..] == c[i..]
    ensures a[i + n..] == c[i + n..]
  {
    assert b[i + n..] == b[i..][n..] && c[i + n..] == c[i..][n..];
  }

  /** apr_brigade_flatten at a position of the buffer. */
  method Flatten(buffer: array<Byte>, at: nat, data: seq<Byte>)
    requires at + |data| <= buffer.Length
    modifies buffer
    ensures buffer[..at] == old(buffer[..at]) && buffer[at..at + |data|] == data
    ensures buffer[..at + |data|] == old(buffer[..at]) + data
    ensures buffer[at + |data|..] == old(buffer[at + |data|..])
  {
    var i := 0;
    while i < |data|
      invariant 0 <= i <= |data|
      invariant buffer[..at] == old(buffer[..at]) && buffer[at..at + i] == data[..i]
      invariant buffer[at + |data|..] == old(buffer[at + |data|..])
    {
      buffer[at + i] := data[i];
      i := i + 1;
    }
  }

  /** mpnci_request_read: a buffer of the wanted size, and the bytes that came. */
  method ReadString(f: InputFilter, len: nat) returns (data: seq<Byte>)
    modifies f
    ensures data == Take(old(f.Rest()), len) && f.Rest() == Drop(old(f.Rest()), len)
  {
    var buffer := new Byte[len];
    var bytes := RequestRead(f, buffer, len);
    data := buffer[..bytes];
  }

  const Chunk: nat := 8192

  /** The POST loop so far: what was read and what is left make up the body; while more is
      to come every chunk was full, and after the last one nothing is left. */
  predicate PostInv(body: seq<Byte>, data: seq<Byte>, rest: seq<Byte>, calls: nat, more: bool) {
    && body == data + rest
    && if more then |data| == Chunk * calls
       else rest == [] && Chunk * (calls - 1) <= |data| < Chunk * calls
  }

  lemma NextPost(body: seq<Byte>, data: seq<Byte>, rest: seq<Byte>, calls: nat)
    requires PostInv(body, data, rest, calls, true)
    ensures PostInv(body, data + Take(rest, Chunk), Drop(rest, Chunk), calls + 1, |Take(rest, Chunk)| == Chunk)
    ensures |Drop(rest, Chunk)| + |Take(rest, Chunk)| == |rest|
  {
    assert rest == Take(rest, Chunk) + Drop(rest, Chunk);
  }

  /** The POST loop: read chunks until one comes short. */
  method PostRead(f: InputFilter) returns (data: seq<Byte>, calls: nat)
    modifies f
    ensures data == old(f.Rest()) && f.Rest() == []
    ensures Chunk * (calls - 1) <= |data| < Chunk * calls
  {
    data, calls := [], 0;
    ghost var body := f.Rest();
    var more := true;
    while more
      invariant PostInv(body, data, f.Rest(), calls, more)
      decreases more, |f.Rest()|
    {
      NextPost(body, data, f.Rest(), calls);
      var chunk := ReadString(f, Chunk);
      data := data + chunk;
      calls := calls + 1;
      more := |chunk| == Chunk;
    }
  }

  // ---------------------------------------------------------------- how a body is cut does not matter

  /** Asking for a bytes and then for b gives what asking for a + b at once gives. */
  lemma ReadsAdd(s: seq<Byte>, a: nat, b: nat)
    ensures Take(s, a + b) == Take(s, a) + Take(Drop(s, a), b)
    ensures Drop(s, a + b) == Drop(Drop(s, a), b)
  {
    if a <= |s| {
      assert s[a..][..Min(b, |s| - a)] == s[a..Min(a + b, |s|)];
    }
  }

  function Sum(lens: seq<nat>): nat {
    if lens == [] then 0 else lens[0] + Sum(lens[1..])
  }

  /** What reads of the given lengths return, one after the other. */
  function Reads(s: seq<Byte>, lens: seq<nat>): seq<seq<Byte>> {
    if lens == [] then [] else [Take(s, lens[0])] + Reads(Drop(s, lens[0]), lens[1..])
  }

  /** However the reads are cut, they deliver the body in order. */
  lemma {:induction false} ReadsDeliver(s: seq<Byte>, lens: seq<nat>)
    ensures Concat(Reads(s, lens)) == Take(s, Sum(lens))
    decreases |lens|
  {
    if lens != [] {
      ReadsDeliver(Drop(s, lens[0]), lens[1..]);
      ReadsAdd(s, lens[0], Sum(lens[1..]));
      assert Reads(s, lens)[1..] == Reads(Drop(s, lens[0]), lens[1..]);
    }
  }
}
