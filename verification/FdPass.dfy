/** Passing listening sockets over a unix stream socket (internal/fdpass/fdpass_unix.go): one
    length-prefixed payload with every descriptor in one ancillary message.  The stream may be
    cut into reads anywhere; JSON is an encoder and a decoder given by the caller. */
module FdPass {

  import opened Wrappers

  type Byte = b: int | 0 <= b < 256 witness 0

  datatype Header = Header(name: string, kind: string)

  datatype Offer = Offer(name: string, kind: string, file: Option<nat>)

  const MAX_MSG: nat := 16 * 1024
  const MAX_FDS: nat := 128
  const CMSG_HEADER: nat := 16
  const FD_SIZE: nat := 4

  /** The ancillary buffer is CmsgSpace(MAX_FDS) bytes: a header and MAX_FDS bytes of data, not
      MAX_FDS descriptors. */
  const OOB_SIZE: nat := CMSG_HEADER + MAX_FDS
  const FDS_THAT_FIT: nat := (OOB_SIZE - CMSG_HEADER) / FD_SIZE

  function PutU32(n: nat): (bs: seq<Byte>)
    requires n < 0x1_0000_0000
    ensures |bs| == 4
  {
    [n / 0x100_0000, n / 0x1_0000 % 0x100, n / 0x100 % 0x100, n % 0x100]
  }

  function GetU32(bs: seq<Byte>): nat
    requires |bs| == 4
  {
    var b: seq<int> := bs;
    b[0] * 0x100_0000 + b[1] * 0x1_0000 + b[2] * 0x100 + b[3]
  }

  lemma U32RoundTrip(n: nat)
    requires n < 0x1_0000_0000
    ensures GetU32(PutU32(n)) == n
  {
    assert n / 0x100 == (n / 0x1_0000) * 0x100 + n / 0x100 % 0x100;
    assert n / 0x1_0000 == (n / 0x100_0000) * 0x100 + n / 0x1_0000 % 0x100;
  }

  // ----- Sending -----

  datatype Sending =
    | Nothing
    | TooMany
    | NoFile(name: string)
    | NotEncodable
    | TooLong
    | NotWritten
    | Message(payload: seq<Byte>, fds: seq<nat>)

  function Headers(offers: seq<Offer>): (hs: seq<Header>)
    ensures |hs| == |offers|
  {
    seq(|offers|, i requires 0 <= i < |offers| => Header(offers[i].name, offers[i].kind))
  }

  predicate AllFiles(offers: seq<Offer>) { forall i | 0 <= i < |offers| :: offers[i].file.Some? }

  function Files(offers: seq<Offer>): (fs: seq<nat>)
    requires AllFiles(offers)
    ensures |fs| == |offers|
  {
    seq(|offers|, i requires 0 <= i < |offers| => offers[i].file.value)
  }

  function Encoded(offers: seq<Offer>, body: Option<seq<Byte>>): Sending
    requires AllFiles(offers)
  {
    if body.None? then NotEncodable
    else if 4 + |body.value| > MAX_MSG then TooLong
    else Message(PutU32(|body.value|) + body.value, Files(offers))
  }

  /** What becomes of an encoded message when it is written. */
  function Written(m: Sending, writes: bool): Sending { if m.Message? && !writes then NotWritten else m }

  /** The files of these offers. */
  function FilesOf(offers: seq<Offer>): set<nat> { set o | o in offers && o.file.Some? :: o.file.value }

  /** The offers before the first one without a file. */
  function BeforeTheGap(offers: seq<Offer>): (k: nat)
    ensures k <= |offers| && AllFiles(offers[..k]) && (k < |offers| ==> offers[k].file.None?)
  {
    if offers == [] || offers[0].file.None? then 0
    else
      var k := 1 + BeforeTheGap(offers[1..]);
      assert forall i | 1 <= i < k :: offers[i] == offers[1..][i - 1];
      k
  }

  lemma GapAt(offers: seq<Offer>, k: nat)
    requires k < |offers| && AllFiles(offers[..k]) && offers[k].file.None?
    ensures BeforeTheGap(offers) == k && !AllFiles(offers)
  {
    assert forall i | 0 <= i < k :: offers[..k][i] == offers[i];
    assert forall i | 0 <= i < BeforeTheGap(offers) :: offers[..BeforeTheGap(offers)][i] == offers[i];
  }

  /** Send.  `writes` is whether the socket takes the message; `closed` are the files closed on this
      side: all of them, unless an offer has no file, which stops it with those before it closed. */
  method Send(offers: seq<Offer>, marshal: seq<Header> -> Option<seq<Byte>>, writes: bool)
    returns (r: Sending, closed: set<nat>)
    ensures r.Nothing? <==> offers == []
    ensures r.TooMany? <==> |offers| > 128
    ensures 0 < |offers| <= 128 && AllFiles(offers) ==>
      r == Written(Encoded(offers, marshal(Headers(offers))), writes)
    ensures r.NoFile? <==> 0 < |offers| <= 128 && !AllFiles(offers)
    ensures 0 < |offers| <= 128 && AllFiles(offers) ==>
      (r.TooLong? <==> marshal(Headers(offers)).Some? && |marshal(Headers(offers)).value| > 16380)
    ensures r.NoFile? ==>
      var k := BeforeTheGap(offers); k < |offers| && r.name == offers[k].name && closed == FilesOf(offers[..k])
    ensures !r.NoFile? ==> closed == FilesOf(offers)
  {
    closed := {};
    if |offers| == 0 {
      return Nothing, closed;
    }
    if |offers| > MAX_FDS {
      var k := 0;
      while k < |offers|
        invariant 0 <= k <= |offers|
        invariant closed == FilesOf(offers[..k])
      {
        assert offers[..k + 1] == offers[..k] + [offers[k]];
        if offers[k].file.Some? {
          closed := closed + {offers[k].file.value};
        }
        k := k + 1;
      }
      assert offers[..k] == offers;
      return TooMany, closed;
    }
    var headers: seq<Header>, fds: seq<nat> := [], [];
    var i := 0;
    while i < |offers|
      invariant 0 <= i <= |offers| && AllFiles(offers[..i])
      invariant headers == Headers(offers[..i]) && fds == Files(offers[..i])
    {
      var o := offers[i];
      if o.file.None? {
        GapAt(offers, i);
        FilesAre(offers[..i]);
        return NoFile(o.name), set f | f in fds;
      }
      assert offers[..i + 1] == offers[..i] + [o];
      headers := headers + [Header(o.name, o.kind)];
      fds := fds + [o.file.value];
      i := i + 1;
    }
    assert offers[..i] == offers;
    closed := set f | f in fds;
    FilesAre(offers);
    var body := marshal(headers);
    if body.None? {
      return NotEncodable, closed;
    }
    if 4 + |body.value| > MAX_MSG {
      return TooLong, closed;
    }
    r := if writes then Message(PutU32(|body.value|) + body.value, fds) else NotWritten;
  }

  lemma FilesAre(offers: seq<Offer>)
    requires AllFiles(offers)
    ensures (set f | f in Files(offers)) == FilesOf(offers)
  {
    forall o | o in offers ensures o.file.value in Files(offers) {
      var i :| 0 <= i < |offers| && offers[i] == o;
      assert Files(offers)[i] == o.file.value;
    }
  }

  // ----- Receiving -----

  datatype Error =
    | Truncated
    | UnexpectedEOF
    | PayloadTooLong
    | BadHeaders
    | NoDescriptors
    | CountMismatch
    | MissingName
    | NotAListener

  /** What Recv gives: a listener (here: its descriptor) by name, and what went wrong if anything;
      and the descriptors that arrived and stay open in this process with nobody to close them. */
  datatype Receipt = Receipt(out: map<string, nat>, err: Option<Error>, left: seq<nat>)

  /** The receiving end of the socket.  `plan` decides how many bytes each read returns. */
  class Conn {
    const plan: nat -> nat
    var rest: seq<Byte>
    var fds: seq<nat>
    var readCount: nat

    constructor (payload: seq<Byte>, descriptors: seq<nat>, plan: nat -> nat)
      ensures rest == payload && fds == descriptors
    {
      this.plan, rest, fds, readCount := plan, payload, descriptors, 0;
    }

    /** One read into buf from `from` on: any non-empty amount that fits, or nothing at the end. */
    method Read(buf: array<Byte>, from: nat) returns (m: nat)
      requires from <= buf.Length
      modifies this`rest, this`readCount, buf
      ensures from + m <= buf.Length && m <= |old(rest)| && rest == old(rest)[m..]
      ensures buf[..from + m] == old(buf[..from]) + old(rest)[..m]
      ensures m == 0 <==> old(rest) == [] || from == buf.Length
    {
      var space := buf.Length - from;
      var avail := if |rest| < space then |rest| else space;
      var want := plan(readCount);
      readCount := readCount + 1;
      m := if avail == 0 then 0 else if want == 0 then 1 else if want < avail then want else avail;
      var i := 0;
      while i < m
        invariant 0 <= i <= m && rest == old(rest)
        invariant buf[..from + i] == old(buf[..from]) + rest[..i]
      {
        buf[from + i] := rest[i];
        assert buf[..from + i + 1] == buf[..from + i] + [rest[i]];
        i := i + 1;
      }
      rest := rest[m..];
    }

    /** readAtLeast: reads until buf holds `need` bytes or the stream ends. */
    method ReadAtLeast(buf: array<Byte>, have: nat, need: nat) returns (have': nat, ok: bool)
      requires have <= buf.Length && need <= buf.Length
      modifies this`rest, this`readCount, buf
      ensures have <= have' <= buf.Length
      ensures buf[..have'] + rest == old(buf[..have] + rest)
      ensures ok <==> need <= have + |old(rest)|
      ensures ok ==> need <= have'
    {
      have' := have;
      ghost var all := buf[..have] + rest;
      while have' < need
        invariant have <= have' <= buf.Length && buf[..have'] + rest == all
        decreases |rest|
      {
        var m := Read(buf, have');
        assert buf[..have' + m] + rest == all;
        if m == 0 {
          assert |all| == have' + |rest|;
          return have', false;
        }
        have' := have' + m;
      }
      assert |all| == have' + |rest|;
      return have', true;
    }

    /** Recv, with `bad` the descriptors that are no listening sockets. */
    method Recv(unmarshal: seq<Byte> -> Option<seq<Header>>, bad: set<nat>) returns (r: Receipt)
      modifies this
      ensures r == Received(old(rest), old(fds), unmarshal, bad)
    {
      var buf := new Byte[MAX_MSG];
      if rest == [] && fds == [] {
        return Receipt(map[], None, []);
      }
      ghost var all := rest;
      var n := Read(buf, 0);
      assert buf[..n] + rest == all;
      if |fds| > FDS_THAT_FIT {
        return Receipt(map[], Some(Truncated), fds[..FDS_THAT_FIT]);
      }
      var have, ok := ReadAtLeast(buf, n, 4);
      assert buf[..have] + rest == all;
      if !ok {
        return Receipt(map[], Some(UnexpectedEOF), fds);
      }
      assert buf[..4] == all[..4];
      var plen := GetU32(buf[..4]);
      if plen > MAX_MSG - 4 {
        return Receipt(map[], Some(PayloadTooLong), fds);
      }
      have, ok := ReadAtLeast(buf, have, 4 + plen);
      assert buf[..have] + rest == all;
      if !ok {
        return Receipt(map[], Some(UnexpectedEOF), fds);
      }
      var got := buf[..have];
      assert got == all[..have];
      var headers := unmarshal(got[4..4 + plen]);
      assert got[4..4 + plen] == all[4..4 + plen];
      if headers.None? {
        return Receipt(map[], Some(BadHeaders), fds);
      }
      if fds == [] {
        return Receipt(map[], Some(NoDescriptors), fds);
      }
      if |fds| != |headers.value| {
        return Receipt(map[], Some(CountMismatch), fds);
      }
      r := AdoptListeners(headers.value, fds, bad);
    }
  }

  /** What Recv gives for a whole stream, however it is cut. */
  function Received(payload: seq<Byte>, fds: seq<nat>, unmarshal: seq<Byte> -> Option<seq<Header>>,
                    bad: set<nat>): Receipt {
    if payload == [] && fds == [] then Receipt(map[], None, [])
    else if |fds| > FDS_THAT_FIT then Receipt(map[], Some(Truncated), fds[..FDS_THAT_FIT])
    else if |payload| < 4 then Receipt(map[], Some(UnexpectedEOF), fds)
    else
      var plen := GetU32(payload[..4]);
      if plen > MAX_MSG - 4 then Receipt(map[], Some(PayloadTooLong), fds)
      else if |payload| < 4 + plen then Receipt(map[], Some(UnexpectedEOF), fds)
      else
        var headers := unmarshal(payload[4..4 + plen]);
        if headers.None? then Receipt(map[], Some(BadHeaders), fds)
        else if fds == [] then Receipt(map[], Some(NoDescriptors), fds)
        else if |fds| != |headers.value| then Receipt(map[], Some(CountMismatch), fds)
        else Adopted(map[], headers.value, fds, bad)
  }

  /** adoptListeners from the listeners adopted so far. */
  function Adopted(out: map<string, nat>, headers: seq<Header>, fds: seq<nat>, bad: set<nat>): Receipt
    requires |headers| == |fds|
    decreases |headers|
  {
    if headers == [] then Receipt(out, None, [])
    else if headers[0].name == "" then Receipt(out, Some(MissingName), fds)
    else if fds[0] in bad then Receipt(out, Some(NotAListener), fds[1..])
    else Adopted(out[headers[0].name := fds[0]], headers[1..], fds[1..], bad)
  }

  method AdoptListeners(headers: seq<Header>, fds: seq<nat>, bad: set<nat>) returns (r: Receipt)
    requires |headers| == |fds|
    ensures r == Adopted(map[], headers, fds, bad)
  {
    var out: map<string, nat> := map[];
    var i := 0;
    while i < |headers|
      invariant 0 <= i <= |headers|
      invariant Adopted(map[], headers, fds, bad) == Adopted(out, headers[i..], fds[i..], bad)
    {
      assert headers[i..][0] == headers[i] && headers[i..][1..] == headers[i + 1..];
      assert fds[i..][0] == fds[i] && fds[i..][1..] == fds[i + 1..];
      if headers[i].name == "" {
        return Receipt(out, Some(MissingName), fds[i..]);
      }
      if fds[i] in bad {
        return Receipt(out, Some(NotAListener), fds[i + 1..]);
      }
      out := out[headers[i].name := fds[i]];
      i := i + 1;
    }
    return Receipt(out, None, []);
  }

  // ----- The round trip -----

  ghost predicate GoodNames(offers: seq<Offer>) {
    && (forall i | 0 <= i < |offers| :: offers[i].name != "")
    && (forall i, j | 0 <= i < j < |offers| :: offers[i].name != offers[j].name)
  }

  /** out pairs exactly the offered names with their own descriptors. */
  ghost predicate Pairs(out: map<string, nat>, offers: seq<Offer>)
    requires AllFiles(offers)
  {
    && (forall i | 0 <= i < |offers| :: offers[i].name in out && out[offers[i].name] == offers[i].file.value)
    && (forall n | n in out :: exists i :: 0 <= i < |offers| && offers[i].name == n)
  }

  lemma {:induction false} AdoptsOffers(out: map<string, nat>, offers: seq<Offer>, done: nat, bad: set<nat>)
    requires AllFiles(offers) && GoodNames(offers) && done <= |offers| && AllFiles(offers[..done])
    requires forall i | 0 <= i < |offers| :: offers[i].file.value !in bad
    requires Pairs(out, offers[..done])
    ensures var r := Adopted(out, Headers(offers)[done..], Files(offers)[done..], bad);
      r.err == None && r.left == [] && Pairs(r.out, offers)
    decreases |offers| - done
  {
    if done == |offers| {
      assert offers[..done] == offers;
    } else {
      var hs, fs := Headers(offers)[done..], Files(offers)[done..];
      assert hs[1..] == Headers(offers)[done + 1..] && fs[1..] == Files(offers)[done + 1..];
      var out' := out[hs[0].name := fs[0]];
      assert offers[..done + 1] == offers[..done] + [offers[done]];
      AdoptsOffers(out', offers, done + 1, bad);
    }
  }

  /** Up to 32 offers with distinct non-empty names whose encoding fits arrive as the pairing that
      was offered, for every way the stream is cut (Recv depends only on the whole stream). */
  lemma RoundTrip(offers: seq<Offer>, body: seq<Byte>, unmarshal: seq<Byte> -> Option<seq<Header>>, bad: set<nat>)
    requires 0 < |offers| <= 32 && AllFiles(offers) && GoodNames(offers)
    requires forall i | 0 <= i < |offers| :: offers[i].file.value !in bad
    requires |body| <= 16380 && unmarshal(body) == Some(Headers(offers))
    ensures var m := Encoded(offers, Some(body));
      && m.Message?
      && var r := Received(m.payload, m.fds, unmarshal, bad);
      && r.err == None && Pairs(r.out, offers) && r.left == []
  {
    U32RoundTrip(|body|);
    var payload := PutU32(|body|) + body;
    assert payload[..4] == PutU32(|body|) && payload[4..4 + |body|] == body;
    assert offers[..0] == [];
    assert Headers(offers)[0..] == Headers(offers) && Files(offers)[0..] == Files(offers);
    AdoptsOffers(map[], offers, 0, bad);
  }

  /** From 33 to 128 offers are sent all the same, but Recv reports truncation, pairs nothing and
      leaves the first 32 descriptors open. */
  lemma BeyondTheBuffer(offers: seq<Offer>, body: seq<Byte>, unmarshal: seq<Byte> -> Option<seq<Header>>, bad: set<nat>)
    requires 32 < |offers| <= 128 && AllFiles(offers) && |body| <= 16380
    ensures var m := Encoded(offers, Some(body));
      m.Message? && Received(m.payload, m.fds, unmarshal, bad) == Receipt(map[], Some(Truncated), m.fds[..32])
  {
    assert FDS_THAT_FIT == 32;
  }

  lemma {:induction false} AdoptedLeaves(out: map<string, nat>, headers: seq<Header>, fds: seq<nat>, bad: set<nat>)
    requires |headers| == |fds|
    ensures var r := Adopted(out, headers, fds, bad);
      (r.err == None ==> r.left == []) && |r.left| <= |fds| && r.left == fds[|fds| - |r.left|..]
    decreases |headers|
  {
    if headers != [] && headers[0].name != "" && fds[0] !in bad {
      AdoptedLeaves(out[headers[0].name := fds[0]], headers[1..], fds[1..], bad);
      var r := Adopted(out, headers, fds, bad);
      assert fds[1..][|fds| - 1 - |r.left|..] == fds[|fds| - |r.left|..];
    }
  }

  /** What a failed Recv leaves open: nothing when it succeeds; exactly the first 32 of a message with
      more; never more than 32. */
  lemma WhatIsLeft(payload: seq<Byte>, fds: seq<nat>, unmarshal: seq<Byte> -> Option<seq<Header>>, bad: set<nat>)
    ensures var r := Received(payload, fds, unmarshal, bad);
      && (r.err == None ==> r.left == [])
      && |r.left| <= 32
      && (|fds| > 32 ==> r.left == fds[..32])
      && (forall fd <- r.left :: fd in fds)
  {
    var r := Received(payload, fds, unmarshal, bad);
    if |fds| <= 32 && |payload| >= 4 && GetU32(payload[..4]) <= MAX_MSG - 4 {
      var plen := GetU32(payload[..4]);
      if |payload| >= 4 + plen {
        var headers := unmarshal(payload[4..4 + plen]);
        if headers.Some? && |headers.value| == |fds| {
          AdoptedLeaves(map[], headers.value, fds, bad);
        }
      }
    }
  }

  /** The first header and descriptor that cannot be adopted. */
  ghost predicate StopsAt(headers: seq<Header>, fds: seq<nat>, bad: set<nat>, i: nat)
    requires |headers| == |fds|
  {
    && i < |headers| && (headers[i].name == "" || fds[i] in bad)
    && forall j | 0 <= j < i :: headers[j].name != "" && fds[j] !in bad
  }

  /** That one decides: without a name it leaves its own descriptor and all after it open, and one that is
      no listener those after it. */
  lemma {:induction false} AdoptsUpTo(out: map<string, nat>, headers: seq<Header>, fds: seq<nat>, bad: set<nat>, i: nat)
    requires |headers| == |fds| && StopsAt(headers, fds, bad, i)
    ensures var r := Adopted(out, headers, fds, bad);
      if headers[i].name == "" then r.err == Some(MissingName) && r.left == fds[i..]
      else r.err == Some(NotAListener) && r.left == fds[i + 1..]
    decreases i
  {
    if i > 0 {
      assert StopsAt(headers[1..], fds[1..], bad, i - 1);
      AdoptsUpTo(out[headers[0].name := fds[0]], headers[1..], fds[1..], bad, i - 1);
      assert fds[1..][i - 1..] == fds[i..] && fds[1..][i..] == fds[i + 1..];
    }
  }

  lemma {:induction false} AdoptsAll(out: map<string, nat>, headers: seq<Header>, fds: seq<nat>, bad: set<nat>)
    requires |headers| == |fds| && forall j | 0 <= j < |headers| :: headers[j].name != "" && fds[j] !in bad
    ensures Adopted(out, headers, fds, bad).err == None
    decreases |headers|
  {
    if headers != [] { AdoptsAll(out[headers[0].name := fds[0]], headers[1..], fds[1..], bad); }
  }

  /** Adoption succeeds exactly if every header has a name and every descriptor is a listener. */
  lemma AdoptsIff(headers: seq<Header>, fds: seq<nat>, bad: set<nat>)
    requires |headers| == |fds|
    ensures Adopted(map[], headers, fds, bad).err == None
      <==> forall j | 0 <= j < |headers| :: headers[j].name != "" && fds[j] !in bad
  {
    if forall j | 0 <= j < |headers| :: headers[j].name != "" && fds[j] !in bad {
      AdoptsAll(map[], headers, fds, bad);
    } else {
      var i := FirstStop(headers, fds, bad, 0);
      AdoptsUpTo(map[], headers, fds, bad, i);
    }
  }

  lemma {:induction false} FirstStop(headers: seq<Header>, fds: seq<nat>, bad: set<nat>, k: nat) returns (i: nat)
    requires |headers| == |fds| && k <= |headers|
    requires exists j :: k <= j < |headers| && (headers[j].name == "" || fds[j] in bad)
    requires forall j | 0 <= j < k :: headers[j].name != "" && fds[j] !in bad
    ensures StopsAt(headers, fds, bad, i)
    decreases |headers| - k
  {
    if headers[k].name == "" || fds[k] in bad { i := k; } else { i := FirstStop(headers, fds, bad, k + 1); }
  }

  /** A message is received whole exactly if it is there to its announced end, its headers can be read,
      and each of at most 32 descriptors is a listener with a name of its own header. */
  lemma ReceivedIff(payload: seq<Byte>, fds: seq<nat>, unmarshal: seq<Byte> -> Option<seq<Header>>, bad: set<nat>)
    requires fds != []
    ensures Received(payload, fds, unmarshal, bad).err == None <==>
      && |fds| <= 32 && |payload| >= 4
      && var n := GetU32(payload[..4]);
      && n <= 16380 && |payload| >= 4 + n
      && var hs := unmarshal(payload[4..4 + n]);
      && hs.Some? && |hs.value| == |fds| && forall j | 0 <= j < |fds| :: hs.value[j].name != "" && fds[j] !in bad
  {
    if |fds| <= 32 && |payload| >= 4 && GetU32(payload[..4]) <= MAX_MSG - 4 {
      var n := GetU32(payload[..4]);
      if |payload| >= 4 + n {
        var headers := unmarshal(payload[4..4 + n]);
        if headers.Some? && |headers.value| == |fds| { AdoptsIff(headers.value, fds, bad); }
      }
    }
  }

  /** The whole exchange, from no offer at all to as many as Send accepts: what arrives is what was
      offered, exactly if it fits. */
  method Exchange(offers: seq<Offer>, marshal: seq<Header> -> Option<seq<Byte>>,
                  unmarshal: seq<Byte> -> Option<seq<Header>>, plan: nat -> nat) returns (r: Receipt)
    requires |offers| <= 128 && AllFiles(offers) && GoodNames(offers)
    requires offers != [] ==> marshal(Headers(offers)).Some? && |marshal(Headers(offers)).value| <= 16380
    requires offers != [] ==> unmarshal(marshal(Headers(offers)).value) == Some(Headers(offers))
    ensures r.err == (if |offers| <= 32 then None else Some(Truncated))
    ensures if |offers| <= 32 then Pairs(r.out, offers) && r.left == []
            else r.out == map[] && r.left == Files(offers)[..32]
  {
    var m, closed := Send(offers, marshal, true);
    var payload: seq<Byte>, fds: seq<nat> := [], [];
    if m.Message? {
      payload, fds := m.payload, m.fds;
      if |offers| <= 32 {
        RoundTrip(offers, marshal(Headers(offers)).value, unmarshal, {});
      } else {
        BeyondTheBuffer(offers, marshal(Headers(offers)).value, unmarshal, {});
      }
    }
    var c := new Conn(payload, fds, plan);
    r := c.Recv(unmarshal, {});
  }
}
