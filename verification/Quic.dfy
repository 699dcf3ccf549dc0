/** Handing QUIC datagrams to the kernel in runs (send_packets_out). */
module Quic {
  const UIO_MAXIOV: nat := 1024
  const AF_INET := 2
  const SIZEOF_SOCKADDR_IN := 16
  const SIZEOF_SOCKADDR_IN6 := 28
  const EAGAIN := 11

  type Socket = int
  type Payload = seq<int>

  datatype Address = Address(family: int, host: int)

  /** lsquic_out_spec: `peer` is the UDP socket to send on. */
  datatype Spec = Spec(peer: Socket, dest: Address, iov: Payload)

  /** The message header of an mmsghdr. */
  datatype Header = Header(name: Address, namelen: int, iov: Payload)

  function HeaderOf(s: Spec): Header {
    Header(s.dest, if s.dest.family == AF_INET then SIZEOF_SOCKADDR_IN else SIZEOF_SOCKADDR_IN6, s.iov)
  }

  /** A datagram and the socket it goes out on. */
  datatype Datagram = Datagram(socket: Socket, header: Header)

  function Datagrams(specs: seq<Spec>): (r: seq<Datagram>)
    ensures |r| == |specs| && forall i | 0 <= i < |specs| :: r[i] == Datagram(specs[i].peer, HeaderOf(specs[i]))
  {
    seq(|specs|, i requires 0 <= i < |specs| => Datagram(specs[i].peer, HeaderOf(specs[i])))
  }

  function On(socket: Socket, hdrs: seq<Header>): (r: seq<Datagram>)
    ensures |r| == |hdrs| && forall i | 0 <= i < |hdrs| :: r[i] == Datagram(socket, hdrs[i])
  {
    seq(|hdrs|, i requires 0 <= i < |hdrs| => Datagram(socket, hdrs[i]))
  }

  /** What the kernel took, in order, and the lengths of the batches it was handed. */
  class Kernel {
    var taken: seq<Datagram>
    var batches: seq<nat>
    var errno: int
    var failed: bool

    /** bsd_sendmmsg: an error, or any number of datagrams from the front of the batch. */
    method Sendmmsg(socket: Socket, hdrs: array<Header>, length: nat) returns (ret: int)
      requires length <= hdrs.Length
      modifies this
      ensures -1 <= ret <= length && failed == (ret == -1) && (!failed ==> errno == old(errno))
      ensures batches == old(batches) + [length]
      ensures taken == old(taken) + On(socket, hdrs[..if ret < 0 then 0 else ret])
    {
      ret := *;
      if ret < -1 || ret > length {
        ret := length;
      }
      failed := ret == -1;
      if failed {
        errno := *;
      }
      batches := batches + [length];
      taken := taken + On(socket, hdrs[..if ret < 0 then 0 else ret]);
    }

    method SetErrno(e: int)
      modifies `errno
      ensures errno == e
    {
      errno := e;
    }
  }

  /** The run gathered so far stands for the specs from `sent` on, all for one socket. */
  ghost predicate Gathered(specs: seq<Spec>, hdrs: seq<Header>, sent: int, run: int, last: Socket) {
    && 0 <= sent && 0 <= run <= |hdrs| && sent + run <= |specs|
    && forall k | 0 <= k < run :: hdrs[k] == HeaderOf(specs[sent + k]) && specs[sent + k].peer == last
  }

  lemma TakenMore(specs: seq<Spec>, hdrs: seq<Header>, socket: Socket, sent: nat, run: nat, ret: nat)
    requires Gathered(specs, hdrs, sent, run, socket) && ret <= run
    ensures Datagrams(specs[..sent]) + On(socket, hdrs[..ret]) == Datagrams(specs[..sent + ret])
  {
    var have, want := Datagrams(specs[..sent]) + On(socket, hdrs[..ret]), Datagrams(specs[..sent + ret]);
    forall k | 0 <= k < sent + ret
      ensures have[k] == want[k]
    {
      if k >= sent { assert hdrs[k - sent] == HeaderOf(specs[sent + (k - sent)]); }
    }
  }

  /** Every batch from `from` on has at least one and at most 1024 datagrams. */
  ghost predicate InBounds(batches: seq<nat>, from: nat) {
    from <= |batches| && forall i | from <= i < |batches| :: 0 < batches[i] <= 1024
  }

  lemma GatheredMore(specs: seq<Spec>, hdrs: seq<Header>, hdrs': seq<Header>, sent: nat, run: nat, last: Socket)
    requires Gathered(specs, hdrs, sent, run, last) && sent + run < |specs| && run < |hdrs|
             && specs[sent + run].peer == last
    requires hdrs' == hdrs[run := HeaderOf(specs[sent + run])]
    ensures Gathered(specs, hdrs', sent, run + 1, last)
  {
    forall k | 0 <= k < run + 1
      ensures hdrs'[k] == HeaderOf(specs[sent + k]) && specs[sent + k].peer == last
    {
      if k < run { assert hdrs[k] == HeaderOf(specs[sent + k]); }
    }
  }

  method SendRun(kernel: Kernel, ghost specs: seq<Spec>, hdrs: array<Header>, run: nat, ghost sent: nat, last: Socket,
                 ghost before: seq<Datagram>, ghost from: nat) returns (ret: int)
    requires 0 < run <= UIO_MAXIOV == hdrs.Length && Gathered(specs, hdrs[..], sent, run, last)
    requires kernel.taken == before + Datagrams(specs[..sent]) && InBounds(kernel.batches, from)
    modifies kernel
    ensures -1 <= ret <= run && kernel.failed == (ret == -1) && InBounds(kernel.batches, from)
    ensures kernel.taken == before + Datagrams(specs[..sent + if ret < 0 then 0 else ret])
  {
    hide Datagrams, HeaderOf, On;
    ret := kernel.Sendmmsg(last, hdrs, run);
    TakenMore(specs, hdrs[..], last, sent, run, if ret < 0 then 0 else ret);
    assert hdrs[..][..if ret < 0 then 0 else ret] == hdrs[..if ret < 0 then 0 else ret];
  }

  /** What datagram `d` of a spec is, field by field. */
  ghost predicate Carries(d: Datagram, s: Spec) {
    && d.socket == s.peer && d.header.name == s.dest && d.header.iov == s.iov
    && d.header.namelen == if s.dest.family == 2 then 16 else 28
  }

  /** Since `before` the kernel took a datagram for each of the first `r` specs, in their order. */
  ghost predicate Sent(before: seq<Datagram>, after: seq<Datagram>, specs: seq<Spec>, r: nat) {
    && r <= |specs| && |after| == |before| + r && before <= after
    && forall i | 0 <= i < r :: Carries(after[|before| + i], specs[i])
  }

  lemma DatagramsCarry(before: seq<Datagram>, specs: seq<Spec>, r: nat)
    requires r <= |specs|
    ensures Sent(before, before + Datagrams(specs[..r]), specs, r)
  {
    var after := before + Datagrams(specs[..r]);
    forall i | 0 <= i < r
      ensures Carries(after[|before| + i], specs[i])
    {
      assert after[|before| + i] == Datagrams(specs[..r])[i] && specs[..r][i] == specs[i];
    }
  }

  /** Whatever the kernel takes of each batch, what it took in all is exactly the first `r` datagrams in order, each on
      its own socket, where `r` is what is returned. */
  method SendPacketsOut(kernel: Kernel, specs: seq<Spec>) returns (r: nat)
    requires |specs| > 0
    modifies kernel
    ensures Sent(old(kernel.taken), kernel.taken, specs, r)
    ensures InBounds(kernel.batches, |old(kernel.batches)|)
    ensures r < |specs| ==> kernel.failed || kernel.errno == EAGAIN
  {
    hide Datagrams, HeaderOf, Gathered, Sent;
    forall k | 0 <= k <= |specs| { DatagramsCarry(kernel.taken, specs, k); }
    var hdrs := new Header[UIO_MAXIOV](_ => Header(Address(0, 0), 0, []));
    var run, sent, i := 0, 0, 0;
    var last := specs[0].peer;
    ghost var before, from := kernel.taken, |kernel.batches|;
    NothingTaken(specs, hdrs[..], last);
    while i < |specs|
      invariant sent + run == i <= |specs| && 0 <= run <= UIO_MAXIOV && (run == 0 <==> i == 0)
      invariant kernel.taken == before + Datagrams(specs[..sent]) && InBounds(kernel.batches, from)
      invariant Gathered(specs, hdrs[..], sent, run, last) && (i == 0 ==> last == specs[0].peer)
    {
      if run == UIO_MAXIOV || specs[i].peer != last {
        var ret := SendRun(kernel, specs, hdrs, run, sent, last, before, from);
        if ret != run {
          if ret == -1 {
            return sent;
          } else {
            kernel.SetErrno(EAGAIN);
            return sent + ret;
          }
        }
        sent := sent + ret;
        run := 0;
        last := specs[i].peer;
        GatheredNone(specs, hdrs[..], sent, last);
      }
      ghost var gathered := hdrs[..];
      hdrs[run] := HeaderOf(specs[i]);
      GatheredMore(specs, gathered, hdrs[..], sent, run, last);
      run := run + 1;
      i := i + 1;
    }
    r := |specs|;
    if run != 0 {
      var ret := SendRun(kernel, specs, hdrs, run, sent, last, before, from);
      if ret == -1 {
        return sent;
      }
      if sent + ret != |specs| {
        kernel.SetErrno(EAGAIN);
      }
      r := sent + ret;
    }
  }

  lemma NothingTaken(specs: seq<Spec>, hdrs: seq<Header>, last: Socket)
    ensures Datagrams(specs[..0]) == [] && Gathered(specs, hdrs, 0, 0, last)
  {
  }

  lemma GatheredNone(specs: seq<Spec>, hdrs: seq<Header>, sent: nat, last: Socket)
    requires sent <= |specs|
    ensures Gathered(specs, hdrs, sent, 0, last)
  {
  }
}
